/** Decoding of the holding-register block that the acquisition server reads
    from each machine's controller (Read Holding Registers, function code 0x03,
    section 6.3 of the Modbus Application Protocol v1.1b3): the lot-number
    string packed one code per register, and JavaScript's `String.prototype.trim`. */
module Registers {
  import opened Telemetry

  /** How one register of the lot number is rendered: 0 is skipped, 1..9 become
      the digits '1'..'9' (`val.toString()`), any other code becomes the code
      unit with that value (`String.fromCharCode`). */
  function Render(val: u16): JsString
  {
    if val == 0 then [] else if val <= 9 then [0x30 + val] else [val]
  }

  /** The string `registersToString` accumulates before trimming. */
  function Rendered(regs: seq<u16>): JsString
  {
    if regs == [] then [] else Rendered(regs[..|regs| - 1]) + Render(regs[|regs| - 1])
  }

  /** Rendering a concatenation renders each part in turn. */
  lemma {:induction false} RenderedAppend(a: seq<u16>, b: seq<u16>)
    ensures Rendered(a + b) == Rendered(a) + Rendered(b)
  {
    if b != [] {
      var b', x := b[..|b| - 1], b[|b| - 1];
      assert a + b == (a + b') + [x];
      assert (a + b)[..|a + b| - 1] == a + b';
      assert (a + b)[|a + b| - 1] == x;
      assert Rendered(b) == Rendered(b') + Render(x);
      assert Rendered(a + b) == Rendered(a + b') + Render(x);
      RenderedAppend(a, b');
    } else {
      assert a + b == a;
    }
  }

  /** A zero register anywhere in the block has no effect on the lot number. */
  lemma ZeroRegisterSkipped(a: seq<u16>, b: seq<u16>)
    ensures Rendered(a + [0] + b) == Rendered(a + b)
  {
    RenderedAppend(a + [0], b);
    RenderedAppend(a, [0]);
    RenderedAppend(a, b);
    assert Rendered([0]) == [] by {
      assert [0][..0] == [];
    }
    assert Rendered(a + [0]) == Rendered(a);
  }

  /** Number of non-zero registers. */
  function NonZero(regs: seq<u16>): nat
  {
    if regs == [] then 0 else NonZero(regs[..|regs| - 1]) + (if regs[|regs| - 1] == 0 then 0 else 1)
  }

  /** Each non-zero register contributes exactly one code unit, and none is 0. */
  lemma {:induction false} RenderedShape(regs: seq<u16>)
    ensures |Rendered(regs)| == NonZero(regs)
    ensures forall i :: 0 <= i < |Rendered(regs)| ==> Rendered(regs)[i] != 0
  {
    if regs != [] {
      RenderedShape(regs[..|regs| - 1]);
    }
  }

  /** The rendering of a lone register: digits for 1..9, the code itself otherwise. */
  lemma RenderOne(val: u16)
    requires val != 0
    ensures Rendered([val]) == if val <= 9 then [0x30 + val] else [val]
  {
    assert [val][..0] == [];
  }

  /** Register value 1 and register value 0x31 both render as the digit '1':
      the lot encoding is not injective. */
  lemma DigitCodesCollide()
    ensures Rendered([1]) == Rendered([0x31])
  {
    RenderOne(1);
    RenderOne(0x31);
  }

  /** ECMAScript WhiteSpace and LineTerminator code units, which `trim` removes. */
  predicate IsSpace(c: u16)
  {
    || c == 0x09 || c == 0x0A || c == 0x0B || c == 0x0C || c == 0x0D
    || c == 0x20 || c == 0xA0 || c == 0x1680 || (0x2000 <= c <= 0x200A)
    || c == 0x2028 || c == 0x2029 || c == 0x202F || c == 0x205F
    || c == 0x3000 || c == 0xFEFF
  }

  /** Number of white-space code units at the front of s. */
  function LeadingSpaces(s: JsString): (n: nat)
    ensures n <= |s|
    ensures forall i :: 0 <= i < n ==> IsSpace(s[i])
    ensures n < |s| ==> !IsSpace(s[n])
  {
    if s != [] && IsSpace(s[0]) then 1 + LeadingSpaces(s[1..]) else 0
  }

  function TrimEnd(s: JsString): (r: JsString)
    ensures |r| <= |s| && r == s[..|r|]
    ensures forall i :: |r| <= i < |s| ==> IsSpace(s[i])
    ensures r != [] ==> !IsSpace(r[|r| - 1])
  {
    if s != [] && IsSpace(s[|s| - 1]) then TrimEnd(s[..|s| - 1]) else s
  }

  /** `String.prototype.trim`: the slice of s left after removing white space at
      both ends. */
  function Trim(s: JsString): (r: JsString)
    ensures r == [] || (!IsSpace(r[0]) && !IsSpace(r[|r| - 1]))
    ensures LeadingSpaces(s) + |r| <= |s|
    ensures r == s[LeadingSpaces(s)..LeadingSpaces(s) + |r|]
    ensures forall i :: LeadingSpaces(s) + |r| <= i < |s| ==> IsSpace(s[i])
  {
    TrimEnd(s[LeadingSpaces(s)..])
  }

  lemma {:induction false} LeadingSpacesPrefix(pre: JsString, rest: JsString)
    requires forall i :: 0 <= i < |pre| ==> IsSpace(pre[i])
    requires rest == [] || !IsSpace(rest[0])
    ensures LeadingSpaces(pre + rest) == |pre|
  {
    if pre != [] {
      assert (pre + rest)[1..] == pre[1..] + rest;
      LeadingSpacesPrefix(pre[1..], rest);
    } else {
      assert pre + rest == rest;
    }
  }

  lemma {:induction false} TrimEndDrops(core: JsString, post: JsString)
    requires forall i :: 0 <= i < |post| ==> IsSpace(post[i])
    requires core == [] || !IsSpace(core[|core| - 1])
    ensures TrimEnd(core + post) == core
  {
    if post != [] {
      assert (core + post)[..|core + post| - 1] == core + post[..|post| - 1];
      TrimEndDrops(core, post[..|post| - 1]);
    } else {
      assert core + post == core;
    }
  }

  /** Trimming removes exactly the surrounding white space: a core that starts
      and ends with non-space survives unchanged, and an all-space string
      trims to the empty string. */
  lemma TrimExact(pre: JsString, core: JsString, post: JsString)
    requires forall i :: 0 <= i < |pre| ==> IsSpace(pre[i])
    requires forall i :: 0 <= i < |post| ==> IsSpace(post[i])
    requires core == [] || (!IsSpace(core[0]) && !IsSpace(core[|core| - 1]))
    ensures Trim(pre + core + post) == core
  {
    var s := pre + core + post;
    if core != [] {
      assert s == pre + (core + post);
      LeadingSpacesPrefix(pre, core + post);
      assert s[|pre|..] == core + post;
      TrimEndDrops(core, post);
    } else {
      var all := pre + post;
      assert s == all;
      assert forall i :: 0 <= i < |all| ==> IsSpace(all[i]);
      LeadingSpacesPrefix(all, []);
      assert all + [] == all;
      assert Trim(s) == TrimEnd([]);
    }
  }

  /** `registersToString` (server/server.js): renders each register in turn,
      skipping zeros, and trims the result. */
  method RegistersToString(registers: seq<u16>) returns (s: JsString)
    ensures s == Trim(Rendered(registers))
  {
    var result: JsString := [];
    for i := 0 to |registers|
      invariant result == Rendered(registers[..i])
    {
      assert registers[..i + 1][..i] == registers[..i];
      var val := registers[i];
      if val == 0 {
        continue;
      }
      if val <= 9 {
        result := result + [0x30 + val];
      } else {
        result := result + [val];
      }
    }
    assert registers[..|registers|] == registers;
    s := Trim(result);
  }

  /** A block of zero registers decodes to the empty lot number. */
  lemma {:induction false} AllZeroIsEmpty(regs: seq<u16>)
    requires forall i :: 0 <= i < |regs| ==> regs[i] == 0
    ensures Trim(Rendered(regs)) == []
  {
    if regs != [] {
      AllZeroIsEmpty(regs[..|regs| - 1]);
    }
  }
}
