/** Sequence operations behind the monitor's drop-oldest buffers: a table that
    grows at the top and loses its bottom row, a chart series that grows at the
    end and loses its first point, and the arithmetic mean of a batch. */
module Bounded {

  /** The last min(n, |s|) elements of s in order: JavaScript's `s.slice(-n)` for n > 0. */
  function Last<T>(s: seq<T>, n: nat): (r: seq<T>)
    ensures |r| == if |s| < n then |s| else n
    ensures r == s[|s| - |r|..]
  {
    if |s| <= n then s else s[|s| - n..]
  }

  /** The first min(n, |s|) elements of s. */
  function Take<T>(s: seq<T>, n: nat): (r: seq<T>)
    ensures |r| == if |s| < n then |s| else n
    ensures r == s[..|r|]
  {
    if |s| <= n then s else s[..n]
  }

  /** `Array.prototype.shift`: drops the first element, and does nothing to an empty array. */
  function Shift<T>(s: seq<T>): (r: seq<T>)
    ensures s != [] ==> r == s[1..]
    ensures s == [] ==> r == []
  {
    if s == [] then [] else s[1..]
  }

  /** s in reverse order. */
  function Reverse<T>(s: seq<T>): (r: seq<T>)
    ensures |r| == |s|
  {
    if s == [] then [] else [s[|s| - 1]] + Reverse(s[..|s| - 1])
  }

  lemma {:induction false} ReverseAt<T>(s: seq<T>, k: nat)
    requires k < |s|
    ensures Reverse(s)[k] == s[|s| - 1 - k]
  {
    if k > 0 {
      ReverseAt(s[..|s| - 1], k - 1);
    }
  }

  /** The last element of a + b is the last element of a non-empty b. */
  lemma LastOfAppend<T>(a: seq<T>, b: seq<T>)
    requires b != []
    ensures |a + b| > 0 && (a + b)[|a + b| - 1] == b[|b| - 1]
  {
  }

  /** The first cap elements of s reversed are its last cap elements, newest first. */
  lemma NewestFirst<T>(s: seq<T>, cap: nat)
    ensures var t := Take(Reverse(s), cap);
            && |t| == (if |s| < cap then |s| else cap)
            && forall i :: 0 <= i < |t| ==> t[i] == s[|s| - 1 - i]
  {
    var t := Take(Reverse(s), cap);
    forall i | 0 <= i < |t|
      ensures t[i] == s[|s| - 1 - i]
    {
      ReverseAt(s, i);
    }
  }

  /** Table discipline: x goes on top; when the table then holds more than cap
      rows, the bottom (oldest) row is removed. */
  function PushFront<T>(x: T, s: seq<T>, cap: nat): (r: seq<T>)
    ensures |s| <= cap && cap > 0 ==>
              0 < |r| <= cap && |r| <= |s| + 1 && r[0] == x && r[1..] == s[..|r| - 1]
    ensures |s| <= cap && cap > 0 ==> |r| == if |s| < cap then |s| + 1 else cap
  {
    var t := [x] + s;
    if |t| > cap then t[..|t| - 1] else t
  }

  /** The table after pushing every element of xs, first to last. */
  function PushFrontAll<T>(s: seq<T>, xs: seq<T>, cap: nat): seq<T>
  {
    if xs == [] then s else PushFront(xs[|xs| - 1], PushFrontAll(s, xs[..|xs| - 1], cap), cap)
  }

  /** Pushing a batch onto a table keeps its newest cap entries, newest first. */
  lemma {:induction false} PushFrontAllKeepsNewest<T>(s: seq<T>, xs: seq<T>, cap: nat)
    requires |s| <= cap && cap > 0
    ensures PushFrontAll(s, xs, cap) == Take(Reverse(xs) + s, cap)
  {
    if xs != [] {
      var init, x := xs[..|xs| - 1], xs[|xs| - 1];
      PushFrontAllKeepsNewest(s, init, cap);
      var u := Reverse(init) + s;
      assert Reverse(xs) + s == [x] + u;
      var p := Take(u, cap);
      assert PushFrontAll(s, xs, cap) == PushFront(x, p, cap);
      if |p| == cap {
        assert PushFront(x, p, cap) == [x] + u[..cap - 1];
      } else {
        assert p == u;
      }
    }
  }

  /** Pushing two batches one after the other is pushing their concatenation. */
  lemma {:induction false} PushFrontAllAppend<T>(s: seq<T>, xs: seq<T>, ys: seq<T>, cap: nat)
    ensures PushFrontAll(PushFrontAll(s, xs, cap), ys, cap) == PushFrontAll(s, xs + ys, cap)
  {
    if ys == [] {
      assert xs + ys == xs;
    } else {
      var init := ys[..|ys| - 1];
      PushFrontAllAppend(s, xs, init, cap);
      assert (xs + ys)[..|xs + ys| - 1] == xs + init;
    }
  }

  /** After a batch is pushed, its last element is on top. */
  lemma LastPushedOnTop<T>(s: seq<T>, xs: seq<T>, cap: nat)
    requires |s| <= cap && cap > 0 && xs != []
    ensures var r := PushFrontAll(s, xs, cap); r != [] && r[0] == xs[|xs| - 1]
  {
    PushFrontAllKeepsNewest(s, xs[..|xs| - 1], cap);
  }

  /** Series discipline: x goes at the end; when the series then holds more than
      cap points, the first (oldest) point is removed. */
  function Slide<T>(s: seq<T>, x: T, cap: nat): (r: seq<T>)
    ensures |s| <= cap ==> |r| <= cap
    ensures cap > 0 ==> |r| > 0 && r[|r| - 1] == x
    ensures |s| < cap ==> r == s + [x]
    ensures |s| == cap && cap > 0 ==> r == s[1..] + [x]
  {
    var t := s + [x];
    assert t[|t| - 1] == x;
    if |t| > cap then t[1..] else t
  }

  /** The series after sliding in every element of xs, first to last. */
  function SlideAll<T>(s: seq<T>, xs: seq<T>, cap: nat): seq<T>
  {
    if xs == [] then s else Slide(SlideAll(s, xs[..|xs| - 1], cap), xs[|xs| - 1], cap)
  }

  /** Sliding one point into the newest cap points of t gives the newest cap
      points of t + [x]. */
  lemma SlideLast<T>(t: seq<T>, x: T, cap: nat)
    ensures Slide(Last(t, cap), x, cap) == Last(t + [x], cap)
  {
    var p := Last(t, cap);
    if |t| >= cap {
      assert p == t[|t| - cap..];
      if cap > 0 {
        assert (p + [x])[1..] == (t + [x])[|t| + 1 - cap..];
      }
    } else {
      assert p == t;
    }
  }

  /** Sliding a batch into a series keeps the newest cap points, oldest first. */
  lemma {:induction false} SlideAllKeepsNewest<T>(s: seq<T>, xs: seq<T>, cap: nat)
    requires |s| <= cap
    ensures SlideAll(s, xs, cap) == Last(s + xs, cap)
  {
    if xs == [] {
      assert s + xs == s;
    } else {
      var init, x := xs[..|xs| - 1], xs[|xs| - 1];
      assert xs == init + [x];
      calc {
        SlideAll(s, xs, cap);
        Slide(SlideAll(s, init, cap), x, cap);
        { SlideAllKeepsNewest(s, init, cap); }
        Slide(Last(s + init, cap), x, cap);
        { SlideLast(s + init, x, cap); }
        Last((s + init) + [x], cap);
        { assert (s + init) + [x] == s + xs; }
        Last(s + xs, cap);
      }
    }
  }

  /** `reduce((a, b) => a + b, 0)`: adds from the left. */
  function Sum(xs: seq<real>): real
  {
    if xs == [] then 0.0 else Sum(xs[..|xs| - 1]) + xs[|xs| - 1]
  }

  /** The arithmetic mean of a non-empty batch. */
  function Mean(xs: seq<real>): (r: real)
    requires |xs| > 0
  {
    Sum(xs) / (|xs| as real)
  }

  /** `calculateAverage` (client/js/utils.js): 0 for an empty array, the mean otherwise. */
  function Average(xs: seq<real>): real
  {
    if |xs| == 0 then 0.0 else Mean(xs)
  }

  lemma {:induction false} SumBounds(xs: seq<real>, lo: real, hi: real)
    requires forall i :: 0 <= i < |xs| ==> lo <= xs[i] <= hi
    ensures (|xs| as real) * lo <= Sum(xs) <= (|xs| as real) * hi
  {
    if xs != [] {
      SumBounds(xs[..|xs| - 1], lo, hi);
    }
  }

  /** The mean of a batch lies between any bounds of its values. */
  lemma MeanWithin(xs: seq<real>, lo: real, hi: real)
    requires |xs| > 0
    requires forall i :: 0 <= i < |xs| ==> lo <= xs[i] <= hi
    ensures lo <= Mean(xs) <= hi
  {
    SumBounds(xs, lo, hi);
    var n := |xs| as real;
    assert lo == (lo * n) / n && hi == (hi * n) / n;
  }

  /** The mean of one value is that value. */
  lemma MeanOfOne(x: real)
    ensures Mean([x]) == x
  {
    assert [x][..0] == [];
    assert Sum([x]) == x;
  }
}
