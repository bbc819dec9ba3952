/** Alarm classification of the monitor: the run-gated rules of the history
    table and dashboard (client/js/ui.js), and the ungated rule applied to
    generated backlog (client/js/main.js). */
module Alarms {
  import opened Telemetry
  import opened Config
  import opened Bounded
  import Acquisition

  datatype Kind = Volt | Amp

  /** The arguments of one `onAlarm` / `addAlarmLog` / `addRecentAlarm` call. */
  datatype AlarmEvent = AlarmEvent(time: JsString, kind: Kind, channel: nat, value: real, std: real)

  function Abs(x: real): real
  {
    if x < 0.0 then -x else x
  }

  /** Voltage: a symmetric band around the standard. */
  predicate OutOfBand(value: real, std: real)
  {
    Abs(value - std) > ALARM_TOLERANCE
  }

  /** Amperage: overload only. */
  predicate Overload(value: real, std: real)
  {
    value > std + ALARM_TOLERANCE
  }

  /** The rule in force: the live one, gated on the machine running, or the
      backlog one, which ignores the mode and uses the band for both kinds. */
  datatype Rule = Live(running: bool) | Backlog

  predicate Breach(rule: Rule, kind: Kind, value: real, std: real)
  {
    match rule
    case Live(running) => running && (if kind == Volt then OutOfBand(value, std) else Overload(value, std))
    case Backlog => OutOfBand(value, std)
  }

  /** The alarms of one kind over a row of channel values, channels numbered
      from 1, in channel order. */
  function Events(rule: Rule, time: JsString, kind: Kind, values: seq<real>, std: real): seq<AlarmEvent>
  {
    if values == [] then []
    else
      var n := |values|;
      Events(rule, time, kind, values[..n - 1], std)
      + (if Breach(rule, kind, values[n - 1], std) then [AlarmEvent(time, kind, n, values[n - 1], std)] else [])
  }

  /** Every alarm over a row names a channel of the row, numbered from 1,
      with that channel's value, the standard and the time, and that value
      breaches the rule. */
  lemma {:induction false} EventsSound(rule: Rule, time: JsString, kind: Kind, values: seq<real>, std: real)
    ensures forall e :: e in Events(rule, time, kind, values, std) ==>
              && e.time == time && e.kind == kind && e.std == std
              && 1 <= e.channel <= |values|
              && e.value == values[e.channel - 1]
              && Breach(rule, kind, e.value, std)
  {
    if values != [] {
      var n := |values|;
      var init := values[..n - 1];
      EventsSound(rule, time, kind, init, std);
      var prev := Events(rule, time, kind, init, std);
      assert forall e :: e in prev ==> e.value == values[e.channel - 1];
    }
  }

  /** Every breaching channel of a row has its alarm. */
  lemma {:induction false} EventsComplete(rule: Rule, time: JsString, kind: Kind, values: seq<real>, std: real)
    ensures forall i :: 0 <= i < |values| && Breach(rule, kind, values[i], std) ==>
              AlarmEvent(time, kind, i + 1, values[i], std) in Events(rule, time, kind, values, std)
  {
    if values != [] {
      var n := |values|;
      var init := values[..n - 1];
      EventsComplete(rule, time, kind, init, std);
      forall i | 0 <= i < n - 1
        ensures values[i] == init[i]
      {
      }
    }
  }

  /** Alarms listed in strictly ascending channel order. */
  predicate Ascending(r: seq<AlarmEvent>)
  {
    forall i, j :: 0 <= i < j < |r| ==> r[i].channel < r[j].channel
  }

  /** The alarms over a row come in ascending channel order. */
  lemma {:induction false} EventsOrdered(rule: Rule, time: JsString, kind: Kind, values: seq<real>, std: real)
    ensures Ascending(Events(rule, time, kind, values, std))
  {
    if values != [] {
      var n := |values|;
      var init := values[..n - 1];
      EventsOrdered(rule, time, kind, init, std);
      EventsSound(rule, time, kind, init, std);
      var prev := Events(rule, time, kind, init, std);
      var last := if Breach(rule, kind, values[n - 1], std) then [AlarmEvent(time, kind, n, values[n - 1], std)] else [];
      var r := Events(rule, time, kind, values, std);
      assert r == prev + last;
      forall i, j | 0 <= i < j < |r|
        ensures r[i].channel < r[j].channel
      {
        if j < |prev| {
          assert r[i] == prev[i] && r[j] == prev[j];
        } else {
          assert |last| == 1 && i < |prev|;
          assert Breach(rule, kind, values[n - 1], std);
          assert r[j] == AlarmEvent(time, kind, n, values[n - 1], std);
          assert r[i] == prev[i] && prev[i] in prev;
          assert r[i].channel <= |init| < n;
        }
      }
    }
  }

  /** The `onAlarm` calls of `prependHistoryRow`: voltage channels, then
      amperage channels, each live rule gated on `mc.mode`. */
  function RowEvents(time: JsString, volts: seq<real>, amps: seq<real>, mc: Reading): seq<AlarmEvent>
  {
    var rule := Live(mc.mode == Run);
    Events(rule, time, Volt, volts, mc.stdV) + Events(rule, time, Amp, amps, mc.stdA)
  }

  /** The alarms `openMonitor` and `openDashboardAlarm` derive from one backlog row. */
  function BacklogEvents(row: BacklogRow, mc: Reading): seq<AlarmEvent>
  {
    Events(Backlog, row.time, Volt, row.volts, mc.stdV) + Events(Backlog, row.time, Amp, row.amps, mc.stdA)
  }

  /** The backlog alarms of several rows, row after row. */
  function BacklogEventsAll(rows: seq<BacklogRow>, mc: Reading): seq<AlarmEvent>
  {
    if rows == [] then [] else BacklogEventsAll(rows[..|rows| - 1], mc) + BacklogEvents(rows[|rows| - 1], mc)
  }

  /** A stopped machine raises no live alarm, whatever its readings. */
  lemma StoppedRaisesNothing(time: JsString, volts: seq<real>, amps: seq<real>, mc: Reading)
    requires mc.mode != Run
    ensures RowEvents(time, volts, amps, mc) == []
  {
    NothingWhenStopped(time, Volt, volts, mc.stdV);
    NothingWhenStopped(time, Amp, amps, mc.stdA);
  }

  lemma {:induction false} NothingWhenStopped(time: JsString, kind: Kind, values: seq<real>, std: real)
    ensures Events(Live(false), time, kind, values, std) == []
  {
    if values != [] {
      NothingWhenStopped(time, kind, values[..|values| - 1], std);
    }
  }

  /** A voltage channel alarms exactly when the machine runs and the reading
      leaves the band around the standard. */
  lemma VoltAlarmIff(time: JsString, volts: seq<real>, amps: seq<real>, mc: Reading, i: nat)
    requires i < |volts|
    ensures AlarmEvent(time, Volt, i + 1, volts[i], mc.stdV) in RowEvents(time, volts, amps, mc)
            <==> mc.mode == Run && Abs(volts[i] - mc.stdV) > ALARM_TOLERANCE
  {
    var rule := Live(mc.mode == Run);
    EventsSound(rule, time, Volt, volts, mc.stdV);
    EventsComplete(rule, time, Volt, volts, mc.stdV);
    EventsSound(rule, time, Amp, amps, mc.stdA);
  }

  /** An amperage channel alarms exactly when the machine runs and the reading
      exceeds the standard plus the tolerance; under-current never alarms. */
  lemma AmpAlarmIff(time: JsString, volts: seq<real>, amps: seq<real>, mc: Reading, i: nat)
    requires i < |amps|
    ensures AlarmEvent(time, Amp, i + 1, amps[i], mc.stdA) in RowEvents(time, volts, amps, mc)
            <==> mc.mode == Run && amps[i] > mc.stdA + ALARM_TOLERANCE
  {
    var rule := Live(mc.mode == Run);
    EventsSound(rule, time, Amp, amps, mc.stdA);
    EventsComplete(rule, time, Amp, amps, mc.stdA);
    EventsSound(rule, time, Volt, volts, mc.stdV);
  }

  /** Every live alarm is an out-of-band voltage or an amperage overload of a
      running machine, and names a 1-based channel that holds its value. */
  lemma RowEventsSound(time: JsString, volts: seq<real>, amps: seq<real>, mc: Reading)
    ensures forall e :: e in RowEvents(time, volts, amps, mc) ==>
              && mc.mode == Run && e.time == time
              && (e.kind == Volt ==> 1 <= e.channel <= |volts| && e.value == volts[e.channel - 1]
                                     && e.std == mc.stdV && Abs(e.value - e.std) > ALARM_TOLERANCE)
              && (e.kind == Amp ==> 1 <= e.channel <= |amps| && e.value == amps[e.channel - 1]
                                    && e.std == mc.stdA && e.value > e.std + ALARM_TOLERANCE)
  {
    var rule := Live(mc.mode == Run);
    EventsSound(rule, time, Volt, volts, mc.stdV);
    EventsSound(rule, time, Amp, amps, mc.stdA);
  }

  /** Voltage alarms come first, then amperage alarms, each in channel order. */
  lemma RowEventsOrder(time: JsString, volts: seq<real>, amps: seq<real>, mc: Reading)
    ensures var r := RowEvents(time, volts, amps, mc);
            forall i, j :: 0 <= i < j < |r| ==>
              && (r[i].kind == Amp ==> r[j].kind == Amp)
              && (r[i].kind == r[j].kind ==> r[i].channel < r[j].channel)
  {
    var rule := Live(mc.mode == Run);
    var v := Events(rule, time, Volt, volts, mc.stdV);
    var a := Events(rule, time, Amp, amps, mc.stdA);
    var r := v + a;
    EventsSound(rule, time, Volt, volts, mc.stdV);
    EventsSound(rule, time, Amp, amps, mc.stdA);
    EventsOrdered(rule, time, Volt, volts, mc.stdV);
    EventsOrdered(rule, time, Amp, amps, mc.stdA);
    forall i, j | 0 <= i < j < |r|
      ensures (r[i].kind == Amp ==> r[j].kind == Amp) && (r[i].kind == r[j].kind ==> r[i].channel < r[j].channel)
    {
      if j < |v| {
        assert r[i] == v[i] && r[j] == v[j] && v[i] in v && v[j] in v;
      } else if i < |v| {
        assert r[i] == v[i] && v[i] in v;
        assert r[j] == a[j - |v|] && a[j - |v|] in a;
      } else {
        assert r[i] == a[i - |v|] && r[j] == a[j - |v|];
        assert a[i - |v|] in a && a[j - |v|] in a;
      }
    }
  }

  /** The backlog rule raises an amperage alarm for under-current, where
      the live rule never does, whether the machine runs or not: any
      amperage channel more than ALARM_TOLERANCE below the standard has its
      backlog alarm and no live alarm. */
  lemma BacklogDiffersFromLive(row: BacklogRow, mc: Reading, i: nat)
    requires i < |row.amps| && row.amps[i] < mc.stdA - ALARM_TOLERANCE
    ensures AlarmEvent(row.time, Amp, i + 1, row.amps[i], mc.stdA) in BacklogEvents(row, mc)
    ensures forall e :: e in RowEvents(row.time, row.volts, row.amps, mc) ==> !(e.kind == Amp && e.channel == i + 1)
  {
    EventsComplete(Backlog, row.time, Amp, row.amps, mc.stdA);
    EventsSound(Live(mc.mode == Run), row.time, Volt, row.volts, mc.stdV);
    EventsSound(Live(mc.mode == Run), row.time, Amp, row.amps, mc.stdA);
  }

  /** The dashboard card's two flags (`isAlarmV`, `isAlarmA`), on the averages. */
  function CardFlags(mc: Reading): (f: (bool, bool))
    ensures f.0 <==> mc.mode == Run && Abs(mc.currentV - mc.stdV) > ALARM_TOLERANCE
    ensures f.1 <==> mc.mode == Run && mc.currentA > mc.stdA + ALARM_TOLERANCE
  {
    var rule := Live(mc.mode == Run);
    (Breach(rule, Volt, mc.currentV, mc.stdV), Breach(rule, Amp, mc.currentA, mc.stdA))
  }

  /** A card whose averages are the means of its channels is not flagged when
      no channel of that kind alarms: an average cannot leave a band (or pass
      a ceiling) that every channel respects. */
  lemma QuietChannelsQuietCard(time: JsString, mc: Reading)
    requires |mc.volts| > 0 && |mc.amps| > 0
    requires mc.currentV == Mean(mc.volts) && mc.currentA == Mean(mc.amps)
    requires RowEvents(time, mc.volts, mc.amps, mc) == []
    ensures CardFlags(mc) == (false, false)
  {
    if mc.mode == Run {
      forall i | 0 <= i < |mc.volts|
        ensures mc.stdV - ALARM_TOLERANCE <= mc.volts[i] <= mc.stdV + ALARM_TOLERANCE
      {
        VoltAlarmIff(time, mc.volts, mc.amps, mc, i);
      }
      forall i | 0 <= i < |mc.amps|
        ensures mc.amps[i] <= mc.stdA + ALARM_TOLERANCE
      {
        AmpAlarmIff(time, mc.volts, mc.amps, mc, i);
      }
      MeanWithin(mc.volts, mc.stdV - ALARM_TOLERANCE, mc.stdV + ALARM_TOLERANCE);
      AmpMeanCeiling(mc.amps, mc.stdA + ALARM_TOLERANCE);
    }
  }

  lemma AmpMeanCeiling(xs: seq<real>, hi: real)
    requires |xs| > 0
    requires forall i :: 0 <= i < |xs| ==> xs[i] <= hi
    ensures Mean(xs) <= hi
  {
    MeanWithin(xs, MinOf(xs), hi);
  }

  function MinOf(xs: seq<real>): (m: real)
    requires |xs| > 0
    ensures forall i :: 0 <= i < |xs| ==> m <= xs[i]
  {
    if |xs| == 1 then xs[0]
    else
      var m := MinOf(xs[1..]);
      assert forall i :: 1 <= i < |xs| ==> xs[i] == xs[1..][i - 1];
      if xs[0] < m then xs[0] else m
  }

  /** Alarm classification in the store's units: a channel of a running
      machine is out of band exactly when its register value differs from the
      standard's by more than 50 hundredths. */
  lemma HundredthsBand(m: Acquisition.Machine, i: nat)
    requires i < |m.volts|
    ensures var r := Acquisition.ToReading(m);
            Breach(Live(r.mode == Run), Volt, r.volts[i], r.stdV)
            <==> m.mode == Run && (m.volts[i] - m.stdV > 50 || m.stdV - m.volts[i] > 50)
  {
    var r := Acquisition.ToReading(m);
    assert (r.volts[i] - r.stdV) * 100.0 == (m.volts[i] - m.stdV) as real;
  }
}
