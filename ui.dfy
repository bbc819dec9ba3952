/** The page the monitor draws into (client/js/ui.js): the history table, the
    alarm log with its badge, the recent-alarms table, the dashboard grids and
    which of the two views is visible. Table rows are kept as values, newest
    first, exactly as the `tbody` elements order them. */
module Ui {
  import opened Telemetry
  import opened Config
  import opened Bounded
  import opened Alarms

  /** One value cell of the history table; `alarm` is the red highlight. */
  datatype Cell = Cell(value: real, alarm: bool)

  /** One `<tr>` of the history table. */
  datatype HistoryRow = HistoryRow(time: JsString, volts: seq<Cell>, amps: seq<Cell>)

  /** One machine card of the dashboard. */
  datatype Card = Card(id: int, name: string, lot: JsString, running: bool, alarmV: bool, alarmA: bool)

  /** The two views `toggleView` switches between. */
  datatype View = DashboardView | MonitorView

  /** Everything a `Page` shows, as one value. */
  datatype PageState = PageState(
    history: seq<HistoryRow>, alarmLog: seq<AlarmEvent>, recentAlarms: seq<AlarmEvent>,
    badge: nat, badgeShown: bool, view: View,
    formingGrid: seq<Card>, packingGrid: seq<Card>, qcGrid: seq<Card>)

  /** The departments that have a grid on the dashboard. */
  const FORMING: string := "forming"
  const PACKING: string := "packing"
  const QC: string := "qc"

  /** The cells `prependHistoryRow` renders for one quantity. */
  function Cells(rule: Rule, kind: Kind, values: seq<real>, std: real): (r: seq<Cell>)
    ensures |r| == |values|
    ensures forall i :: 0 <= i < |r| ==> r[i] == Cell(values[i], Breach(rule, kind, values[i], std))
  {
    if values == [] then []
    else
      var v := values[|values| - 1];
      Cells(rule, kind, values[..|values| - 1], std) + [Cell(v, Breach(rule, kind, v, std))]
  }

  /** The row `prependHistoryRow` builds: both quantities under the live rule. */
  function Row(time: JsString, volts: seq<real>, amps: seq<real>, mc: Reading): HistoryRow
  {
    var rule := Live(mc.mode == Run);
    HistoryRow(time, Cells(rule, Volt, volts, mc.stdV), Cells(rule, Amp, amps, mc.stdA))
  }

  /** The rows `fillHistoryTable` renders for a backlog, in backlog order. */
  function Rows(data: seq<BacklogRow>, mc: Reading): (r: seq<HistoryRow>)
    ensures |r| == |data|
    ensures forall i :: 0 <= i < |data| ==> r[i] == Row(data[i].time, data[i].volts, data[i].amps, mc)
  {
    seq(|data|, i requires 0 <= i < |data| => Row(data[i].time, data[i].volts, data[i].amps, mc))
  }

  /** A cell is highlighted exactly when its channel raised an alarm. */
  lemma HighlightIffAlarm(time: JsString, volts: seq<real>, amps: seq<real>, mc: Reading)
    ensures var row := Row(time, volts, amps, mc);
            var alarms := RowEvents(time, volts, amps, mc);
            && (forall i :: 0 <= i < |volts| ==>
                  (row.volts[i].alarm <==> AlarmEvent(time, Volt, i + 1, volts[i], mc.stdV) in alarms))
            && (forall i :: 0 <= i < |amps| ==>
                  (row.amps[i].alarm <==> AlarmEvent(time, Amp, i + 1, amps[i], mc.stdA) in alarms))
  {
    var rule := Live(mc.mode == Run);
    var ev := Events(rule, time, Volt, volts, mc.stdV);
    var ea := Events(rule, time, Amp, amps, mc.stdA);
    forall i | 0 <= i < |volts|
      ensures Breach(rule, Volt, volts[i], mc.stdV) <==> AlarmEvent(time, Volt, i + 1, volts[i], mc.stdV) in ev + ea
    {
      ChannelIff(rule, time, Volt, volts, mc.stdV, i);
      NotOfKind(rule, time, Amp, amps, mc.stdA, AlarmEvent(time, Volt, i + 1, volts[i], mc.stdV));
    }
    forall i | 0 <= i < |amps|
      ensures Breach(rule, Amp, amps[i], mc.stdA) <==> AlarmEvent(time, Amp, i + 1, amps[i], mc.stdA) in ev + ea
    {
      ChannelIff(rule, time, Amp, amps, mc.stdA, i);
      NotOfKind(rule, time, Volt, volts, mc.stdV, AlarmEvent(time, Amp, i + 1, amps[i], mc.stdA));
    }
  }

  /** A channel raises an alarm exactly when its value breaches the rule. */
  lemma ChannelIff(rule: Rule, time: JsString, kind: Kind, values: seq<real>, std: real, i: nat)
    requires i < |values|
    ensures Breach(rule, kind, values[i], std) <==> AlarmEvent(time, kind, i + 1, values[i], std) in Events(rule, time, kind, values, std)
  {
    EventsSound(rule, time, kind, values, std);
    EventsComplete(rule, time, kind, values, std);
  }

  /** The alarms of one kind hold no alarm of another kind. */
  lemma NotOfKind(rule: Rule, time: JsString, kind: Kind, values: seq<real>, std: real, e: AlarmEvent)
    requires e.kind != kind
    ensures e !in Events(rule, time, kind, values, std)
  {
    EventsSound(rule, time, kind, values, std);
  }

  /** The body of one `volts.map` / `amps.map` of `prependHistoryRow`: each
      channel becomes a cell, and each alarming channel calls `onAlarm`. */
  method ClassifyRow(rule: Rule, time: JsString, kind: Kind, values: seq<real>, std: real)
    returns (cells: seq<Cell>, alarms: seq<AlarmEvent>)
    ensures cells == Cells(rule, kind, values, std)
    ensures alarms == Events(rule, time, kind, values, std)
  {
    cells, alarms := [], [];
    for idx := 0 to |values|
      invariant cells == Cells(rule, kind, values[..idx], std)
      invariant alarms == Events(rule, time, kind, values[..idx], std)
    {
      var val := values[idx];
      var isAlarm := Breach(rule, kind, val, std);
      if isAlarm {
        alarms := alarms + [AlarmEvent(time, kind, idx + 1, val, std)];
      }
      cells := cells + [Cell(val, isAlarm)];
      assert values[..idx + 1][..idx] == values[..idx];
    }
    assert values[..|values|] == values;
  }

  /** The card `renderDashboardGrid` draws for one machine. */
  function CardOf(mc: Reading): (c: Card)
    ensures c.id == mc.id && c.running == (mc.mode == Run)
    ensures c.alarmV <==> mc.mode == Run && OutOfBand(mc.currentV, mc.stdV)
    ensures c.alarmA <==> mc.mode == Run && Overload(mc.currentA, mc.stdA)
  {
    var flags := CardFlags(mc);
    Card(mc.id, mc.name, mc.lot, mc.mode == Run, flags.0, flags.1)
  }

  /** The red border and the ALARM button of a card. */
  predicate Alarmed(c: Card)
  {
    c.alarmV || c.alarmA
  }

  /** The cards of one department's grid, in the order of the machine list. */
  function Cards(machines: seq<Reading>, department: string): seq<Card>
  {
    if machines == [] then []
    else
      var mc := machines[|machines| - 1];
      Cards(machines[..|machines| - 1], department) + (if mc.department == department then [CardOf(mc)] else [])
  }

  /** Every card of a grid is the card of a machine of that department. */
  lemma {:induction false} CardsSound(machines: seq<Reading>, department: string)
    ensures forall c :: c in Cards(machines, department) ==>
              exists i :: 0 <= i < |machines| && machines[i].department == department && c == CardOf(machines[i])
  {
    if machines != [] {
      var init := machines[..|machines| - 1];
      CardsSound(init, department);
      forall c | c in Cards(machines, department)
        ensures exists i :: 0 <= i < |machines| && machines[i].department == department && c == CardOf(machines[i])
      {
        if c in Cards(init, department) {
          var i :| 0 <= i < |init| && init[i].department == department && c == CardOf(init[i]);
          assert machines[i] == init[i];
        } else {
          assert c == CardOf(machines[|machines| - 1]);
        }
      }
    }
  }

  /** Every machine of a department has its card in that department's grid. */
  lemma {:induction false} CardsComplete(machines: seq<Reading>, department: string)
    ensures forall i :: 0 <= i < |machines| && machines[i].department == department ==>
              CardOf(machines[i]) in Cards(machines, department)
  {
    if machines != [] {
      var init := machines[..|machines| - 1];
      CardsComplete(init, department);
      forall i | 0 <= i < |machines| && machines[i].department == department
        ensures CardOf(machines[i]) in Cards(machines, department)
      {
        if i < |init| {
          assert machines[i] == init[i];
        }
      }
    }
  }

  /** A card has the red border and the ALARM button exactly when its
      machine runs and its average voltage is out of band or its average
      amperage is over the standard; a stopped machine's card never has them. */
  lemma CardAlarmed(mc: Reading)
    ensures Alarmed(CardOf(mc)) <==>
              mc.mode == Run && (OutOfBand(mc.currentV, mc.stdV) || Overload(mc.currentA, mc.stdA))
    ensures mc.mode != Run ==> !Alarmed(CardOf(mc))
  {
  }

  /** A department's grid shows an alarmed card exactly when one of the
      department's machines runs with an average out of its rule. */
  lemma GridShowsAlarm(machines: seq<Reading>, department: string)
    ensures (exists c :: c in Cards(machines, department) && Alarmed(c)) <==>
            (exists i :: 0 <= i < |machines| && machines[i].department == department && machines[i].mode == Run
                         && (OutOfBand(machines[i].currentV, machines[i].stdV) || Overload(machines[i].currentA, machines[i].stdA)))
  {
    CardsSound(machines, department);
    CardsComplete(machines, department);
    if exists c :: c in Cards(machines, department) && Alarmed(c) {
      var c :| c in Cards(machines, department) && Alarmed(c);
      var i :| 0 <= i < |machines| && machines[i].department == department && c == CardOf(machines[i]);
      CardAlarmed(machines[i]);
    }
    if exists i :: 0 <= i < |machines| && machines[i].department == department && machines[i].mode == Run
                   && (OutOfBand(machines[i].currentV, machines[i].stdV) || Overload(machines[i].currentA, machines[i].stdA)) {
      var i :| 0 <= i < |machines| && machines[i].department == department && machines[i].mode == Run
               && (OutOfBand(machines[i].currentV, machines[i].stdV) || Overload(machines[i].currentA, machines[i].stdA));
      CardAlarmed(machines[i]);
      assert CardOf(machines[i]) in Cards(machines, department);
    }
  }

  /** Prepending the rows of a backlog one by one to an empty table of
      HISTORY_ROWS rows leaves the newest rows, newest on top. */
  lemma NewestRowsOnTop(data: seq<BacklogRow>, mc: Reading)
    ensures var t := PushFrontAll([], Rows(data, mc), HISTORY_ROWS);
            && t == Take(Reverse(Rows(data, mc)), HISTORY_ROWS)
            && |t| == (if |data| < HISTORY_ROWS then |data| else HISTORY_ROWS)
            && forall i :: 0 <= i < |t| ==>
                 t[i] == Row(data[|data| - 1 - i].time, data[|data| - 1 - i].volts, data[|data| - 1 - i].amps, mc)
  {
    var rows := Rows(data, mc);
    PushFrontAllKeepsNewest([], rows, HISTORY_ROWS);
    assert Reverse(rows) + [] == Reverse(rows);
    NewestFirst(rows, HISTORY_ROWS);
    var t := Take(Reverse(rows), HISTORY_ROWS);
    forall i | 0 <= i < |t|
      ensures t[i] == Row(data[|data| - 1 - i].time, data[|data| - 1 - i].volts, data[|data| - 1 - i].amps, mc)
    {
      assert t[i] == rows[|rows| - 1 - i];
    }
  }

  /** The DOM of the page, as far as the monitor's logic reads and writes it. */
  class Page {
    /** `historyBody`, newest row first. */
    var history: seq<HistoryRow>
    /** `alarmBody`, newest entry first. */
    var alarmLog: seq<AlarmEvent>
    /** `recent-alarms-body`, newest entry first. */
    var recentAlarms: seq<AlarmEvent>
    /** The number in `alarmBadge`, and whether the badge is displayed. */
    var badge: nat
    var badgeShown: bool
    var view: View
    /** `grid-forming`, `grid-packing`, `grid-qc`. */
    var formingGrid: seq<Card>
    var packingGrid: seq<Card>
    var qcGrid: seq<Card>

    /** The bounded tables stay within their limits. */
    predicate Valid()
      reads this
    {
      |history| <= HISTORY_ROWS && |recentAlarms| <= RECENT_ALARMS
    }

    function State(): PageState
      reads this
    {
      PageState(history, alarmLog, recentAlarms, badge, badgeShown, view, formingGrid, packingGrid, qcGrid)
    }

    constructor ()
      ensures Valid()
      ensures history == [] && alarmLog == [] && recentAlarms == []
      ensures badge == 0 && !badgeShown && view == DashboardView
      ensures formingGrid == [] && packingGrid == [] && qcGrid == []
    {
      history, alarmLog, recentAlarms := [], [], [];
      badge, badgeShown := 0, false;
      view := DashboardView;
      formingGrid, packingGrid, qcGrid := [], [], [];
    }

    /** `toggleView`: hide both views, then show the dashboard for
        "dashboard" and the monitor for any other name. */
    method ToggleView(viewName: string)
      modifies this
      ensures view == (if viewName == "dashboard" then DashboardView else MonitorView)
      ensures history == old(history) && alarmLog == old(alarmLog) && recentAlarms == old(recentAlarms)
      ensures badge == old(badge) && badgeShown == old(badgeShown)
      ensures formingGrid == old(formingGrid) && packingGrid == old(packingGrid) && qcGrid == old(qcGrid)
    {
      if viewName == "dashboard" {
        view := DashboardView;
      } else {
        view := MonitorView;
      }
    }

    /** `renderDashboardGrid`: empty the three grids, then append each
        machine's card to its department's grid; machines of any other
        department are not drawn. */
    method RenderDashboardGrid(machines: seq<Reading>)
      modifies this
      ensures formingGrid == Cards(machines, FORMING)
      ensures packingGrid == Cards(machines, PACKING)
      ensures qcGrid == Cards(machines, QC)
      ensures history == old(history) && alarmLog == old(alarmLog) && recentAlarms == old(recentAlarms)
      ensures badge == old(badge) && badgeShown == old(badgeShown) && view == old(view)
    {
      formingGrid, packingGrid, qcGrid := [], [], [];
      for k := 0 to |machines|
        invariant formingGrid == Cards(machines[..k], FORMING)
        invariant packingGrid == Cards(machines[..k], PACKING)
        invariant qcGrid == Cards(machines[..k], QC)
        invariant history == old(history) && alarmLog == old(alarmLog) && recentAlarms == old(recentAlarms)
        invariant badge == old(badge) && badgeShown == old(badgeShown) && view == old(view)
      {
        var mc := machines[k];
        assert machines[..k + 1][..k] == machines[..k];
        if mc.department == FORMING {
          formingGrid := formingGrid + [CardOf(mc)];
        } else if mc.department == PACKING {
          packingGrid := packingGrid + [CardOf(mc)];
        } else if mc.department == QC {
          qcGrid := qcGrid + [CardOf(mc)];
        }
      }
      assert machines[..|machines|] == machines;
    }

    /** `prependHistoryRow`: the new row goes on top and the table keeps
        HISTORY_ROWS rows; the alarms handed to `onAlarm` are returned, in
        call order. */
    method PrependHistoryRow(time: JsString, volts: seq<real>, amps: seq<real>, mc: Reading)
      returns (alarms: seq<AlarmEvent>)
      requires Valid()
      modifies this
      ensures Valid()
      ensures alarms == RowEvents(time, volts, amps, mc)
      ensures history == PushFront(Row(time, volts, amps, mc), old(history), HISTORY_ROWS)
      ensures alarmLog == old(alarmLog) && recentAlarms == old(recentAlarms)
      ensures badge == old(badge) && badgeShown == old(badgeShown) && view == old(view)
      ensures formingGrid == old(formingGrid) && packingGrid == old(packingGrid) && qcGrid == old(qcGrid)
    {
      var rule := Live(mc.mode == Run);
      var voltCells, voltAlarms := ClassifyRow(rule, time, Volt, volts, mc.stdV);
      var ampCells, ampAlarms := ClassifyRow(rule, time, Amp, amps, mc.stdA);
      alarms := voltAlarms + ampAlarms;
      history := PushFront(HistoryRow(time, voltCells, ampCells), history, HISTORY_ROWS);
    }

    /** `fillHistoryTable`: empty the table, then prepend every backlog row
        in order with no alarm callback, so the newest HISTORY_ROWS rows are
        shown, newest on top. */
    method FillHistoryTable(data: seq<BacklogRow>, mc: Reading)
      requires Valid()
      modifies this
      ensures Valid()
      ensures history == Take(Reverse(Rows(data, mc)), HISTORY_ROWS)
      ensures |history| == if |data| < HISTORY_ROWS then |data| else HISTORY_ROWS
      ensures forall i :: 0 <= i < |history| ==>
                history[i] == Row(data[|data| - 1 - i].time, data[|data| - 1 - i].volts, data[|data| - 1 - i].amps, mc)
      ensures alarmLog == old(alarmLog) && recentAlarms == old(recentAlarms)
      ensures badge == old(badge) && badgeShown == old(badgeShown) && view == old(view)
      ensures formingGrid == old(formingGrid) && packingGrid == old(packingGrid) && qcGrid == old(qcGrid)
    {
      history := [];
      for k := 0 to |data|
        invariant Valid()
        invariant history == PushFrontAll([], Rows(data[..k], mc), HISTORY_ROWS)
        invariant alarmLog == old(alarmLog) && recentAlarms == old(recentAlarms)
        invariant badge == old(badge) && badgeShown == old(badgeShown) && view == old(view)
        invariant formingGrid == old(formingGrid) && packingGrid == old(packingGrid) && qcGrid == old(qcGrid)
      {
        var row := data[k];
        var _ := PrependHistoryRow(row.time, row.volts, row.amps, mc);
        assert Rows(data[..k + 1], mc) == Rows(data[..k], mc) + [Row(row.time, row.volts, row.amps, mc)];
      }
      assert data[..|data|] == data;
      NewestRowsOnTop(data, mc);
    }

    /** `addAlarmLog`: the badge counts one more and is displayed, and the
        entry goes on top of the (unbounded) alarm log. */
    method AddAlarmLog(e: AlarmEvent)
      modifies this
      ensures badge == old(badge) + 1 && badgeShown
      ensures alarmLog == [e] + old(alarmLog)
      ensures history == old(history) && recentAlarms == old(recentAlarms) && view == old(view)
      ensures formingGrid == old(formingGrid) && packingGrid == old(packingGrid) && qcGrid == old(qcGrid)
    {
      badge := badge + 1;
      badgeShown := true;
      alarmLog := [e] + alarmLog;
    }

    /** `addRecentAlarm`: the entry goes on top and the table keeps
        RECENT_ALARMS rows. */
    method AddRecentAlarm(e: AlarmEvent)
      requires Valid()
      modifies this
      ensures Valid()
      ensures recentAlarms == PushFront(e, old(recentAlarms), RECENT_ALARMS)
      ensures history == old(history) && alarmLog == old(alarmLog) && view == old(view)
      ensures badge == old(badge) && badgeShown == old(badgeShown)
      ensures formingGrid == old(formingGrid) && packingGrid == old(packingGrid) && qcGrid == old(qcGrid)
    {
      recentAlarms := PushFront(e, recentAlarms, RECENT_ALARMS);
    }

    /** `historyBody.innerHTML = ''`, and likewise for the two alarm tables. */
    method ClearHistory()
      modifies this
      ensures history == [] && alarmLog == old(alarmLog) && recentAlarms == old(recentAlarms)
      ensures badge == old(badge) && badgeShown == old(badgeShown) && view == old(view)
      ensures formingGrid == old(formingGrid) && packingGrid == old(packingGrid) && qcGrid == old(qcGrid)
    {
      history := [];
    }

    method ClearAlarmLog()
      modifies this
      ensures alarmLog == [] && history == old(history) && recentAlarms == old(recentAlarms)
      ensures badge == old(badge) && badgeShown == old(badgeShown) && view == old(view)
      ensures formingGrid == old(formingGrid) && packingGrid == old(packingGrid) && qcGrid == old(qcGrid)
    {
      alarmLog := [];
    }

    method ClearRecentAlarms()
      modifies this
      ensures recentAlarms == [] && history == old(history) && alarmLog == old(alarmLog)
      ensures badge == old(badge) && badgeShown == old(badgeShown) && view == old(view)
      ensures formingGrid == old(formingGrid) && packingGrid == old(packingGrid) && qcGrid == old(qcGrid)
    {
      recentAlarms := [];
    }

    /** The badge set to "0" and hidden. */
    method ResetBadge()
      modifies this
      ensures badge == 0 && !badgeShown
      ensures history == old(history) && alarmLog == old(alarmLog) && recentAlarms == old(recentAlarms)
      ensures view == old(view)
      ensures formingGrid == old(formingGrid) && packingGrid == old(packingGrid) && qcGrid == old(qcGrid)
    {
      badge, badgeShown := 0, false;
    }
  }
}
