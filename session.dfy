/** The monitor's session logic (client/js/main.js): which machine is open,
    the last lot seen, the two polling timers, and the handlers that drive the
    page and the charts. Fetches, clocks and generated backlog are parameters:
    `fetched` is the open machine's record as the checked fetch
    `Api.FetchChecked` reads the live route (None for a failed request or a
    status other than 200), `backlog` the rows `generateHistoryData`
    produced. */
module Session {
  import opened Telemetry
  import opened Config
  import opened Bounded
  import opened Alarms
  import opened Charts
  import opened Ui
  import Api

  /** `!currentMachineId` is false: an id is set and is not 0. */
  predicate Active(id: Option<int>)
  {
    id.Some? && id.value != 0
  }

  /** A tick starts a new lot when the lot changed to one that is not
      "LOT ENDED" while the machine runs. */
  predicate StartsNewLot(lastLot: JsString, mc: Reading)
  {
    mc.lot != lastLot && mc.lot != LOT_ENDED && mc.mode == Run
  }

  /** `historyData.map(h => calculateAverage(h.volts))`, and for amperes. */
  function VoltAverages(rows: seq<BacklogRow>): (r: seq<real>)
    ensures |r| == |rows| && forall i :: 0 <= i < |rows| ==> r[i] == Average(rows[i].volts)
  {
    seq(|rows|, i requires 0 <= i < |rows| => Average(rows[i].volts))
  }

  function AmpAverages(rows: seq<BacklogRow>): (r: seq<real>)
    ensures |r| == |rows| && forall i :: 0 <= i < |rows| ==> r[i] == Average(rows[i].amps)
  {
    seq(|rows|, i requires 0 <= i < |rows| => Average(rows[i].amps))
  }

  /** Both chart series hold at most HISTORY_ROWS points. */
  predicate ChartsBounded(v: ChartsView)
  {
    v.Drawn? ==> |v.volt.data| <= HISTORY_ROWS && |v.amp.data| <= HISTORY_ROWS
  }

  /** `openMonitor` walks the backlog newest row first and each alarm goes
      on top of the recent-alarms table, so the entry left on top is the last
      alarm of the OLDEST backlog row. */
  lemma {:induction false} RecentTopIsOldestRow(backlog: seq<BacklogRow>, mc: Reading)
    requires backlog != [] && BacklogEvents(backlog[0], mc) != []
    ensures var top := PushFrontAll([], BacklogEventsAll(Reverse(backlog), mc), RECENT_ALARMS);
            var oldest := BacklogEvents(backlog[0], mc);
            top != [] && top[0] == oldest[|oldest| - 1] && top[0].time == backlog[0].time
  {
    var rs := Reverse(backlog);
    var n := |rs|;
    ReverseAt(backlog, n - 1);
    var oldest := BacklogEvents(backlog[0], mc);
    var earlier := BacklogEventsAll(rs[..n - 1], mc);
    var evs := BacklogEventsAll(rs, mc);
    assert evs == earlier + oldest;
    LastOfAppend(earlier, oldest);
    LastPushedOnTop([], evs, RECENT_ALARMS);
    BacklogEventTime(backlog[0], mc, oldest[|oldest| - 1]);
  }

  lemma BacklogEventTime(row: BacklogRow, mc: Reading, e: AlarmEvent)
    requires e in BacklogEvents(row, mc)
    ensures e.time == row.time
  {
    var ev := Events(Backlog, row.time, Volt, row.volts, mc.stdV);
    var ea := Events(Backlog, row.time, Amp, row.amps, mc.stdA);
    EventsSound(Backlog, row.time, Volt, row.volts, mc.stdV);
    EventsSound(Backlog, row.time, Amp, row.amps, mc.stdA);
    assert e in ev || e in ea;
  }

  /** With the HISTORY_ROWS rows `openMonitor` generates, the charts show
      exactly the backlog's averages, oldest first, still sharing the blank
      labels of `initCharts`. */
  lemma OpenedChartsShowBacklog(backlog: seq<BacklogRow>)
    requires |backlog| == HISTORY_ROWS
    ensures Update(Fresh(), Some(VoltAverages(backlog)), Some(AmpAverages(backlog)), None)
         == Drawn(Series(VoltAverages(backlog), Blanks(HISTORY_ROWS)),
                  Series(AmpAverages(backlog), Blanks(HISTORY_ROWS)), true)
  {
  }

  /** The page after one `onAlarm` call of `runMonitorLoop`: the alarm goes
      on top of the alarm log (the badge counts it) and of the recent alarms. */
  function AfterAlarm(st: PageState, e: AlarmEvent): PageState
  {
    st.(alarmLog := [e] + st.alarmLog,
        recentAlarms := PushFront(e, st.recentAlarms, RECENT_ALARMS),
        badge := st.badge + 1, badgeShown := true)
  }

  /** The page after `onAlarm` for each alarm, first to last. */
  function AfterAlarms(st: PageState, alarms: seq<AlarmEvent>): PageState
  {
    if alarms == [] then st else AfterAlarm(AfterAlarms(st, alarms[..|alarms| - 1]), alarms[|alarms| - 1])
  }

  /** After a row's alarms the log holds them newest first above the older
      entries, the badge counts every one and is shown once there was one,
      and the recent alarms keep the newest RECENT_ALARMS; nothing else
      changes. */
  lemma {:induction false} AfterAlarmsFields(st: PageState, alarms: seq<AlarmEvent>)
    ensures AfterAlarms(st, alarms) == st.(
              alarmLog := Reverse(alarms) + st.alarmLog,
              recentAlarms := PushFrontAll(st.recentAlarms, alarms, RECENT_ALARMS),
              badge := st.badge + |alarms|,
              badgeShown := st.badgeShown || alarms != [])
  {
    if alarms != [] {
      var init := alarms[..|alarms| - 1];
      var e := alarms[|alarms| - 1];
      var prev := AfterAlarms(st, init);
      AfterAlarmsFields(st, init);
      assert [e] + prev.alarmLog == Reverse(alarms) + st.alarmLog by {
        assert Reverse(alarms) == [e] + Reverse(init);
      }
      assert PushFront(e, prev.recentAlarms, RECENT_ALARMS) == PushFrontAll(st.recentAlarms, alarms, RECENT_ALARMS);
    }
  }

  /** The page after one `addAlarmLog` call: the entry goes on top of the
      alarm log and the badge counts it. */
  function AfterLog(st: PageState, e: AlarmEvent): PageState
  {
    st.(alarmLog := [e] + st.alarmLog, badge := st.badge + 1, badgeShown := true)
  }

  /** The page after `addAlarmLog` for each alarm, first to last. */
  function AfterLogs(st: PageState, alarms: seq<AlarmEvent>): PageState
  {
    if alarms == [] then st else AfterLog(AfterLogs(st, alarms[..|alarms| - 1]), alarms[|alarms| - 1])
  }

  /** After a batch of `addAlarmLog` calls the log holds the batch newest
      first above the older entries and the badge counts every one. */
  lemma {:induction false} AfterLogsFields(st: PageState, alarms: seq<AlarmEvent>)
    ensures AfterLogs(st, alarms) == st.(
              alarmLog := Reverse(alarms) + st.alarmLog,
              badge := st.badge + |alarms|,
              badgeShown := st.badgeShown || alarms != [])
  {
    if alarms != [] {
      var init := alarms[..|alarms| - 1];
      var e := alarms[|alarms| - 1];
      var prev := AfterLogs(st, init);
      AfterLogsFields(st, init);
      assert [e] + prev.alarmLog == Reverse(alarms) + st.alarmLog by {
        assert Reverse(alarms) == [e] + Reverse(init);
      }
    }
  }

  /** The tables after the lot check of a tick: a new lot clears the
      history and both alarm tables, and leaves the badge as it was. */
  function LotCheckedPage(st: PageState, reset: bool): PageState
  {
    if reset then st.(history := [], alarmLog := [], recentAlarms := []) else st
  }

  /** The tables after a tick's row: the row goes on top of the history and
      each of its alarms goes through `onAlarm`. */
  function TickedPage(st: PageState, mc: Reading, time: JsString): PageState
  {
    var alarms := RowEvents(time, mc.volts, mc.amps, mc);
    st.(history := PushFront(Row(time, mc.volts, mc.amps, mc), st.history, HISTORY_ROWS),
        alarmLog := Reverse(alarms) + st.alarmLog,
        recentAlarms := PushFrontAll(st.recentAlarms, alarms, RECENT_ALARMS),
        badge := st.badge + |alarms|,
        badgeShown := st.badgeShown || alarms != [])
  }

  /** A tick that starts a new lot leaves its row alone in the history, its
      alarms alone in the alarm log (newest first) and the newest
      RECENT_ALARMS of them in the recent alarms, while the badge goes on
      counting from the previous lot. */
  lemma NewLotTick(st: PageState, mc: Reading, time: JsString)
    ensures var alarms := RowEvents(time, mc.volts, mc.amps, mc);
            var t := TickedPage(LotCheckedPage(st, true), mc, time);
            && t.history == [Row(time, mc.volts, mc.amps, mc)]
            && t.alarmLog == Reverse(alarms)
            && t.recentAlarms == Take(Reverse(alarms), RECENT_ALARMS)
            && t.badge == st.badge + |alarms|
  {
    var alarms := RowEvents(time, mc.volts, mc.amps, mc);
    PushFrontAllKeepsNewest([], alarms, RECENT_ALARMS);
    assert Reverse(alarms) + [] == Reverse(alarms);
  }

  /** A tick within the same lot puts its row on top of the history, which
      keeps HISTORY_ROWS rows; its alarms go on top of the log, newest
      first; the recent alarms keep the newest RECENT_ALARMS entries. */
  lemma SameLotTick(st: PageState, mc: Reading, time: JsString)
    requires |st.history| <= HISTORY_ROWS && |st.recentAlarms| <= RECENT_ALARMS
    ensures var alarms := RowEvents(time, mc.volts, mc.amps, mc);
            var t := TickedPage(LotCheckedPage(st, false), mc, time);
            && 0 < |t.history| <= HISTORY_ROWS
            && t.history[0] == Row(time, mc.volts, mc.amps, mc)
            && t.history[1..] == st.history[..|t.history| - 1]
            && t.history == Take([Row(time, mc.volts, mc.amps, mc)] + st.history, HISTORY_ROWS)
            && t.alarmLog == Reverse(alarms) + st.alarmLog
            && t.recentAlarms == Take(Reverse(alarms) + st.recentAlarms, RECENT_ALARMS)
            && t.badge == st.badge + |alarms|
  {
    PushFrontAllKeepsNewest(st.recentAlarms, RowEvents(time, mc.volts, mc.amps, mc), RECENT_ALARMS);
  }

  /** The tables `openMonitor` fills from the backlog: the history shows its
      rows newest first, and its alarms go through `addRecentAlarm`, newest
      row first. */
  function LoadedPage(st: PageState, backlog: seq<BacklogRow>, mc: Reading): PageState
  {
    st.(history := Take(Reverse(Rows(backlog, mc)), HISTORY_ROWS),
        recentAlarms := PushFrontAll(st.recentAlarms, BacklogEventsAll(Reverse(backlog), mc), RECENT_ALARMS))
  }

  /** The module variables of main.js, as one value. */
  datatype SessionVars = SessionVars(
    currentMachineId: Option<int>, lastLotName: JsString, machinesCache: seq<Reading>,
    dashboardRunning: bool, monitorRunning: bool, alarmModalShown: bool)

  class MonitorSession {
    var currentMachineId: Option<int>
    var lastLotName: JsString
    /** `allMachinesCache`. */
    var machinesCache: seq<Reading>
    /** Whether `dashboardInterval` / `monitorInterval` is scheduled. */
    var dashboardRunning: bool
    var monitorRunning: bool
    var alarmModalShown: bool
    const page: Page
    const charts: ChartPanel

    function Vars(): SessionVars
      reads this
    {
      SessionVars(currentMachineId, lastLotName, machinesCache, dashboardRunning, monitorRunning, alarmModalShown)
    }

    /** The page's tables stay bounded, the badge counts at least the entries
        of the alarm log, and the chart series stay bounded. */
    ghost predicate Valid()
      reads page, charts, charts.Repr
    {
      && page.Valid() && charts.Valid()
      && page !in charts.Repr && this !in charts.Repr
      && |page.alarmLog| <= page.badge
      && ChartsBounded(charts.View())
    }

    constructor ()
      ensures Valid() && fresh(page) && fresh(charts.Repr)
      ensures Vars() == SessionVars(None, [], [], false, false, false)
      ensures page.State() == PageState([], [], [], 0, false, DashboardView, [], [], [])
      ensures charts.View() == Destroyed
    {
      currentMachineId := None;
      lastLotName := [];
      machinesCache := [];
      dashboardRunning, monitorRunning, alarmModalShown := false, false, false;
      page := new Page();
      charts := new ChartPanel();
    }

    /** `runDashboardLoop`, given the machine list the endpoint returned. */
    method RunDashboardLoop(machines: seq<Reading>)
      requires Valid()
      modifies this, page
      ensures Valid()
      ensures Vars() == old(Vars()).(machinesCache := machines)
      ensures page.State() == old(page.State()).(formingGrid := Cards(machines, FORMING),
                                                 packingGrid := Cards(machines, PACKING),
                                                 qcGrid := Cards(machines, QC))
      ensures charts.View() == old(charts.View())
    {
      machinesCache := machines;
      page.RenderDashboardGrid(machines);
    }

    /** `startDashboard`: one dashboard refresh, then the dashboard timer. */
    method StartDashboard(machines: seq<Reading>)
      requires Valid()
      modifies this, page
      ensures Valid()
      ensures Vars() == old(Vars()).(machinesCache := machines, dashboardRunning := true)
      ensures page.State() == old(page.State()).(formingGrid := Cards(machines, FORMING),
                                                 packingGrid := Cards(machines, PACKING),
                                                 qcGrid := Cards(machines, QC))
      ensures charts.View() == old(charts.View())
    {
      RunDashboardLoop(machines);
      dashboardRunning := true;
    }

    /** The first half of `openMonitor(id)`: stop the dashboard, remember
        the machine, clear the three tables and the badge, show the monitor. */
    method ShowMonitor(id: int)
      requires Valid()
      modifies this, page
      ensures Valid()
      ensures Vars() == old(Vars()).(dashboardRunning := false, currentMachineId := Some(id))
      ensures page.State() == old(page.State()).(history := [], alarmLog := [], recentAlarms := [],
                                                 badge := 0, badgeShown := false, view := MonitorView)
      ensures charts.View() == old(charts.View())
    {
      dashboardRunning := false;
      currentMachineId := Some(id);
      page.ClearHistory();
      page.ClearAlarmLog();
      page.ClearRecentAlarms();
      page.ResetBadge();
      page.ToggleView("monitor");
    }

    /** `addRecentAlarm` for each alarm, in order. */
    method AddRecentAlarms(alarms: seq<AlarmEvent>)
      requires page.Valid()
      modifies page
      ensures page.Valid()
      ensures page.State() == old(page.State()).(recentAlarms :=
                PushFrontAll(old(page.recentAlarms), alarms, RECENT_ALARMS))
    {
      for k := 0 to |alarms|
        invariant page.Valid()
        invariant page.State() == old(page.State()).(recentAlarms :=
                    PushFrontAll(old(page.recentAlarms), alarms[..k], RECENT_ALARMS))
      {
        assert alarms[..k + 1][..k] == alarms[..k];
        page.AddRecentAlarm(alarms[k]);
      }
      assert alarms[..|alarms|] == alarms;
    }

    /** `historyData.slice().reverse().forEach(...)` with `addRecentAlarm`:
        the backlog's alarms, newest row first, each row in channel order. */
    method RecentFromBacklog(backlog: seq<BacklogRow>, mc: Reading)
      requires page.Valid()
      modifies page
      ensures page.Valid()
      ensures page.State() == old(page.State()).(recentAlarms :=
                PushFrontAll(old(page.recentAlarms), BacklogEventsAll(Reverse(backlog), mc), RECENT_ALARMS))
    {
      ghost var start := page.State();
      var newestFirst := Reverse(backlog);
      for r := 0 to |newestFirst|
        invariant page.Valid()
        invariant page.recentAlarms ==
                    PushFrontAll(start.recentAlarms, BacklogEventsAll(newestFirst[..r], mc), RECENT_ALARMS)
        invariant page.State() == start.(recentAlarms := page.recentAlarms)
      {
        var alarms := BacklogEvents(newestFirst[r], mc);
        ghost var earlier := BacklogEventsAll(newestFirst[..r], mc);
        assert BacklogEventsAll(newestFirst[..r + 1], mc) == earlier + alarms by {
          assert newestFirst[..r + 1][..r] == newestFirst[..r];
        }
        AddRecentAlarms(alarms);
        PushFrontAllAppend(start.recentAlarms, earlier, alarms, RECENT_ALARMS);
      }
      assert newestFirst[..|newestFirst|] == newestFirst;
    }

    /** The table part of `openMonitor` for a machine that exists: the
        history shows the backlog and the recent alarms list its alarms. */
    method TablesFromBacklog(backlog: seq<BacklogRow>, mc: Reading)
      requires Valid()
      modifies page
      ensures Valid()
      ensures page.State() == LoadedPage(old(page.State()), backlog, mc)
    {
      page.FillHistoryTable(backlog, mc);
      RecentFromBacklog(backlog, mc);
    }

    /** The chart part of `openMonitor`: new charts, then the backlog's
        averages in one call. */
    method ChartsFromBacklog(backlog: seq<BacklogRow>)
      requires Valid()
      modifies charts.Repr
      ensures Valid() && fresh(charts.Repr - old(charts.Repr))
      ensures charts.View() == Update(Fresh(), Some(VoltAverages(backlog)), Some(AmpAverages(backlog)), None)
    {
      charts.InitCharts();
      charts.UpdateCharts(Some(VoltAverages(backlog)), Some(AmpAverages(backlog)), None);
      UpdateBounded(Fresh(), Some(VoltAverages(backlog)), Some(AmpAverages(backlog)), None);
    }

    /** `openMonitor(id)` on the response `res` of the live route, read
        through the checked fetch `Api.FetchChecked`: `ShowMonitor`; then,
        for a machine that exists,
        fill the history from the backlog, list the backlog's alarms in the
        recent-alarms table, redraw the charts with the backlog's averages and
        start the monitor timer. */
    method OpenMonitor(id: int, res: Option<Api.Response>, backlog: seq<BacklogRow>)
      requires Valid()
      modifies this, page, charts.Repr
      ensures Valid()
      ensures Api.FetchChecked(res).None? ==>
                && Vars() == old(Vars()).(dashboardRunning := false, currentMachineId := Some(id))
                && page.State() == old(page.State()).(history := [], alarmLog := [], recentAlarms := [],
                                                      badge := 0, badgeShown := false, view := MonitorView)
                && charts.View() == old(charts.View())
      ensures Api.FetchChecked(res).Some? ==>
                var mc := Api.FetchChecked(res).value;
                && Vars() == old(Vars()).(dashboardRunning := false, currentMachineId := Some(id),
                                          lastLotName := mc.lot, monitorRunning := true)
                && page.State() == old(page.State()).(
                     history := Take(Reverse(Rows(backlog, mc)), HISTORY_ROWS),
                     alarmLog := [],
                     recentAlarms := PushFrontAll([], BacklogEventsAll(Reverse(backlog), mc), RECENT_ALARMS),
                     badge := 0, badgeShown := false, view := MonitorView)
                && charts.View() == Update(Fresh(), Some(VoltAverages(backlog)), Some(AmpAverages(backlog)), None)
    {
      ShowMonitor(id);
      var fetched := Api.FetchChecked(res);
      if fetched.None? {
        return;
      }
      LoadMonitor(fetched.value, backlog);
    }

    /** The second half of `openMonitor`, once the machine's reading `mc`
        has arrived: remember its lot, fill the tables and the charts from
        the backlog and start the monitor timer. */
    method LoadMonitor(mc: Reading, backlog: seq<BacklogRow>)
      requires Valid()
      modifies this, page, charts.Repr
      ensures Valid()
      ensures Vars() == old(Vars()).(lastLotName := mc.lot, monitorRunning := true)
      ensures page.State() == LoadedPage(old(page.State()), backlog, mc)
      ensures charts.View() == Update(Fresh(), Some(VoltAverages(backlog)), Some(AmpAverages(backlog)), None)
    {
      lastLotName := mc.lot;
      TablesFromBacklog(backlog, mc);
      ghost var loaded := page.State();
      ChartsFromBacklog(backlog);
      assert page.State() == loaded;
      monitorRunning := true;
    }

    /** The `onAlarm` callback of `runMonitorLoop` for one alarm. */
    method OnAlarm(e: AlarmEvent)
      requires page.Valid()
      modifies page
      ensures page.Valid()
      ensures page.State() == AfterAlarm(old(page.State()), e)
    {
      page.AddAlarmLog(e);
      page.AddRecentAlarm(e);
    }

    /** `onAlarm` over a row's alarms in call order. */
    method OnAlarms(alarms: seq<AlarmEvent>)
      requires page.Valid()
      modifies page
      ensures page.Valid()
      ensures page.State() == old(page.State()).(
                alarmLog := Reverse(alarms) + old(page.alarmLog),
                recentAlarms := PushFrontAll(old(page.recentAlarms), alarms, RECENT_ALARMS),
                badge := old(page.badge) + |alarms|,
                badgeShown := old(page.badgeShown) || alarms != [])
    {
      ghost var start := page.State();
      for k := 0 to |alarms|
        invariant page.Valid()
        invariant page.State() == AfterAlarms(start, alarms[..k])
      {
        assert alarms[..k + 1][..k] == alarms[..k];
        OnAlarm(alarms[k]);
      }
      assert alarms[..|alarms|] == alarms;
      AfterAlarmsFields(start, alarms);
    }

    /** The lot check of `runMonitorLoop`: a new running lot clears the
        three tables and the charts; any change of lot is remembered. */
    method CheckLotChange(mc: Reading)
      requires Valid()
      modifies this, page, charts.Repr
      ensures Valid()
      ensures Vars() == old(Vars()).(lastLotName := mc.lot)
      ensures fresh(charts.Repr - old(charts.Repr))
      ensures var reset := StartsNewLot(old(lastLotName), mc);
              && page.State() == LotCheckedPage(old(page.State()), reset)
              && charts.View() == if reset then Fresh() else old(charts.View())
    {
      if mc.lot != lastLotName {
        if mc.lot != LOT_ENDED && mc.mode == Run {
          page.ClearHistory();
          page.ClearAlarmLog();
          page.ClearRecentAlarms();
          charts.InitCharts();
        }
        lastLotName := mc.lot;
      }
    }

    /** The table part of a tick: the new row on top of the history, and
        its alarms through the `onAlarm` callback. */
    method TickTables(mc: Reading, time: JsString)
      requires Valid()
      modifies page
      ensures Valid()
      ensures page.State() == TickedPage(old(page.State()), mc, time)
    {
      var alarms := page.PrependHistoryRow(time, mc.volts, mc.amps, mc);
      OnAlarms(alarms);
    }

    /** The chart part of a tick: `updateCharts([avgV], [avgA])`. */
    method TickCharts(mc: Reading)
      requires Valid()
      modifies charts.Repr
      ensures Valid() && fresh(charts.Repr - old(charts.Repr))
      ensures charts.View() == Tick(old(charts.View()), Average(mc.volts), Average(mc.amps))
    {
      ghost var before := charts.View();
      charts.UpdateCharts(Some([Average(mc.volts)]), Some([Average(mc.amps)]), None);
      if before.Drawn? {
        UpdateBounded(before, Some([Average(mc.volts)]), Some([Average(mc.amps)]), None);
      }
    }

    /** One tick for a reading of the open machine: the lot check, the new
        history row with its alarms, and the charts' new points. */
    method MonitorTick(mc: Reading, time: JsString)
      requires Valid()
      modifies this, page, charts.Repr
      ensures Valid()
      ensures var reset := StartsNewLot(old(lastLotName), mc);
              && Vars() == old(Vars()).(lastLotName := mc.lot)
              && page.State() == TickedPage(LotCheckedPage(old(page.State()), reset), mc, time)
              && charts.View() == Tick(if reset then Fresh() else old(charts.View()),
                                       Average(mc.volts), Average(mc.amps))
              && (reset ==> page.history == [Row(time, mc.volts, mc.amps, mc)])
    {
      ghost var reset := StartsNewLot(lastLotName, mc);
      CheckLotChange(mc);
      ghost var cleared := page.history;
      ghost var drawn := charts.View();
      TickTables(mc, time);
      assert charts.View() == drawn;
      assert reset ==> cleared == [] && page.history == [Row(time, mc.volts, mc.amps, mc)];
      TickCharts(mc);
    }

    /** One tick of `runMonitorLoop`, given what the live endpoint returned
        and the formatted clock. Nothing happens unless a machine is open
        (an id of 0 counts as none) and its reading arrived. */
    method RunMonitorLoop(fetched: Option<Reading>, time: JsString)
      requires Valid()
      modifies this, page, charts.Repr
      ensures Valid()
      ensures !Active(old(currentMachineId)) || fetched.None? ==>
                && Vars() == old(Vars()) && page.State() == old(page.State())
                && charts.View() == old(charts.View())
      ensures Active(old(currentMachineId)) && fetched.Some? ==>
                var mc := fetched.value;
                var reset := StartsNewLot(old(lastLotName), mc);
                && Vars() == old(Vars()).(lastLotName := mc.lot)
                && page.State() == TickedPage(LotCheckedPage(old(page.State()), reset), mc, time)
                && charts.View() == Tick(if reset then Fresh() else old(charts.View()),
                                         Average(mc.volts), Average(mc.amps))
                && (reset ==> page.history == [Row(time, mc.volts, mc.amps, mc)])
    {
      if !(currentMachineId.Some? && currentMachineId.value != 0) {
        return;
      }
      if fetched.None? {
        return;
      }
      MonitorTick(fetched.value, time);
    }

    /** `backToDashboard`: stop the monitor timer, forget the machine, show
        and restart the dashboard. The charts are left as they are. */
    method BackToDashboard(machines: seq<Reading>)
      requires Valid()
      modifies this, page
      ensures Valid()
      ensures Vars() == old(Vars()).(monitorRunning := false, currentMachineId := None,
                                     machinesCache := machines, dashboardRunning := true)
      ensures page.State() == old(page.State()).(view := DashboardView,
                                                 formingGrid := Cards(machines, FORMING),
                                                 packingGrid := Cards(machines, PACKING),
                                                 qcGrid := Cards(machines, QC))
      ensures charts.View() == old(charts.View())
    {
      monitorRunning := false;
      currentMachineId := None;
      page.ToggleView("dashboard");
      StartDashboard(machines);
    }

    /** `addAlarmLog` for each alarm, in order. */
    method AddAlarmLogs(alarms: seq<AlarmEvent>)
      requires page.Valid()
      modifies page
      ensures page.Valid()
      ensures page.State() == old(page.State()).(alarmLog := Reverse(alarms) + old(page.alarmLog),
                                                 badge := old(page.badge) + |alarms|,
                                                 badgeShown := old(page.badgeShown) || alarms != [])
    {
      ghost var start := page.State();
      for k := 0 to |alarms|
        invariant page.Valid()
        invariant page.State() == AfterLogs(start, alarms[..k])
      {
        assert alarms[..k + 1][..k] == alarms[..k];
        page.AddAlarmLog(alarms[k]);
      }
      assert alarms[..|alarms|] == alarms;
      AfterLogsFields(start, alarms);
    }

    /** `openDashboardAlarm`: for a machine that exists, refill the alarm log
        (and its badge) from the backlog's alarms and show it. */
    method OpenDashboardAlarm(fetched: Option<Reading>, history: seq<BacklogRow>)
      requires Valid()
      modifies this, page
      ensures Valid()
      ensures charts.View() == old(charts.View())
      ensures fetched.None? ==> Vars() == old(Vars()) && page.State() == old(page.State())
      ensures fetched.Some? ==>
                var alarms := BacklogEventsAll(history, fetched.value);
                && Vars() == old(Vars()).(alarmModalShown := true)
                && page.State() == old(page.State()).(alarmLog := Reverse(alarms), badge := |alarms|,
                                                      badgeShown := alarms != [])
    {
      if fetched.None? {
        return;
      }
      page.ClearAlarmLog();
      page.ResetBadge();
      // The nested forEach visits the rows in order and each row's voltage,
      // then amperage, channels: the order of BacklogEventsAll.
      AddAlarmLogs(BacklogEventsAll(history, fetched.value));
      alarmModalShown := true;
    }
  }
}
