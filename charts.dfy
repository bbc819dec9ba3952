/** The two live charts of the monitor (client/js/charts.js): the module
    variables `voltChart` and `ampChart`, each holding one data series and a
    labels array. `initCharts` gives both charts the same labels array, so a
    label pushed or shifted through one chart is pushed or shifted in the
    other until one of them is given an array of its own. */
module Charts {
  import opened Telemetry
  import opened Config
  import opened Bounded

  /** A label: a string, or, on the live path, the whole `labels` argument
      pushed as a single element. */
  datatype Label = Text(s: string) | Group(items: seq<Label>)

  /** A JavaScript array of labels. */
  class LabelList {
    var items: seq<Label>

    constructor (items: seq<Label>)
      ensures this.items == items
    {
      this.items := items;
    }
  }

  /** A line chart: `data.datasets[0].data` and `data.labels`. */
  class Chart {
    var data: seq<real>
    var labels: LabelList

    constructor (labels: LabelList)
      ensures data == [] && this.labels == labels
    {
      data := [];
      this.labels := labels;
    }
  }

  datatype Series = Series(data: seq<real>, labels: seq<Label>)

  /** What the two chart variables hold: nothing (both null), or two charts,
      `shared` telling whether they hold the same labels array. */
  datatype ChartsView = Destroyed | Drawn(volt: Series, amp: Series, shared: bool)

  /** `Array(HISTORY_ROWS).fill('')`. */
  function Blanks(n: nat): (r: seq<Label>)
    ensures |r| == n && forall i :: 0 <= i < n ==> r[i] == Text("")
  {
    seq(n, _ => Text(""))
  }

  /** The charts right after `initCharts`. */
  function Fresh(): ChartsView
  {
    Drawn(Series([], Blanks(HISTORY_ROWS)), Series([], Blanks(HISTORY_ROWS)), true)
  }

  /** Writing the voltage chart's labels array, seen from both charts. */
  function WithVoltLabels(v: ChartsView, ls: seq<Label>): (r: ChartsView)
    requires v.Drawn?
  {
    v.(volt := v.volt.(labels := ls), amp := if v.shared then v.amp.(labels := ls) else v.amp)
  }

  /** Writing the amperage chart's labels array, seen from both charts. */
  function WithAmpLabels(v: ChartsView, ls: seq<Label>): (r: ChartsView)
    requires v.Drawn?
  {
    v.(amp := v.amp.(labels := ls), volt := if v.shared then v.volt.(labels := ls) else v.volt)
  }

  /** The voltage section of `updateCharts`. */
  function VoltStep(v: ChartsView, volts: seq<real>, labels: Option<seq<Label>>): (r: ChartsView)
    requires v.Drawn?
    ensures r.Drawn? && r.amp.data == v.amp.data
  {
    if |volts| > LIVE_BATCH_MAX then
      var v1 := v.(volt := v.volt.(data := Last(volts, HISTORY_ROWS)));
      if labels.Some? && |labels.value| > 0 then
        v1.(volt := v1.volt.(labels := Last(labels.value, HISTORY_ROWS)), shared := false)
      else v1
    else if |volts| > 0 then
      var v1 := v.(volt := v.volt.(data := v.volt.data + [Mean(volts)]));
      var v2 := if labels.Some? then WithVoltLabels(v1, v1.volt.labels + [Group(labels.value)]) else v1;
      if |v2.volt.data| > HISTORY_ROWS then
        WithVoltLabels(v2.(volt := v2.volt.(data := Shift(v2.volt.data))), Shift(v2.volt.labels))
      else v2
    else v
  }

  /** The amperage section of `updateCharts`. */
  function AmpStep(v: ChartsView, amps: seq<real>, labels: Option<seq<Label>>): (r: ChartsView)
    requires v.Drawn?
    ensures r.Drawn? && r.volt.data == v.volt.data
  {
    if |amps| > LIVE_BATCH_MAX then
      var v1 := v.(amp := v.amp.(data := Last(amps, HISTORY_ROWS)));
      if labels.Some? && |labels.value| > 0 then
        v1.(amp := v1.amp.(labels := Last(labels.value, HISTORY_ROWS)), shared := false)
      else v1
    else if |amps| > 0 then
      var v1 := v.(amp := v.amp.(data := v.amp.data + [Mean(amps)]));
      var v2 := if |v1.amp.data| > HISTORY_ROWS then
                  WithAmpLabels(v1.(amp := v1.amp.(data := Shift(v1.amp.data))), Shift(v1.amp.labels))
                else v1;
      if labels.Some? then
        var v3 := WithAmpLabels(v2, v2.amp.labels + [Group(labels.value)]);
        if |v3.amp.labels| > HISTORY_ROWS then WithAmpLabels(v3, Shift(v3.amp.labels)) else v3
      else v2
    else v
  }

  /** `updateCharts(volts, amps, labels)`; `None` stands for a missing argument. */
  function Update(v: ChartsView, volts: Option<seq<real>>, amps: Option<seq<real>>, labels: Option<seq<Label>>): ChartsView
  {
    if v.Destroyed? || volts.None? || amps.None? then v
    else AmpStep(VoltStep(v, volts.value, labels), amps.value, labels)
  }

  /** A batch of more than LIVE_BATCH_MAX values replaces a series by the
      newest HISTORY_ROWS of them; its labels are replaced (by a new array)
      only when a non-empty labels array is given. */
  lemma VoltReplace(v: ChartsView, volts: seq<real>, labels: Option<seq<Label>>)
    requires v.Drawn? && |volts| > LIVE_BATCH_MAX
    ensures var r := VoltStep(v, volts, labels);
            && r.volt.data == Last(volts, HISTORY_ROWS)
            && (labels.Some? && |labels.value| > 0 ==> r.volt.labels == Last(labels.value, HISTORY_ROWS) && !r.shared)
            && (labels.None? || labels.value == [] ==> r == v.(volt := v.volt.(data := Last(volts, HISTORY_ROWS))))
  {
  }

  /** A batch of one to LIVE_BATCH_MAX values adds exactly one point, their
      mean, which lies within the batch's range; with a series already at
      HISTORY_ROWS points the oldest point goes. An empty batch changes nothing. */
  lemma VoltLiveSample(v: ChartsView, volts: seq<real>, labels: Option<seq<Label>>, lo: real, hi: real)
    requires v.Drawn? && 0 < |volts| <= LIVE_BATCH_MAX && |v.volt.data| <= HISTORY_ROWS
    requires forall i :: 0 <= i < |volts| ==> lo <= volts[i] <= hi
    ensures var d := VoltStep(v, volts, labels).volt.data;
            && d == Slide(v.volt.data, Mean(volts), HISTORY_ROWS)
            && |d| <= HISTORY_ROWS && lo <= d[|d| - 1] <= hi
    ensures VoltStep(v, [], labels) == v
  {
    MeanWithin(volts, lo, hi);
  }

  /** The amperage section's bulk path, as `VoltReplace`: the newest
      HISTORY_ROWS values replace the series, and a non-empty labels array
      replaces its labels by a new array of its own. */
  lemma AmpReplace(v: ChartsView, amps: seq<real>, labels: Option<seq<Label>>)
    requires v.Drawn? && |amps| > LIVE_BATCH_MAX
    ensures var r := AmpStep(v, amps, labels);
            && r.amp.data == Last(amps, HISTORY_ROWS)
            && (labels.Some? && |labels.value| > 0 ==> r.amp.labels == Last(labels.value, HISTORY_ROWS) && !r.shared)
            && (labels.None? || labels.value == [] ==> r == v.(amp := v.amp.(data := Last(amps, HISTORY_ROWS))))
  {
  }

  /** The amperage section's live path, as `VoltLiveSample`: one point, the
      batch mean, within the batch's range, the oldest point dropped at
      HISTORY_ROWS; an empty batch changes nothing. */
  lemma AmpLiveSample(v: ChartsView, amps: seq<real>, labels: Option<seq<Label>>, lo: real, hi: real)
    requires v.Drawn? && 0 < |amps| <= LIVE_BATCH_MAX && |v.amp.data| <= HISTORY_ROWS
    requires forall i :: 0 <= i < |amps| ==> lo <= amps[i] <= hi
    ensures var d := AmpStep(v, amps, labels).amp.data;
            && d == Slide(v.amp.data, Mean(amps), HISTORY_ROWS)
            && |d| <= HISTORY_ROWS && lo <= d[|d| - 1] <= hi
    ensures AmpStep(v, [], labels) == v
  {
    MeanWithin(amps, lo, hi);
  }

  /** One update keeps both series within HISTORY_ROWS points. */
  lemma UpdateBounded(v: ChartsView, volts: Option<seq<real>>, amps: Option<seq<real>>, labels: Option<seq<Label>>)
    requires v.Drawn? && |v.volt.data| <= HISTORY_ROWS && |v.amp.data| <= HISTORY_ROWS
    ensures var r := Update(v, volts, amps, labels);
            r.Drawn? && |r.volt.data| <= HISTORY_ROWS && |r.amp.data| <= HISTORY_ROWS
  {
  }

  /** The monitor's per-tick call: one averaged value per quantity, no labels. */
  function Tick(v: ChartsView, avgV: real, avgA: real): ChartsView
  {
    Update(v, Some([avgV]), Some([avgA]), None)
  }

  /** A tick adds its two averages as the newest points of the two series. */
  lemma TickAppendsAverages(v: ChartsView, avgV: real, avgA: real)
    requires v.Drawn?
    ensures Tick(v, avgV, avgA).Drawn?
    ensures Tick(v, avgV, avgA).volt.data == Slide(v.volt.data, avgV, HISTORY_ROWS)
    ensures Tick(v, avgV, avgA).amp.data == Slide(v.amp.data, avgA, HISTORY_ROWS)
  {
    MeanOfOne(avgV);
    MeanOfOne(avgA);
  }

  /** The charts after a run of ticks, one (volt, amp) sample per tick. */
  function Ticks(v: ChartsView, samples: seq<(real, real)>): ChartsView
  {
    if samples == [] then v
    else var s := samples[|samples| - 1]; Tick(Ticks(v, samples[..|samples| - 1]), s.0, s.1)
  }

  function Firsts(samples: seq<(real, real)>): (r: seq<real>)
    ensures |r| == |samples| && forall i :: 0 <= i < |r| ==> r[i] == samples[i].0
  {
    seq(|samples|, i requires 0 <= i < |samples| => samples[i].0)
  }

  function Seconds(samples: seq<(real, real)>): (r: seq<real>)
    ensures |r| == |samples| && forall i :: 0 <= i < |r| ==> r[i] == samples[i].1
  {
    seq(|samples|, i requires 0 <= i < |samples| => samples[i].1)
  }

  /** Over any run of live ticks each series holds the newest HISTORY_ROWS of
      its points, oldest first: drop-oldest, never more than HISTORY_ROWS. */
  lemma {:induction false} TicksKeepNewest(v: ChartsView, samples: seq<(real, real)>)
    requires v.Drawn? && |v.volt.data| <= HISTORY_ROWS && |v.amp.data| <= HISTORY_ROWS
    ensures Ticks(v, samples).Drawn?
    ensures Ticks(v, samples).volt.data == Last(v.volt.data + Firsts(samples), HISTORY_ROWS)
    ensures Ticks(v, samples).amp.data == Last(v.amp.data + Seconds(samples), HISTORY_ROWS)
  {
    TicksSlide(v, samples);
    SlideAllKeepsNewest(v.volt.data, Firsts(samples), HISTORY_ROWS);
    SlideAllKeepsNewest(v.amp.data, Seconds(samples), HISTORY_ROWS);
  }

  lemma {:induction false} TicksSlide(v: ChartsView, samples: seq<(real, real)>)
    requires v.Drawn?
    ensures Ticks(v, samples).Drawn?
    ensures Ticks(v, samples).volt.data == SlideAll(v.volt.data, Firsts(samples), HISTORY_ROWS)
    ensures Ticks(v, samples).amp.data == SlideAll(v.amp.data, Seconds(samples), HISTORY_ROWS)
  {
    if samples != [] {
      var init, s := samples[..|samples| - 1], samples[|samples| - 1];
      TicksSlide(v, init);
      assert Firsts(samples)[..|samples| - 1] == Firsts(init);
      assert Seconds(samples)[..|samples| - 1] == Seconds(init);
      MeanOfOne(s.0);
      MeanOfOne(s.1);
    }
  }

  /** From freshly initialised charts, HISTORY_ROWS + 1 ticks leave exactly
      HISTORY_ROWS points in each series. */
  lemma FullAfterOverflow(samples: seq<(real, real)>)
    requires |samples| == HISTORY_ROWS + 1
    ensures Ticks(Fresh(), samples).Drawn?
    ensures |Ticks(Fresh(), samples).volt.data| == HISTORY_ROWS
    ensures |Ticks(Fresh(), samples).amp.data| == HISTORY_ROWS
  {
    TicksKeepNewest(Fresh(), samples);
  }

  /** While the two charts share their labels array, a tick on full series
      shifts that array twice although no label was pushed: the blank labels
      of `initCharts` drain two per tick. */
  lemma SharedLabelsShiftTwice(v: ChartsView, avgV: real, avgA: real)
    requires v.Drawn? && v.shared && v.volt.labels == v.amp.labels
    requires |v.volt.data| == HISTORY_ROWS && |v.amp.data| == HISTORY_ROWS
    ensures var r := Tick(v, avgV, avgA);
            r.shared && r.volt.labels == r.amp.labels == Shift(Shift(v.volt.labels))
  {
  }

  /** Whether or not the labels array is shared, a live amperage update with
      labels keeps the amperage labels within HISTORY_ROWS when they start
      there: the section's own cap undoes its own push. The extra label of
      `SharedLabelsOverflow` is the voltage section's push into the shared
      array, which reaches this section already over the bound. */
  lemma AmpLabelsBounded(v: ChartsView, amps: seq<real>, labels: seq<Label>)
    requires v.Drawn? && |v.amp.labels| <= HISTORY_ROWS
    requires 0 < |amps| <= LIVE_BATCH_MAX
    ensures |AmpStep(v, amps, Some(labels)).amp.labels| <= HISTORY_ROWS
  {
  }

  /** With the shared array of `initCharts`, one live update with a labels
      argument already leaves HISTORY_ROWS + 1 labels: the voltage section
      pushes into the shared array and the amperage section's cap removes only
      one of the two additions. */
  lemma SharedLabelsOverflow()
    ensures |Update(Fresh(), Some([1.0]), Some([1.0]), Some([])).amp.labels| == HISTORY_ROWS + 1
  {
    MeanOfOne(1.0);
  }

  /** The module state of client/js/charts.js. */
  class ChartPanel {
    var voltChart: Chart?
    var ampChart: Chart?
    ghost var Repr: set<object>

    ghost predicate Valid()
      reads this, Repr
    {
      && this in Repr
      && (voltChart == null <==> ampChart == null)
      && (voltChart != null ==>
            && voltChart in Repr && ampChart in Repr && voltChart != ampChart
            && voltChart.labels in Repr && ampChart.labels in Repr)
    }

    ghost function View(): ChartsView
      reads this, Repr
      requires Valid()
    {
      if voltChart == null then Destroyed
      else Drawn(Series(voltChart.data, voltChart.labels.items),
                 Series(ampChart.data, ampChart.labels.items),
                 voltChart.labels == ampChart.labels)
    }

    /** Before any chart is created both variables are null. */
    constructor ()
      ensures Valid() && fresh(Repr) && View() == Destroyed
    {
      voltChart := null;
      ampChart := null;
      Repr := {this};
    }

    /** `destroyCharts`: both variables become null. */
    method DestroyCharts()
      requires Valid()
      modifies this
      ensures Valid() && Repr == old(Repr) && View() == Destroyed
    {
      voltChart := null;
      ampChart := null;
    }

    /** `initCharts`: new charts with empty series and one shared array of
        HISTORY_ROWS blank labels. The canvases are taken to exist. */
    method InitCharts()
      requires Valid()
      modifies this
      ensures Valid() && fresh(Repr - old(Repr)) && View() == Fresh()
    {
      DestroyCharts();
      var labels := new LabelList(Blanks(HISTORY_ROWS));
      voltChart := new Chart(labels);
      ampChart := new Chart(labels);
      Repr := Repr + {voltChart, ampChart, labels};
    }

    /** `updateCharts(volts, amps, labels)`. */
    method UpdateCharts(volts: Option<seq<real>>, amps: Option<seq<real>>, labels: Option<seq<Label>>)
      requires Valid()
      modifies Repr
      ensures Valid() && fresh(Repr - old(Repr))
      ensures View() == Update(old(View()), volts, amps, labels)
      ensures old(View()).Destroyed? || volts.None? || amps.None? ==> View() == old(View())
    {
      if voltChart == null || ampChart == null {
        return;
      }
      if volts.None? || amps.None? {
        return;
      }
      UpdateVolt(volts.value, labels);
      UpdateAmp(amps.value, labels);
    }

    method UpdateVolt(volts: seq<real>, labels: Option<seq<Label>>)
      requires Valid() && voltChart != null
      modifies Repr
      ensures Valid() && fresh(Repr - old(Repr)) && voltChart != null
      ensures View() == VoltStep(old(View()), volts, labels)
    {
      var chart := voltChart;
      if |volts| > LIVE_BATCH_MAX {
        chart.data := Last(volts, HISTORY_ROWS);
        if labels.Some? && |labels.value| > 0 {
          var own := new LabelList(Last(labels.value, HISTORY_ROWS));
          chart.labels := own;
          Repr := Repr + {own};
        }
      } else if |volts| > 0 {
        var avg := Sum(volts) / (|volts| as real);
        chart.data := chart.data + [avg];
        if labels.Some? {
          chart.labels.items := chart.labels.items + [Group(labels.value)];
        }
        if |chart.data| > HISTORY_ROWS {
          chart.data := Shift(chart.data);
          chart.labels.items := Shift(chart.labels.items);
        }
      }
    }

    method UpdateAmp(amps: seq<real>, labels: Option<seq<Label>>)
      requires Valid() && ampChart != null
      modifies Repr
      ensures Valid() && fresh(Repr - old(Repr))
      ensures View() == AmpStep(old(View()), amps, labels)
    {
      var chart := ampChart;
      if |amps| > LIVE_BATCH_MAX {
        chart.data := Last(amps, HISTORY_ROWS);
        if labels.Some? && |labels.value| > 0 {
          var own := new LabelList(Last(labels.value, HISTORY_ROWS));
          chart.labels := own;
          Repr := Repr + {own};
        }
      } else if |amps| > 0 {
        var avg := Sum(amps) / (|amps| as real);
        chart.data := chart.data + [avg];
        if |chart.data| > HISTORY_ROWS {
          chart.data := Shift(chart.data);
          chart.labels.items := Shift(chart.labels.items);
        }
        if labels.Some? {
          chart.labels.items := chart.labels.items + [Group(labels.value)];
          if |chart.labels.items| > HISTORY_ROWS {
            chart.labels.items := Shift(chart.labels.items);
          }
        }
      }
    }
  }
}
