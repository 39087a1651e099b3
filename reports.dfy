/**
 * The reports screen: which metrics have data to report, the average,
 * minimum and maximum over the points above zero, the chart shown for each
 * metric's Week/Month tab, and the report download that walks the metrics
 * one by one, switching each metric's tab to capture its charts.
 */
module Reports {
  import opened Optional
  import opened Text
  import opened Numbers
  import opened Records
  import opened HealthTypes
  import opened Registry
  import opened TimeSeries

  /** A metric as the report lists it; `icon` is set only for the extra metrics. */
  datatype ReportMetric = ReportMetric(name: string, color: string, bgColor: string, unit: string, icon: Option<string>)

  function FromVital(v: Vital): ReportMetric {
    ReportMetric(v.name, v.color, v.bgColor, v.unit, None)
  }

  /** The entry built for a selected extra metric: grey colours, its registered unit and its icon. */
  function ExtraMetric(name: string): ReportMetric {
    ReportMetric(name, "text-gray-600", "bg-gray-100", UnitFor(name), Some(IconFor(name)))
  }

  /** `history[name] && history[name].some(d => d.value > 0)` */
  predicate HasData(history: Record<seq<HealthDataPoint>>, name: string) {
    name in history.entries && Positives(history.entries[name]) != []
  }

  /** Keeping the values above zero leaves something exactly when some point is above zero. */
  lemma SomeAboveZero(points: seq<HealthDataPoint>)
    ensures Positives(points) != [] <==> exists i :: 0 <= i < |points| && points[i].value > 0.0
  {
    if Positives(points) != [] {
      var v := Positives(points)[0];
      assert v in Positives(points);
      PositivesFrom(points, v);
      var p :| p in points && p.value == v;
      var i :| 0 <= i < |points| && points[i] == p;
    }
  }

  /** `primaryVitalsWithData`: the vitals whose weekly series has a point above zero, in order. */
  function PrimaryWithData(vitals: seq<Vital>, week: Record<seq<HealthDataPoint>>): (r: seq<ReportMetric>)
    ensures |r| <= |vitals|
    ensures |vitals| == 1 ==> r == (if HasData(week, vitals[0].name) then [FromVital(vitals[0])] else [])
  {
    if vitals == [] then []
    else
      var rest := PrimaryWithData(vitals[1..], week);
      if HasData(week, vitals[0].name) then [FromVital(vitals[0])] + rest else rest
  }

  /** The primary list holds exactly the vitals with weekly data. */
  lemma {:induction false} PrimaryWithDataExactly(vitals: seq<Vital>, week: Record<seq<HealthDataPoint>>)
    ensures forall v :: v in vitals && HasData(week, v.name) ==> FromVital(v) in PrimaryWithData(vitals, week)
    ensures forall m :: m in PrimaryWithData(vitals, week) ==> exists v :: v in vitals && HasData(week, v.name) && m == FromVital(v)
  {
    if vitals != [] {
      PrimaryWithDataExactly(vitals[1..], week);
      assert forall v :: v in vitals <==> v == vitals[0] || v in vitals[1..];
    }
  }

  /** `extraMetricsWithData`: the selected extra metrics whose weekly series has a point above zero, in selection order. */
  function ExtraWithData(names: seq<string>, week: Record<seq<HealthDataPoint>>): (r: seq<ReportMetric>)
    ensures |r| <= |names|
    ensures |names| == 1 ==> r == (if HasData(week, names[0]) then [ExtraMetric(names[0])] else [])
  {
    if names == [] then []
    else
      var rest := ExtraWithData(names[1..], week);
      if HasData(week, names[0]) then [ExtraMetric(names[0])] + rest else rest
  }

  /** The extra list holds exactly the selected metrics with weekly data. */
  lemma {:induction false} ExtraWithDataExactly(names: seq<string>, week: Record<seq<HealthDataPoint>>)
    ensures forall n :: n in names && HasData(week, n) ==> ExtraMetric(n) in ExtraWithData(names, week)
    ensures forall m :: m in ExtraWithData(names, week) ==> m.name in names && HasData(week, m.name) && m == ExtraMetric(m.name)
  {
    if names != [] {
      ExtraWithDataExactly(names[1..], week);
      assert forall n :: n in names <==> n == names[0] || n in names[1..];
    }
  }

  /** The primary list keeps the vitals' order: a joined vital list gives each part's list, in turn. */
  lemma {:induction false} PrimaryWithDataAppend(s: seq<Vital>, t: seq<Vital>, week: Record<seq<HealthDataPoint>>)
    ensures PrimaryWithData(s + t, week) == PrimaryWithData(s, week) + PrimaryWithData(t, week)
  {
    if s != [] {
      var head := if HasData(week, s[0].name) then [FromVital(s[0])] else [];
      assert (s + t)[0] == s[0] && (s + t)[1..] == s[1..] + t;
      assert PrimaryWithData(s + t, week) == head + PrimaryWithData(s[1..] + t, week);
      assert PrimaryWithData(s, week) == head + PrimaryWithData(s[1..], week);
      PrimaryWithDataAppend(s[1..], t, week);
      ConcatAssoc(head, PrimaryWithData(s[1..], week), PrimaryWithData(t, week));
    } else {
      assert s + t == t;
    }
  }

  /** The extra list keeps the selection order: joined selections give each part's list, in turn. */
  lemma {:induction false} ExtraWithDataAppend(s: seq<string>, t: seq<string>, week: Record<seq<HealthDataPoint>>)
    ensures ExtraWithData(s + t, week) == ExtraWithData(s, week) + ExtraWithData(t, week)
  {
    if s != [] {
      var head := if HasData(week, s[0]) then [ExtraMetric(s[0])] else [];
      assert (s + t)[0] == s[0] && (s + t)[1..] == s[1..] + t;
      assert ExtraWithData(s + t, week) == head + ExtraWithData(s[1..] + t, week);
      assert ExtraWithData(s, week) == head + ExtraWithData(s[1..], week);
      ExtraWithDataAppend(s[1..], t, week);
      ConcatAssoc(head, ExtraWithData(s[1..], week), ExtraWithData(t, week));
    } else {
      assert s + t == t;
    }
  }

  /** `allMetricsWithData`: the primary vitals first, then the extra metrics. */
  function AllWithData(extra: seq<string>, week: Record<seq<HealthDataPoint>>): seq<ReportMetric> {
    PrimaryWithData(MockVitals, week) + ExtraWithData(extra, week)
  }

  /** When every vital has data the primary list is every vital, in the registry's order. */
  lemma {:induction false} PrimaryWithDataKeepsOrder(vitals: seq<Vital>, week: Record<seq<HealthDataPoint>>)
    requires forall i :: 0 <= i < |vitals| ==> HasData(week, vitals[i].name)
    ensures |PrimaryWithData(vitals, week)| == |vitals|
    ensures forall i :: 0 <= i < |vitals| ==> PrimaryWithData(vitals, week)[i] == FromVital(vitals[i])
  {
    if vitals != [] {
      PrimaryWithDataKeepsOrder(vitals[1..], week);
    }
  }

  /** There is nothing to report exactly when no vital and no selected extra metric has a weekly point above zero. */
  lemma AllWithDataEmpty(extra: seq<string>, week: Record<seq<HealthDataPoint>>)
    ensures AllWithData(extra, week) == [] <==>
      (forall v :: v in MockVitals ==> !HasData(week, v.name)) && (forall n :: n in extra ==> !HasData(week, n))
  {
    var p, e := PrimaryWithData(MockVitals, week), ExtraWithData(extra, week);
    PrimaryWithDataExactly(MockVitals, week);
    ExtraWithDataExactly(extra, week);
    if p != [] {
      assert p[0] in p;
    }
    if e != [] {
      assert e[0] in e;
    }
  }

  /** Monthly data alone never puts a metric on the report. */
  lemma MonthIgnored(extra: seq<string>, week: Record<seq<HealthDataPoint>>)
    requires forall k :: k in week.entries ==> Positives(week.entries[k]) == []
    ensures AllWithData(extra, week) == []
  {
    AllWithDataEmpty(extra, week);
  }

  /** A weekly history of fresh windows gives nothing to report. */
  lemma FreshHistoryNothingToReport(extra: seq<string>, week: Record<seq<HealthDataPoint>>, today: Day)
    requires AllFresh(week, Week, today)
    ensures AllWithData(extra, week) == []
  {
    ZeroWindowHasNoPositives(Week, today);
    MonthIgnored(extra, week);
  }

  /** An extra metric's unit is its METRIC_UNITS entry or '', and its icon is its own or the Default one. */
  lemma ExtraMetricUnitAndIcon(name: string)
    ensures ExtraMetric(name).unit == Get(MetricUnits(), name).GetOr("")
    ensures ExtraMetric(name).icon == Some(if name in IconNames() then name else "Default")
  {
    UnitForIsMetricUnits(name);
  }

  /** `values.reduce((a, b) => a + b, 0)` */
  function Sum(vs: seq<real>): real {
    if vs == [] then 0.0 else Sum(vs[..|vs| - 1]) + vs[|vs| - 1]
  }

  /** `Math.min(...values)` */
  function MinOf(vs: seq<real>): (m: real)
    requires vs != []
    ensures m in vs
    ensures forall i :: 0 <= i < |vs| ==> m <= vs[i]
  {
    if |vs| == 1 then vs[0]
    else
      var rest := MinOf(vs[1..]);
      if vs[0] <= rest then vs[0] else rest
  }

  /** `Math.max(...values)` */
  function MaxOf(vs: seq<real>): (m: real)
    requires vs != []
    ensures m in vs
    ensures forall i :: 0 <= i < |vs| ==> vs[i] <= m
  {
    if |vs| == 1 then vs[0]
    else
      var rest := MaxOf(vs[1..]);
      if vs[0] >= rest then vs[0] else rest
  }

  /** `x` added to itself `n` times. */
  function Times(n: nat, x: real): real {
    if n == 0 then 0.0 else Times(n - 1, x) + x
  }

  lemma {:induction false} TimesIsProduct(n: nat, x: real)
    ensures Times(n, x) == (n as real) * x
  {
    if n > 0 {
      TimesIsProduct(n - 1, x);
      assert (n as real) * x == ((n - 1) as real) * x + x;
    }
  }

  /** A sum of values between `lo` and `hi` lies between `|vs|` times each. */
  lemma {:induction false} SumBounds(vs: seq<real>, lo: real, hi: real)
    requires forall i :: 0 <= i < |vs| ==> lo <= vs[i] <= hi
    ensures Times(|vs|, lo) <= Sum(vs) <= Times(|vs|, hi)
  {
    if vs != [] {
      SumBounds(vs[..|vs| - 1], lo, hi);
    }
  }

  /** A total between `n * lo` and `n * hi` gives an average between `lo` and `hi`. */
  lemma AverageBetween(total: real, n: nat, lo: real, hi: real)
    requires n > 0 && Times(n, lo) <= total <= Times(n, hi)
    ensures lo <= total / (n as real) <= hi
  {
    TimesIsProduct(n, lo);
    TimesIsProduct(n, hi);
    assert total / (n as real) * (n as real) == total;
  }

  /** The average of a non-empty window lies between its minimum and its maximum. */
  lemma AverageWithin(vs: seq<real>)
    requires vs != []
    ensures MinOf(vs) <= Sum(vs) / (|vs| as real) <= MaxOf(vs)
  {
    var lo, hi := MinOf(vs), MaxOf(vs);
    SumBounds(vs, lo, hi);
    AverageBetween(Sum(vs), |vs|, lo, hi);
  }

  /** The statistics of one window: nothing, or the average, minimum and maximum. */
  datatype Stats = NoData | Stats(avg: real, min: real, max: real)

  /** `calculateStats` before its numbers are printed. */
  function CalculateStats(vs: seq<real>): (s: Stats)
    ensures s.NoData? <==> vs == []
    ensures s.Stats? ==> s.min in vs && s.max in vs
    ensures s.Stats? ==> forall i :: 0 <= i < |vs| ==> s.min <= vs[i] <= s.max
    ensures s.Stats? ==> s.min <= s.avg <= s.max
  {
    if vs == [] then NoData
    else
      AverageWithin(vs);
      Stats(Sum(vs) / (|vs| as real), MinOf(vs), MaxOf(vs))
  }

  /** The three printed columns of a row of the statistics table. */
  datatype StatsRow = StatsRow(avg: string, min: string, max: string)

  const NotAvailable: string := "N/A"

  /** `calculateStats` as printed: "N/A" three times, or each number with one decimal. */
  function Render(s: Stats): (row: StatsRow)
    ensures s.NoData? <==> row == StatsRow(NotAvailable, NotAvailable, NotAvailable)
    ensures s.NoData? <==> row.avg == NotAvailable
    ensures s.Stats? ==> row.min == ToFixed1(s.min) && row.max == ToFixed1(s.max) && row.avg == ToFixed1(s.avg)
  {
    match s
    case NoData => StatsRow(NotAvailable, NotAvailable, NotAvailable)
    case Stats(avg, min, max) => StatsRow(ToFixed1(avg), ToFixed1(min), ToFixed1(max))
  }

  /** `history[name]?.filter(d => d.value > 0) || []`, as the values the statistics use. */
  function WindowValues(history: Record<seq<HealthDataPoint>>, name: string): (vs: seq<real>)
    ensures vs != [] <==> HasData(history, name)
    ensures forall i :: 0 <= i < |vs| ==> vs[i] > 0.0
  {
    match Get(history, name)
    case None => []
    case Some(points) => Positives(points)
  }

  /** The statistics of a window are taken over its points above zero, so they are never zero or below. */
  lemma StatsAboveZero(history: Record<seq<HealthDataPoint>>, name: string)
    ensures var s := CalculateStats(WindowValues(history, name));
      s.Stats? ==> 0.0 < s.min <= s.avg <= s.max
  {
  }

  const AnalysisUnavailable: string := "AI analysis could not be generated for this metric."

  const PromptIntroStart: string := "Analyze the following health data for a section of a medical report on \""
  const PromptIntroEnd: string :=
    "\". Provide a brief, professional, and objective interpretation based ONLY on the provided data, "
    + "mentioning trends, averages, highs, and lows. Do not give a diagnosis or any medical advice. "
    + "Stick strictly to interpreting the numbers provided."
  const RangesLead: string := " Normal ranges for context: "
  const NormalRanges: string :=
    RangesLead + "Heart Rate 60-100 bpm, SpO2 95-100%, Blood Pressure < 120/80 mmHg "
    + "(use the single value provided which is systolic), Temperature 36.5-37.5 C, Glucose 70-100 mg/dL."
  const DataIs: string := " The data is: "

  /** Whether the prompt names the normal ranges: only for the primary vitals. */
  predicate IsPrimary(name: string) {
    name in VitalNames
  }

  /** The interpretation prompt for one metric; `dataString` is the text of its weekly and monthly values. */
  function Prompt(name: string, dataString: string): string {
    PromptIntroStart + name + PromptIntroEnd + (if IsPrimary(name) then NormalRanges else "") + (DataIs + dataString)
  }

  /** The prompt holds the normal ranges right after its introduction exactly when the metric is a primary vital. */
  lemma PromptRanges(name: string, dataString: string)
    ensures var p := Prompt(name, dataString); var k := |PromptIntroStart + name + PromptIntroEnd|;
      (k + |NormalRanges| <= |p| && p[k..k + |NormalRanges|] == NormalRanges) <==> IsPrimary(name)
  {
    SecondCharacters(dataString);
    OptionalPart(PromptIntroStart + name + PromptIntroEnd, NormalRanges, DataIs + dataString, IsPrimary(name));
  }

  /** The ranges start " N…" and the data part " T…". */
  lemma SecondCharacters(dataString: string)
    ensures |NormalRanges| >= 2 && NormalRanges[1] == 'N'
    ensures |DataIs + dataString| >= 2 && (DataIs + dataString)[1] == 'T'
  {
    assert NormalRanges[1] == RangesLead[1];
  }

  /**
   * In `a + (b or nothing) + c`, the text `b` stands right after `a` exactly
   * when it was put there, as long as `b` and `c` differ at their second character.
   */
  lemma OptionalPart(a: string, b: string, c: string, present: bool)
    requires |b| >= 2 && |c| >= 2 && b[1] != c[1]
    ensures var p := a + (if present then b else "") + c;
      (|a| + |b| <= |p| && p[|a|..|a| + |b|] == b) <==> present
  {
    var p := a + (if present then b else "") + c;
    var k := |a|;
    if present {
      assert p[k..k + |b|] == b;
    } else if k + |b| <= |p| {
      assert p[k..k + |b|][1] == p[k + 1] == c[1];
    }
  }

  /** The interpretation: the reply to the prompt when one was asked for and came back, else the fixed text. */
  function Interpretation(asked: bool, reply: Option<string>): (r: string)
    ensures !asked || reply.None? ==> r == AnalysisUnavailable
    ensures asked && reply.Some? ==> r == reply.value
  {
    if asked && reply.Some? then reply.value else AnalysisUnavailable
  }

  /** A chart captured for the report: the tab it was captured under and the series that tab shows. */
  datatype Chart = Chart(tab: Window, data: Option<seq<HealthDataPoint>>)

  /** One metric's section of the report. */
  datatype Section = Section(name: string, weekly: StatsRow, monthly: StatsRow, interpretation: string, charts: seq<Chart>)

  /**
   * The section written for one metric: the statistics of both windows, the
   * interpretation asked for only when some window has data (`ask` stands
   * for the model's reply, if any), and a weekly and a monthly chart, each
   * only when its window has data.
   */
  function SectionFor(name: string, week: Record<seq<HealthDataPoint>>, month: Record<seq<HealthDataPoint>>,
                      ask: string -> Option<string>): Section
  {
    var wv, mv := WindowValues(week, name), WindowValues(month, name);
    Section(name, Render(CalculateStats(wv)), Render(CalculateStats(mv)),
            Interpretation(wv != [] || mv != [], ask(name)),
            WindowChart(Week, week, name) + WindowChart(Month, month, name))
  }

  /** The charts of one window: one chart of the window's series when it has data, none otherwise. */
  function WindowChart(tab: Window, history: Record<seq<HealthDataPoint>>, name: string): (cs: seq<Chart>)
    ensures cs != [] <==> HasData(history, name)
    ensures cs != [] ==> cs == [Chart(tab, Some(history.entries[name]))]
  {
    if WindowValues(history, name) != [] then [Chart(tab, Get(history, name))] else []
  }

  /** `HealthReport-<name, white-space runs as _>-<date>.pdf` */
  function ReportFileName(userName: string, date: string): string {
    "HealthReport-" + ReplaceWhitespaceRuns(userName, "_") + "-" + date + ".pdf"
  }

  /**
   * The file name is `HealthReport-`, the user's name, `-`, the date and
   * `.pdf`, and no white space is left in the name's part.
   */
  lemma ReportFileNameNoWhitespace(userName: string, date: string)
    ensures var f := ReportFileName(userName, date); var end := |f| - |date| - 5;
      && 13 <= end
      && f[..13] == "HealthReport-"
      && f[end..] == "-" + date + ".pdf"
      && forall i :: 13 <= i < end ==> !IsWhitespace(f[i])
  {
    var n := ReplaceWhitespaceRuns(userName, "_");
    var f := ReportFileName(userName, date);
    assert f == "HealthReport-" + n + ("-" + date + ".pdf");
    assert forall i :: 13 <= i < 13 + |n| ==> f[i] == n[i - 13];
  }

  /** A first and a last name with white space between them are joined by one `_`. */
  lemma ReportFileNameOfTwoWords(first: string, gap: string, last: string, date: string)
    requires NoWhitespace(first) && NoWhitespace(last)
    requires gap != [] && AllWhitespace(gap)
    ensures ReportFileName(first + gap + last, date) == "HealthReport-" + first + "_" + last + "-" + date + ".pdf"
  {
    TwoWords(first, gap, last, "_");
  }

  /** A downloaded report: its file name and its sections. */
  datatype Report = Report(fileName: string, sections: seq<Section>)

  /** The screen's state: each metric's selected tab and whether a report is being generated. */
  class ReportsView {
    var activeTabs: map<string, Window>
    var isGenerating: bool

    constructor()
      ensures activeTabs == map[] && !isGenerating
    {
      activeTabs := map[];
      isGenerating := false;
    }

    /** `activeTabs[name] || 'Week'` */
    function ActiveTab(name: string): (tab: Window)
      reads this
      ensures name !in activeTabs ==> tab == Week
      ensures name in activeTabs ==> tab == activeTabs[name]
    {
      if name in activeTabs then activeTabs[name] else Week
    }

    /** The series the metric's chart shows: the monthly one under the Month tab, the weekly one otherwise. */
    function ChartData(name: string, week: Record<seq<HealthDataPoint>>, month: Record<seq<HealthDataPoint>>)
      : (r: Option<seq<HealthDataPoint>>)
      reads this
      ensures ActiveTab(name) == Month ==> r == Get(month, name)
      ensures ActiveTab(name) == Week ==> r == Get(week, name)
    {
      if ActiveTab(name) == Week then Get(week, name) else Get(month, name)
    }

    /** A tab button: ignored while a report is being generated. */
    method SelectTab(name: string, tab: Window)
      modifies this`activeTabs
      ensures isGenerating ==> activeTabs == old(activeTabs)
      ensures !isGenerating ==> activeTabs == old(activeTabs)[name := tab]
    {
      if !isGenerating {
        activeTabs := activeTabs[name := tab];
      }
    }

    /**
     * One metric's part of `handleDownload`: its statistics and
     * interpretation, then a chart captured under the Week tab and one under
     * the Month tab, each only when that window has data.
     */
    method WriteSection(name: string, week: Record<seq<HealthDataPoint>>, month: Record<seq<HealthDataPoint>>,
                        ask: string -> Option<string>)
      returns (section: Section)
      modifies this`activeTabs
      ensures section == SectionFor(name, week, month, ask)
    {
      var weekly := WindowValues(week, name);
      var monthly := WindowValues(month, name);
      var charts: seq<Chart> := [];
      if |weekly| > 0 {
        activeTabs := activeTabs[name := Week];
        charts := charts + [Chart(Week, ChartData(name, week, month))];
      }
      assert charts == WindowChart(Week, week, name);
      if |monthly| > 0 {
        activeTabs := activeTabs[name := Month];
        charts := charts + [Chart(Month, ChartData(name, week, month))];
      }
      assert charts == WindowChart(Week, week, name) + WindowChart(Month, month, name);
      var interpretation := Interpretation(|weekly| > 0 || |monthly| > 0, ask(name));
      section := Section(name, Render(CalculateStats(weekly)), Render(CalculateStats(monthly)), interpretation, charts);
    }

    /** The `for (const metric of allMetricsWithData)` loop: one section per metric, in order. */
    method WriteSections(metrics: seq<ReportMetric>, week: Record<seq<HealthDataPoint>>,
                         month: Record<seq<HealthDataPoint>>, ask: string -> Option<string>)
      returns (sections: seq<Section>)
      modifies this`activeTabs
      ensures |sections| == |metrics|
      ensures forall j :: 0 <= j < |metrics| ==> sections[j] == SectionFor(metrics[j].name, week, month, ask)
    {
      sections := [];
      var i := 0;
      while i < |metrics|
        invariant 0 <= i <= |metrics|
        invariant |sections| == i
        invariant forall j :: 0 <= j < i ==> sections[j] == SectionFor(metrics[j].name, week, month, ask)
      {
        var section := WriteSection(metrics[i].name, week, month, ask);
        sections := sections + [section];
        i := i + 1;
      }
    }

    /**
     * `handleDownload`. With nothing to report it does nothing. Otherwise it
     * writes one section per listed metric, switching the metric's tab to
     * Week and then Month to capture the charts, and at the end restores
     * the tabs and clears the generating flag.
     */
    method Download(extra: seq<string>, week: Record<seq<HealthDataPoint>>, month: Record<seq<HealthDataPoint>>,
                    userName: string, date: string, ask: string -> Option<string>)
      returns (report: Option<Report>)
      modifies this`activeTabs, this`isGenerating
      ensures AllWithData(extra, week) == [] ==>
        report.None? && activeTabs == old(activeTabs) && isGenerating == old(isGenerating)
      ensures AllWithData(extra, week) != [] ==> !isGenerating && activeTabs == old(activeTabs)
      ensures (AllWithData(extra, week) != [] ==>
        && report.Some?
        && report.value.fileName == ReportFileName(userName, date)
        && |report.value.sections| == |AllWithData(extra, week)|
        && forall i :: 0 <= i < |report.value.sections| ==>
             report.value.sections[i] == SectionFor(AllWithData(extra, week)[i].name, week, month, ask))
    {
      var metrics := AllWithData(extra, week);
      if |metrics| == 0 {
        return None;
      }
      isGenerating := true;
      var originalTabs := activeTabs;
      var sections := WriteSections(metrics, week, month, ask);
      activeTabs := originalTabs;
      isGenerating := false;
      report := Some(Report(ReportFileName(userName, date), sections));
    }
  }
}
