/**
 * The per-metric history windows: trailing 7-day and 30-day series of
 * points, created zero-filled and updated by overwriting today's point.
 */
module TimeSeries {
  import opened Optional
  import opened Text
  import opened Numbers
  import opened Records
  import opened HealthTypes
  import opened Registry

  /** The weekly and the monthly history. */
  datatype Window = Week | Month {
    /** How many days the window covers, ending with today. */
    function Length(): (n: nat)
      ensures n == 7 || n == 30
      ensures this == Week <==> n == 7
    {
      match this
      case Week => 7
      case Month => 30
    }
  }

  const WeekdayNames: seq<string> := ["Thu", "Fri", "Sat", "Sun", "Mon", "Tue", "Wed"]

  /** `toLocaleString('en-us', { weekday: 'short' })`; day 0 (1970-01-01) is a Thursday. */
  function WeekdayLabel(d: Day): (s: string)
    ensures s in WeekdayNames
  {
    WeekdayNames[d % 7]
  }

  /** 1970-01-01, day 0, is a Thursday; the next day is a Friday. */
  lemma WeekdayLabelEpoch()
    ensures WeekdayLabel(0) == "Thu" && WeekdayLabel(1) == "Fri" && WeekdayLabel(-1) == "Wed"
  {
  }

  /** Consecutive days take consecutive names of Thu, Fri, …, Wed, wrapping after Wed. */
  lemma WeekdayLabelNext(d: Day, k: nat)
    requires k < 7 && WeekdayLabel(d) == WeekdayNames[k]
    ensures WeekdayLabel(d + 1) == WeekdayNames[(k + 1) % 7]
  {
  }

  /** A day's label repeats every seven days. */
  lemma WeekdayLabelPeriodic(d: Day)
    ensures WeekdayLabel(d + 7) == WeekdayLabel(d)
  {
  }

  /** `getDate()`: the day of the month, by the proleptic Gregorian calendar. */
  function DayOfMonth(d: Day): (m: nat)
    ensures 1 <= m <= 31
  {
    var z := d + 719468;
    var era := z / 146097;
    var doe := z - era * 146097;
    var yoe := (doe - doe / 1460 + doe / 36524 - doe / 146096) / 365;
    var doy := doe - (365 * yoe + yoe / 4 - yoe / 100);
    var mp := (5 * doy + 2) / 153;
    DayInMonth(doy, mp)
  }

  /** The day within the March-based month `mp` of the day of the year `doy`. */
  function DayInMonth(doy: int, mp: int): (m: nat)
    requires mp == (5 * doy + 2) / 153
    ensures 1 <= m <= 31
  {
    var q := (153 * mp + 2) / 5;
    assert 153 * mp <= 5 * doy + 2 < 153 * mp + 153;
    assert 5 * q <= 153 * mp + 2 < 5 * q + 5;
    doy - q + 1
  }

  /** DayOfMonth, given the era's day `doe`, the year of the era `yoe`, the day of the year `doy` and its month `mp`. */
  lemma DayOfMonthVia(d: Day, doe: int, yoe: int, doy: int, mp: int)
    requires doe == d + 719468 - (d + 719468) / 146097 * 146097
    requires yoe == (doe - doe / 1460 + doe / 36524 - doe / 146096) / 365
    requires doy == doe - (365 * yoe + yoe / 4 - yoe / 100)
    requires mp == (5 * doy + 2) / 153
    ensures DayOfMonth(d) == doy - (153 * mp + 2) / 5 + 1
  {
  }

  /** 1970-01-01 is the first of January and 1970-01-31 its last day. */
  lemma DayOfMonthJanuary()
    ensures DayOfMonth(0) == 1 && DayOfMonth(30) == 31
  {
    DayOfMonthVia(0, 135080, 369, 306, 10);
    DayOfMonthVia(30, 135110, 369, 336, 10);
  }

  /** 1970-02-01 follows 1970-01-31. */
  lemma DayOfMonthFebruary()
    ensures DayOfMonth(31) == 1
  {
    DayOfMonthVia(31, 135111, 369, 337, 11);
  }

  /** In a common year, 1970-03-01 follows 1970-02-28. */
  lemma DayOfMonthCommonMarch()
    ensures DayOfMonth(58) == 28 && DayOfMonth(59) == 1
  {
    DayOfMonthVia(58, 135138, 369, 364, 11);
    DayOfMonthVia(59, 135139, 370, 0, 0);
  }

  /** In a leap year, 2000-02-29 lies between 2000-02-28 and 2000-03-01. */
  lemma DayOfMonthLeapDay()
    ensures DayOfMonth(11015) == 28 && DayOfMonth(11016) == 29 && DayOfMonth(11017) == 1
  {
    assert 146095 / 36524 == 3 && 146096 / 36524 == 4 && 146096 / 146096 == 1;
    DayOfMonthVia(11015, 146095, 399, 364, 11);
    DayOfMonthVia(11016, 146096, 399, 365, 11);
    DayOfMonthVia(11017, 0, 0, 0, 0);
  }

  /**
   * Within a March-based year the next day is either the next day of the
   * same month or the first of the next month.
   */
  lemma DayInMonthNext(doy: int)
    requires 0 <= doy < 365
    ensures var m, m' := DayInMonth(doy, (5 * doy + 2) / 153), DayInMonth(doy + 1, (5 * (doy + 1) + 2) / 153);
      m' == m + 1 || (m' == 1 && m >= 30)
  {
    var mp, mp' := (5 * doy + 2) / 153, (5 * (doy + 1) + 2) / 153;
    assert 0 <= mp <= 11;
    assert mp' == mp || mp' == mp + 1;
    if mp' == mp + 1 {
      assert 5 * doy + 2 < 153 * mp + 153 <= 5 * doy + 7;
    }
  }

  /** The chart label of a day in a window: weekday name or day of the month. */
  function Label(w: Window, d: Day): (s: string)
    ensures w == Week ==> s in WeekdayNames && s == WeekdayLabel(d)
    ensures w == Month ==> AllDigits(s) && s != "" && DigitsValue(s) == DayOfMonth(d)
  {
    match w
    case Week => WeekdayLabel(d)
    case Month => NatToStringValue(DayOfMonth(d)); NatToString(DayOfMonth(d))
  }

  /** The zero-valued point the bootstrap creates for day `d`. */
  function ZeroPoint(w: Window, d: Day): HealthDataPoint {
    HealthDataPoint(d, Label(w, d), 0.0)
  }

  /** The window as the bootstrap builds it: one zero point per day, today - (n-1) up to today. */
  function ZeroWindow(w: Window, today: Day): seq<HealthDataPoint> {
    seq(w.Length(), i requires 0 <= i < w.Length() => ZeroPoint(w, today - (w.Length() - 1) + i))
  }

  /**
   * A fresh window has exactly `n` points, dated today - (n-1) … today,
   * one day apart and so in strictly increasing order.
   */
  lemma ZeroWindowDates(w: Window, today: Day)
    ensures |ZeroWindow(w, today)| == w.Length()
    ensures ZeroWindow(w, today)[0].date == today - (w.Length() - 1)
    ensures ZeroWindow(w, today)[w.Length() - 1].date == today
    ensures forall i :: 0 <= i < w.Length() - 1 ==> ZeroWindow(w, today)[i + 1].date == ZeroWindow(w, today)[i].date + 1
    ensures forall i, j :: 0 <= i < j < w.Length() ==> ZeroWindow(w, today)[i].date < ZeroWindow(w, today)[j].date
  {
    var z := ZeroWindow(w, today);
    var n := w.Length();
    forall i | 0 <= i < n
      ensures z[i].date == today - (n - 1) + i
    {
      ZeroWindowDate(w, today, i);
    }
  }

  /** Point `i` of a fresh window is the zero point of day today - (n-1) + i. */
  lemma ZeroWindowPoints(w: Window, today: Day)
    ensures |ZeroWindow(w, today)| == w.Length()
    ensures forall i :: 0 <= i < w.Length() ==> ZeroWindow(w, today)[i] == ZeroPoint(w, today - (w.Length() - 1) + i)
  {
  }

  lemma ZeroWindowDate(w: Window, today: Day, i: int)
    requires 0 <= i < w.Length()
    ensures ZeroWindow(w, today)[i].date == today - (w.Length() - 1) + i
  {
    ZeroWindowPoints(w, today);
  }

  /** Every point of a fresh window is zero and carries its day's label. */
  lemma ZeroWindowValues(w: Window, today: Day)
    ensures forall i :: 0 <= i < |ZeroWindow(w, today)| ==>
      ZeroWindow(w, today)[i].value == 0.0 && ZeroWindow(w, today)[i].name == Label(w, ZeroWindow(w, today)[i].date)
  {
    var z := ZeroWindow(w, today);
    var n := w.Length();
    assert forall i :: 0 <= i < n ==> z[i] == ZeroPoint(w, today - (n - 1) + i);
  }

  /** The bootstrap loop: push the points for today - (n-1) down to today. */
  method BuildWindow(w: Window, today: Day) returns (series: seq<HealthDataPoint>)
    ensures series == ZeroWindow(w, today)
  {
    var n := w.Length();
    series := [];
    var i: int := n - 1;
    while i >= 0
      invariant -1 <= i <= n - 1
      invariant series == ZeroWindow(w, today)[..n - 1 - i]
    {
      ZeroWindowGrows(w, today, i);
      series := series + [ZeroPoint(w, today - i)];
      i := i - 1;
    }
    assert ZeroWindow(w, today)[..n] == ZeroWindow(w, today);
  }

  /** Going back `i` days from today, the window's prefix grows by the zero point of day `today - i`. */
  lemma ZeroWindowGrows(w: Window, today: Day, i: nat)
    requires i < w.Length()
    ensures var n := w.Length();
      ZeroWindow(w, today)[..n - i] == ZeroWindow(w, today)[..n - 1 - i] + [ZeroPoint(w, today - i)]
  {
    var n, z := w.Length(), ZeroWindow(w, today);
    assert z[n - 1 - i] == ZeroPoint(w, today - i);
    assert z[..n - i] == z[..n - 1 - i] + [z[n - 1 - i]];
  }

  /** Every series of the history is the fresh window of `w` ending `today`. */
  predicate AllFresh(history: Record<seq<HealthDataPoint>>, w: Window, today: Day) {
    forall k :: k in history.entries ==> history.entries[k] == ZeroWindow(w, today)
  }

  /** The series of each primary vital in a fresh history, in vital order. */
  method InitialHistory(w: Window, today: Day) returns (history: Record<seq<HealthDataPoint>>)
    ensures history.keys == VitalNames
    ensures AllFresh(history, w, today)
  {
    history := Empty();
    VitalNamesDistinct();
    var k := 0;
    while k < |VitalNames|
      invariant 0 <= k <= |VitalNames|
      invariant history.keys == VitalNames[..k]
      invariant forall n :: n in history.entries ==> history.entries[n] == ZeroWindow(w, today)
    {
      var series := BuildWindow(w, today);
      DistinctNotInPrefix(VitalNames, k);
      history := Set(history, VitalNames[k], series);
      k := k + 1;
    }
  }

  /** `series.map(p => p.date === today ? { ...p, value: v } : p)` */
  function Upsert(series: seq<HealthDataPoint>, today: Day, v: real): (r: seq<HealthDataPoint>)
    ensures |r| == |series|
    ensures forall i :: 0 <= i < |series| && series[i].date == today ==> r[i] == series[i].(value := v)
    ensures forall i :: 0 <= i < |series| && series[i].date != today ==> r[i] == series[i]
  {
    if series == [] then []
    else [if series[0].date == today then series[0].(value := v) else series[0]] + Upsert(series[1..], today, v)
  }

  /** A series without a point dated today is left as it is. */
  lemma UpsertWithoutToday(series: seq<HealthDataPoint>, today: Day, v: real)
    requires forall i :: 0 <= i < |series| ==> series[i].date != today
    ensures Upsert(series, today, v) == series
  {
  }

  /** A later save of the same day replaces an earlier one. */
  lemma UpsertOverwrites(series: seq<HealthDataPoint>, today: Day, v1: real, v2: real)
    ensures Upsert(Upsert(series, today, v1), today, v2) == Upsert(series, today, v2)
  {
  }

  /** The only point a save changes, dates and labels included, is today's value. */
  lemma UpsertKeepsDates(series: seq<HealthDataPoint>, today: Day, v: real)
    ensures forall i :: 0 <= i < |series| ==>
      Upsert(series, today, v)[i].date == series[i].date && Upsert(series, today, v)[i].name == series[i].name
    ensures forall i :: 0 <= i < |series| ==>
      Upsert(series, today, v)[i].value == (if series[i].date == today then v else series[i].value)
  {
  }

  /** Saving into a fresh window gives a series whose last point holds the value and every earlier one zero. */
  lemma UpsertFreshWindow(w: Window, today: Day, v: real)
    ensures |Upsert(ZeroWindow(w, today), today, v)| == w.Length()
    ensures Upsert(ZeroWindow(w, today), today, v)[w.Length() - 1].value == v
    ensures forall i :: 0 <= i < w.Length() - 1 ==> Upsert(ZeroWindow(w, today), today, v)[i].value == 0.0
  {
    var z := ZeroWindow(w, today);
    ZeroWindowDates(w, today);
    ZeroWindowValues(w, today);
    forall i | 0 <= i < w.Length() - 1 ensures Upsert(z, today, v)[i].value == 0.0 {
      assert z[i].date < today;
    }
  }

  /**
   * One history map after a save of `v` under `name`: an unknown metric
   * first receives a fresh zero window, then today's point is set.
   */
  function SaveHistory(history: Record<seq<HealthDataPoint>>, w: Window, name: string, today: Day, v: real)
    : (r: Record<seq<HealthDataPoint>>)
    ensures name in r.entries
    ensures name in history.entries ==> r.keys == history.keys && r.entries[name] == Upsert(history.entries[name], today, v)
    ensures name !in history.entries ==> r.keys == history.keys + [name] && r.entries[name] == Upsert(ZeroWindow(w, today), today, v)
    ensures forall k :: k in history.entries && k != name ==> k in r.entries && r.entries[k] == history.entries[k]
  {
    var base := if name in history.entries then history else Set(history, name, ZeroWindow(w, today));
    Set(base, name, Upsert(base.entries[name], today, v))
  }

  /** A history after a save whose text parsed to `parsed`: unchanged when it did not parse. */
  function SaveParsed(history: Record<seq<HealthDataPoint>>, w: Window, name: string, today: Day, parsed: Option<real>)
    : Record<seq<HealthDataPoint>>
  {
    match parsed
    case None => history
    case Some(v) => SaveHistory(history, w, name, today, v)
  }

  /** `parseFloat(value.split('/')[0])`, with `None` for NaN. */
  function SavedValue(value: string): Option<real> {
    ParseFloat(SplitHead(value, "/"))
  }

  /** A reading "S/D" stores S: "130/85" stores 130. */
  lemma SavedValueOfPair(s: nat, d: nat)
    ensures SavedValue(NatToString(s) + "/" + NatToString(d)) == Some(s as real)
  {
    var a := NatToString(s);
    forall i | 0 <= i < |a| ensures a[i] !in "/" {
      assert IsDigit(a[i]);
    }
    SplitHeadAt(a, "/", NatToString(d));
    ParseFloatNat(s);
  }

  /** A whole number saved as text stores that number. */
  lemma SavedValueOfNat(n: nat)
    ensures SavedValue(NatToString(n)) == Some(n as real)
  {
    var a := NatToString(n);
    forall i | 0 <= i < |a| ensures a[i] !in "/" {
      assert IsDigit(a[i]);
    }
    SplitHeadNoOccurrence(a, "/");
    ParseFloatNat(n);
  }

  /** The values of the points above zero, in series order. */
  function Positives(points: seq<HealthDataPoint>): (vs: seq<real>)
    ensures |vs| <= |points|
    ensures forall i :: 0 <= i < |vs| ==> vs[i] > 0.0
    ensures forall p :: p in points && p.value > 0.0 ==> p.value in vs
    ensures |points| == 1 ==> vs == (if points[0].value > 0.0 then [points[0].value] else [])
  {
    if points == [] then []
    else (if points[0].value > 0.0 then [points[0].value] else []) + Positives(points[1..])
  }

  /** The filter keeps the series order: the values of a joined series are those of each part, in turn. */
  lemma {:induction false} PositivesAppend(s: seq<HealthDataPoint>, t: seq<HealthDataPoint>)
    ensures Positives(s + t) == Positives(s) + Positives(t)
  {
    if s != [] {
      var head := if s[0].value > 0.0 then [s[0].value] else [];
      assert (s + t)[0] == s[0] && (s + t)[1..] == s[1..] + t;
      assert Positives(s + t) == head + Positives(s[1..] + t);
      assert Positives(s) == head + Positives(s[1..]);
      PositivesAppend(s[1..], t);
      ConcatAssoc(head, Positives(s[1..]), Positives(t));
    } else {
      assert s + t == t;
    }
  }

  /** A zero-filled window has no point above zero, so a fresh history says nothing. */
  lemma ZeroWindowHasNoPositives(w: Window, today: Day)
    ensures Positives(ZeroWindow(w, today)) == []
  {
    var z := ZeroWindow(w, today);
    ZeroWindowValues(w, today);
    if Positives(z) != [] {
      var v := Positives(z)[0];
      assert v in Positives(z);
      PositivesFrom(z, v);
    }
  }

  lemma {:induction false} PositivesFrom(points: seq<HealthDataPoint>, v: real)
    requires v in Positives(points)
    ensures exists p :: p in points && p.value == v
  {
    if points != [] {
      if points[0].value > 0.0 && v == points[0].value {
        assert points[0] in points;
      } else {
        PositivesFrom(points[1..], v);
        var p :| p in points[1..] && p.value == v;
        assert p in points;
      }
    }
  }
}
