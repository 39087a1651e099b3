/**
 * The dashboard's AI summary: the metrics text sent to the model, the
 * early exit when there is nothing to send, the handling of the streamed
 * reply and of its alerts JSON, the error message, and the chart colour
 * of a vital card.
 */
module Dashboard {
  import opened Optional
  import opened Text
  import opened Records
  import opened HealthTypes
  import opened Stream

  /** `${name}: ${value} ${unit}` */
  function Item(name: string, value: string, unit: string): (s: string)
    ensures |s| > |name| && s[|name|] == ':'
  {
    name + ": " + value + " " + unit
  }

  /** A metrics text is never blank once it holds an item: the `:` of the item is not white space. */
  lemma ItemNotBlank(name: string, value: string, unit: string)
    ensures !IsBlank(Item(name, value, unit))
  {
    var s := Item(name, value, unit);
    BlankIffAllWhitespace(s);
    assert !IsWhitespace(s[|name|]);
  }

  /** The vitals with a present value, as items, in list order. */
  function VitalItems(vitals: seq<Vital>): (r: seq<string>)
    ensures |r| <= |vitals|
    ensures forall v :: v in vitals && Present(v.value) ==> Item(v.name, v.value, v.unit) in r
    ensures forall s :: s in r ==> exists v :: v in vitals && Present(v.value) && s == Item(v.name, v.value, v.unit)
    ensures |vitals| == 1 ==>
      r == (if Present(vitals[0].value) then [Item(vitals[0].name, vitals[0].value, vitals[0].unit)] else [])
  {
    if vitals == [] then []
    else
      var v := vitals[0];
      (if Present(v.value) then [Item(v.name, v.value, v.unit)] else []) + VitalItems(vitals[1..])
  }

  /** The items keep the list order: the items of a joined list are those of each part, in turn. */
  lemma {:induction false} VitalItemsAppend(s: seq<Vital>, t: seq<Vital>)
    ensures VitalItems(s + t) == VitalItems(s) + VitalItems(t)
  {
    if s != [] {
      var head := if Present(s[0].value) then [Item(s[0].name, s[0].value, s[0].unit)] else [];
      assert (s + t)[0] == s[0] && (s + t)[1..] == s[1..] + t;
      assert VitalItems(s + t) == head + VitalItems(s[1..] + t);
      assert VitalItems(s) == head + VitalItems(s[1..]);
      VitalItemsAppend(s[1..], t);
      ConcatAssoc(head, VitalItems(s[1..]), VitalItems(t));
    } else {
      assert s + t == t;
    }
  }

  /** The extra metric `name` has a present reading. */
  predicate HasReading(data: Record<Reading>, name: string) {
    name in data.entries && Present(data.entries[name].value)
  }

  /** The names with a present reading, as items, in the order given. */
  function ReadingItems(names: seq<string>, data: Record<Reading>): (r: seq<string>)
    ensures |r| <= |names|
    ensures forall n :: n in names && HasReading(data, n) ==>
      Item(n, data.entries[n].value, data.entries[n].unit) in r
    ensures forall s :: s in r ==>
      exists n :: n in names && HasReading(data, n) && s == Item(n, data.entries[n].value, data.entries[n].unit)
  {
    if names == [] then []
    else
      var n := names[0];
      (if HasReading(data, n) then [Item(n, data.entries[n].value, data.entries[n].unit)] else [])
        + ReadingItems(names[1..], data)
  }

  /** The items keep the order of the names: the items of joined name lists are those of each part, in turn. */
  lemma {:induction false} ReadingItemsAppend(s: seq<string>, t: seq<string>, data: Record<Reading>)
    ensures ReadingItems(s + t, data) == ReadingItems(s, data) + ReadingItems(t, data)
  {
    if s != [] {
      var head := if HasReading(data, s[0]) then [Item(s[0], data.entries[s[0]].value, data.entries[s[0]].unit)] else [];
      assert (s + t)[0] == s[0] && (s + t)[1..] == s[1..] + t;
      assert ReadingItems(s + t, data) == head + ReadingItems(s[1..] + t, data);
      assert ReadingItems(s, data) == head + ReadingItems(s[1..], data);
      ReadingItemsAppend(s[1..], t, data);
      ConcatAssoc(head, ReadingItems(s[1..], data), ReadingItems(t, data));
    } else {
      assert s + t == t;
    }
  }

  /** `parts.filter(Boolean)` */
  function NonEmpty(parts: seq<string>): (r: seq<string>)
    ensures forall s :: s in r <==> s in parts && s != ""
  {
    if parts == [] then [] else (if parts[0] != "" then [parts[0]] else []) + NonEmpty(parts[1..])
  }

  /** `getFullMetricsString`: the vital items, then the extra-metric items, with empty groups dropped. */
  function MetricsString(vitals: seq<Vital>, extra: seq<string>, data: Record<Reading>): string {
    Join(NonEmpty([Join(VitalItems(vitals), ", "), Join(ReadingItems(extra, data), ", ")]), ", ")
  }

  lemma VitalGroupEmpty(vitals: seq<Vital>)
    ensures Join(VitalItems(vitals), ", ") == "" <==> forall v :: v in vitals ==> !Present(v.value)
  {
    var items := VitalItems(vitals);
    forall s | s in items ensures s != "" {
      var v :| v in vitals && Present(v.value) && s == Item(v.name, v.value, v.unit);
    }
    JoinEmpty(items, ", ");
    if items != [] {
      assert items[0] in items;
    }
  }

  lemma ReadingGroupEmpty(extra: seq<string>, data: Record<Reading>)
    ensures Join(ReadingItems(extra, data), ", ") == "" <==> forall n :: n in extra ==> !HasReading(data, n)
  {
    var items := ReadingItems(extra, data);
    forall s | s in items ensures s != "" {
      var n :| n in extra && HasReading(data, n) && s == Item(n, data.entries[n].value, data.entries[n].unit);
    }
    JoinEmpty(items, ", ");
    if items != [] {
      assert items[0] in items;
    }
  }

  /** The metrics text is empty exactly when no vital and no selected extra metric has a present value. */
  lemma MetricsStringEmpty(vitals: seq<Vital>, extra: seq<string>, data: Record<Reading>)
    ensures MetricsString(vitals, extra, data) == "" <==>
      (forall v :: v in vitals ==> !Present(v.value)) && (forall n :: n in extra ==> !HasReading(data, n))
  {
    var p, e := Join(VitalItems(vitals), ", "), Join(ReadingItems(extra, data), ", ");
    VitalGroupEmpty(vitals);
    ReadingGroupEmpty(extra, data);
    var groups := NonEmpty([p, e]);
    JoinEmpty(groups, ", ");
    if p != "" {
      assert p in groups;
    }
    if e != "" {
      assert e in groups;
    }
    if groups != [] {
      assert groups[0] in groups;
    }
  }

  /** With both groups present the metrics text is the vital group, a comma, then the extra group. */
  lemma MetricsStringBothGroups(vitals: seq<Vital>, extra: seq<string>, data: Record<Reading>)
    requires exists v :: v in vitals && Present(v.value)
    requires exists n :: n in extra && HasReading(data, n)
    ensures MetricsString(vitals, extra, data)
      == Join(VitalItems(vitals), ", ") + ", " + Join(ReadingItems(extra, data), ", ")
  {
    var p, e := Join(VitalItems(vitals), ", "), Join(ReadingItems(extra, data), ", ");
    VitalGroupEmpty(vitals);
    ReadingGroupEmpty(extra, data);
    assert p != "" && e != "";
    NonEmptyOfTwo(p, e);
    assert Join([p, e], ", ") == p + ", " + Join([e], ", ");
  }

  lemma NonEmptyOfTwo(p: string, e: string)
    requires p != "" && e != ""
    ensures NonEmpty([p, e]) == [p, e]
  {
    assert [p, e][1..] == [e];
    assert NonEmpty([e]) == [e] by { assert [e][1..] == []; }
  }

  lemma JoinKeepsFirst(parts: seq<string>, sep: string, i: int)
    requires parts != [] && 0 <= i < |parts[0]|
    ensures i < |Join(parts, sep)| && Join(parts, sep)[i] == parts[0][i]
  {
  }

  /** A metrics text with any item is not blank, so the request is made. */
  lemma MetricsStringNotBlank(vitals: seq<Vital>, extra: seq<string>, data: Record<Reading>)
    requires MetricsString(vitals, extra, data) != ""
    ensures !IsBlank(MetricsString(vitals, extra, data))
  {
    var m := MetricsString(vitals, extra, data);
    var groups := NonEmpty([Join(VitalItems(vitals), ", "), Join(ReadingItems(extra, data), ", ")]);
    var i := GroupColon(vitals, extra, data);
    JoinKeepsFirst(groups, ", ", i);
    assert m[i] == ':';
    BlankIffAllWhitespace(m);
  }

  /** The first non-empty group starts with an item, whose name is followed by `:`. */
  lemma GroupColon(vitals: seq<Vital>, extra: seq<string>, data: Record<Reading>) returns (i: nat)
    requires MetricsString(vitals, extra, data) != ""
    ensures var groups := NonEmpty([Join(VitalItems(vitals), ", "), Join(ReadingItems(extra, data), ", ")]);
      groups != [] && i < |groups[0]| && groups[0][i] == ':'
  {
    var p, e := Join(VitalItems(vitals), ", "), Join(ReadingItems(extra, data), ", ");
    var groups := NonEmpty([p, e]);
    assert groups != [];
    assert groups[0] in groups;
    var items := if groups[0] == p then VitalItems(vitals) else ReadingItems(extra, data);
    assert groups[0] == Join(items, ", ");
    assert items != [] && items[0] in items;
    if groups[0] == p {
      var v :| v in vitals && Present(v.value) && items[0] == Item(v.name, v.value, v.unit);
      i := |v.name|;
    } else {
      var n :| n in extra && HasReading(data, n) && items[0] == Item(n, data.entries[n].value, data.entries[n].unit);
      i := |n|;
    }
    JoinKeepsFirst(items, ", ", i);
  }

  /** The dashboard asks the model exactly when some vital or selected extra metric has a present value. */
  lemma MetricsBlankIffNothingPresent(vitals: seq<Vital>, extra: seq<string>, data: Record<Reading>)
    ensures IsBlank(MetricsString(vitals, extra, data)) <==>
      (forall v :: v in vitals ==> !Present(v.value)) && (forall n :: n in extra ==> !HasReading(data, n))
  {
    MetricsStringEmpty(vitals, extra, data);
    if MetricsString(vitals, extra, data) != "" {
      MetricsStringNotBlank(vitals, extra, data);
    }
  }

  /** The text shown instead of a request when there is nothing to analyse. */
  const NothingToAnalyse: string := "Add some vitals or measures to get your AI summary."

  const HighTraffic: string := "AI analysis is currently unavailable due to high traffic. Please try again in a moment."

  const CouldNotLoad: string := "Could not load AI summary at the moment."

  /** The message shown when the request or the stream fails with the error text `e`. */
  function ErrorMessage(e: string): (m: string)
    ensures m == HighTraffic <==> Contains(e, "429") || Contains(e, "RESOURCE_EXHAUSTED")
    ensures m == HighTraffic || m == CouldNotLoad
  {
    if Contains(e, "429") || Contains(e, "RESOURCE_EXHAUSTED") then HighTraffic else CouldNotLoad
  }

  /**
   * The JSON text to parse: from the first `{` to the last `}` inclusive,
   * when both exist and the last comes after the first.
   */
  function JsonCandidate(s: string): (r: Option<string>)
    ensures r.Some? <==> exists i, j :: 0 <= i < j < |s| && s[i] == '{' && s[j] == '}'
    ensures r.Some? ==>
      exists i, j :: (0 <= i < j < |s| && r.value == s[i..j + 1] && s[i] == '{' && s[j] == '}'
                      && (forall k :: 0 <= k < i ==> s[k] != '{') && (forall k :: j < k < |s| ==> s[k] != '}'))
  {
    var first := IndexOf(s, "{");
    var last := LastIndexOf(s, "}");
    CharSearch(s, first, last);
    if first != -1 && last != -1 && last > first then Some(s[first..last + 1]) else None
  }

  /** What the two searches of `JsonCandidate` find, in terms of characters. */
  lemma CharSearch(s: string, first: int, last: int)
    requires first == IndexOf(s, "{") && last == LastIndexOf(s, "}")
    ensures first != -1 ==> 0 <= first < |s| && s[first] == '{' && forall k :: 0 <= k < first ==> s[k] != '{'
    ensures first == -1 ==> forall k :: 0 <= k < |s| ==> s[k] != '{'
    ensures last != -1 ==> 0 <= last < |s| && s[last] == '}' && forall k :: last < k < |s| ==> s[k] != '}'
    ensures last == -1 ==> forall k :: 0 <= k < |s| ==> s[k] != '}'
  {
    assert "{" == ['{'] && "}" == ['}'];
    forall k | 0 <= k < |s| ensures OccursAt(s, "{", k) <==> s[k] == '{' {
      OccursAtChar1(s, '{', k);
    }
    forall k | 0 <= k < |s| ensures OccursAt(s, "}", k) <==> s[k] == '}' {
      OccursAtChar1(s, '}', k);
    }
    if first != -1 {
      OccursAtChar1(s, '{', first);
    }
    if last != -1 {
      OccursAtChar1(s, '}', last);
    }
  }

  /**
   * The alerts handed to `addAlerts`: only when the JSON buffer is not
   * blank, a candidate exists, it parses, and the parsed list is not
   * empty. `parse` stands for `JSON.parse(...).alerts`, with `None` for a
   * parse error or a missing list.
   */
  function AlertsToForward(json: string, parse: string -> Option<seq<AlertInput>>): (r: Option<seq<AlertInput>>)
    ensures r.Some? ==> |r.value| > 0 && !IsBlank(json) && JsonCandidate(json).Some?
    ensures r.Some? ==> parse(JsonCandidate(json).value) == r
    ensures (JsonCandidate(json).Some? && parse(JsonCandidate(json).value).Some?
             && |parse(JsonCandidate(json).value).value| > 0) ==> r.Some?
  {
    if IsBlank(json) then
      assert JsonCandidate(json).None? by { BlankHasNoBrace(json); }
      None
    else match JsonCandidate(json)
      case None => None
      case Some(c) =>
        match parse(c)
        case None => None
        case Some(alerts) => if |alerts| > 0 then Some(alerts) else None
  }

  lemma BlankHasNoBrace(s: string)
    requires IsBlank(s)
    ensures JsonCandidate(s).None?
  {
    BlankIffAllWhitespace(s);
    forall i | 0 <= i < |s| ensures s[i] != '{' {
      assert IsWhitespace(s[i]);
    }
  }

  /** What `fetchAiInsights` leaves on the dashboard. */
  datatype Insight = Insight(summary: string, critical: bool, alerts: Option<seq<AlertInput>>, requested: bool)

  /**
   * `fetchAiInsights`: with a blank metrics text nothing is requested;
   * otherwise the reply's chunks are read as they arrive and, unless the
   * request fails (with the error text `failure`, after the chunks that did
   * arrive), the alerts found after the separator are forwarded.
   */
  method FetchInsights(metrics: string, chunks: seq<string>, failure: Option<string>,
                       parse: string -> Option<seq<AlertInput>>) returns (r: Insight)
    ensures IsBlank(metrics) ==> r == Insight(NothingToAnalyse, false, None, false)
    ensures !IsBlank(metrics) ==>
      (r.requested && (r.critical <==> Contains(SplitHead(Concat(chunks), Separator), EmergencyTag)))
    ensures !IsBlank(metrics) && failure.Some? ==> r.summary == ErrorMessage(failure.value) && r.alerts.None?
    ensures !IsBlank(metrics) && failure.None? ==>
      (r.summary == ReplaceFirst(SplitHead(Concat(chunks), Separator), EmergencyTag, "")
       && r.alerts == AlertsToForward(Run(chunks).json, parse))
  {
    if IsBlank(metrics) {
      return Insight(NothingToAnalyse, false, None, false);
    }
    var summary, json, critical, shown := ReadStream(chunks);
    if failure.Some? {
      return Insight(ErrorMessage(failure.value), critical, None, true);
    }
    var alerts := AlertsToForward(json, parse);
    r := Insight(shown, critical, alerts, true);
  }

  /** `getHexColor`: the stroke colour of the first colour name found, in the order red, sky, purple, orange, green. */
  function HexColor(colorClass: string): (hex: string)
    ensures Contains(colorClass, "red") ==> hex == "#EF4444"
    ensures !Contains(colorClass, "red") && Contains(colorClass, "sky") ==> hex == "#0EA5E9"
    ensures (!Contains(colorClass, "red") && !Contains(colorClass, "sky") && Contains(colorClass, "purple"))
            ==> hex == "#8B5CF6"
    ensures (!Contains(colorClass, "red") && !Contains(colorClass, "sky") && !Contains(colorClass, "purple")
             && Contains(colorClass, "orange")) ==> hex == "#F97316"
    ensures (!Contains(colorClass, "red") && !Contains(colorClass, "sky") && !Contains(colorClass, "purple")
             && !Contains(colorClass, "orange") && Contains(colorClass, "green")) ==> hex == "#22C55E"
    ensures hex == "#6B7280" <==>
      (!Contains(colorClass, "red") && !Contains(colorClass, "sky") && !Contains(colorClass, "purple")
       && !Contains(colorClass, "orange") && !Contains(colorClass, "green"))
  {
    if Contains(colorClass, "red") then "#EF4444"
    else if Contains(colorClass, "sky") then "#0EA5E9"
    else if Contains(colorClass, "purple") then "#8B5CF6"
    else if Contains(colorClass, "orange") then "#F97316"
    else if Contains(colorClass, "green") then "#22C55E"
    else "#6B7280"
  }
}
