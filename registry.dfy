/**
 * The static tables of the app: the five primary vitals, the catalog of
 * extra metrics, the unit table built from both, the icon table and the
 * avatar lists.
 */
module Registry {
  import opened Optional
  import opened Records
  import opened HealthTypes

  /** The primary vitals with their placeholder readings and colours. */
  const MockVitals: seq<Vital> := [
    Vital("Heart Rate", "78", "bpm", "text-red-500", "bg-red-100", None),
    Vital("SpO2", "98", "%", "text-sky-500", "bg-sky-100", None),
    Vital("Blood Pressure", "120/80", "mmHg", "text-purple-500", "bg-purple-100", None),
    Vital("Temperature", "36.8", "°C", "text-orange-500", "bg-orange-100", None),
    Vital("Glucose", "90", "mg/dL", "text-green-500", "bg-green-100", None)
  ]

  /** The names of the primary vitals, in list order. */
  const VitalNames: seq<string> := ["Heart Rate", "SpO2", "Blood Pressure", "Temperature", "Glucose"]

  /** The catalog of extra metrics, by category. */
  const ExtraMetrics: seq<MetricCategory> := [
    MetricCategory("Cardiovascular", [Metric("HRV", "ms"), Metric("ECG", "mV")]),
    MetricCategory("Respiratory", [Metric("Respiration Rate", "br/min"), Metric("Sleep Apnea", "events/hr")]),
    MetricCategory("Metabolic", [Metric("BMI", "kg/m²"), Metric("Body Fat %", "%"), Metric("Hydration", "L")]),
    MetricCategory("Stress & Sleep", [Metric("Stress Level", "1-10"), Metric("Sleep Stages", "hrs")]),
    MetricCategory("Activity", [Metric("Steps", "steps"), Metric("Calories Burned", "kcal"),
                                Metric("GPS Tracking", "km"), Metric("Gait Analysis", "m/s")]),
    MetricCategory("Environmental", [Metric("UV Index", "index"), Metric("Air Quality (AQI)", "AQI"),
                                     Metric("Noise Level", "dB")]),
    MetricCategory("Predictive / AI", [Metric("Health Score", "/100"), Metric("Fall Detection", "events")])
  ]

  /** `cats.flatMap(cat => cat.metrics)`. */
  function Flatten(cats: seq<MetricCategory>): seq<Metric> {
    if cats == [] then [] else cats[0].metrics + Flatten(cats[1..])
  }

  /** The vitals as (name, unit) pairs, in list order. */
  function VitalMetrics(): seq<Metric> {
    UnitPairs(MockVitals)
  }

  function UnitPairs(vitals: seq<Vital>): (ms: seq<Metric>)
    ensures |ms| == |vitals|
    ensures forall i :: 0 <= i < |ms| ==> ms[i] == Metric(vitals[i].name, vitals[i].unit)
  {
    seq(|vitals|, i requires 0 <= i < |vitals| => Metric(vitals[i].name, vitals[i].unit))
  }

  function Names(ms: seq<Metric>): (ns: seq<string>)
    ensures |ns| == |ms|
    ensures forall i :: 0 <= i < |ms| ==> ns[i] == ms[i].name
  {
    seq(|ms|, i requires 0 <= i < |ms| => ms[i].name)
  }

  predicate Distinct(ns: seq<string>) {
    forall i, j :: 0 <= i < j < |ns| ==> ns[i] != ns[j]
  }

  /** In a list without repeats, no name occurs before its own position. */
  lemma DistinctNotInPrefix(ns: seq<string>, k: nat)
    requires Distinct(ns) && k < |ns|
    ensures ns[k] !in ns[..k]
  {
    forall j | 0 <= j < k ensures ns[..k][j] != ns[k] {
      assert ns[..k][j] == ns[j];
    }
  }

  /** `ms.reduce((acc, m) => ({ ...acc, [m.name]: m.unit }), acc)`. */
  function AddUnits(acc: Record<string>, ms: seq<Metric>): (r: Record<string>)
    ensures forall k :: k in r.entries <==> k in acc.entries || k in Names(ms)
    decreases |ms|
  {
    if ms == [] then acc else AddUnits(Set(acc, ms[0].name, ms[0].unit), ms[1..])
  }

  /** Folding in pairs none of which is named `k` leaves the value at `k` as it was. */
  lemma {:induction false} AddUnitsOther(acc: Record<string>, ms: seq<Metric>, k: string)
    requires k !in Names(ms)
    ensures Get(AddUnits(acc, ms), k) == Get(acc, k)
    decreases |ms|
  {
    if ms != [] {
      assert Names(ms)[0] == ms[0].name;
      assert Names(ms[1..]) == Names(ms)[1..];
      AddUnitsOther(Set(acc, ms[0].name, ms[0].unit), ms[1..], k);
    }
  }

  /** With distinct names, the folded record maps each listed name to its own unit. */
  lemma {:induction false} AddUnitsListed(acc: Record<string>, ms: seq<Metric>, i: nat)
    requires Distinct(Names(ms)) && i < |ms|
    ensures Get(AddUnits(acc, ms), ms[i].name) == Some(ms[i].unit)
    decreases |ms|
  {
    var acc' := Set(acc, ms[0].name, ms[0].unit);
    assert Names(ms[1..]) == Names(ms)[1..];
    if i == 0 {
      assert ms[0].name !in Names(ms[1..]) by {
        forall j | 0 <= j < |ms[1..]| ensures Names(ms[1..])[j] != ms[0].name {
          assert Names(ms)[j + 1] != Names(ms)[0];
        }
      }
      AddUnitsOther(acc', ms[1..], ms[0].name);
    } else {
      assert ms[1..][i - 1] == ms[i];
      AddUnitsListed(acc', ms[1..], i - 1);
    }
  }

  /** The catalog's metrics, in catalog order. */
  function CatalogMetrics(): (ms: seq<Metric>)
    ensures |ms| == 18
  {
    Flatten(ExtraMetrics)
  }

  /**
   * METRIC_UNITS: the vitals' units spread first, then the catalog's,
   * each built by a reduce from an empty object.
   */
  function MetricUnits(): Record<string> {
    UnitsTable(MockVitals, ExtraMetrics)
  }

  /** The two reduces of METRIC_UNITS over a vital list and a catalog. */
  function UnitsTable(vitals: seq<Vital>, cats: seq<MetricCategory>): Record<string> {
    AddUnits(AddUnits(Empty(), UnitPairs(vitals)), Flatten(cats))
  }

  /** The keys of the unit table are the names of the vitals and of the catalog metrics. */
  lemma UnitsTableKeys(vitals: seq<Vital>, cats: seq<MetricCategory>)
    ensures forall k :: k in UnitsTable(vitals, cats).entries <==> k in Names(UnitPairs(vitals)) || k in Names(Flatten(cats))
  {
  }

  lemma VitalMetricNames()
    ensures Names(VitalMetrics()) == VitalNames
  {
  }

  /** VitalNames lists the names of MOCK_VITALS, in list order. */
  lemma VitalNamesOfVitals()
    ensures |VitalNames| == |MockVitals|
    ensures forall i :: 0 <= i < |MockVitals| ==> MockVitals[i].name == VitalNames[i]
  {
  }

  lemma VitalNamesDistinct()
    ensures Distinct(VitalNames)
  {
  }

  /** METRIC_UNITS has a unit for exactly the vitals and the catalog metrics. */
  lemma MetricUnitsKeys()
    ensures forall k :: k in MetricUnits().entries <==> k in VitalNames || k in Names(CatalogMetrics())
  {
    UnitsTableKeys(MockVitals, ExtraMetrics);
    VitalMetricNames();
  }

  /**
   * The unit of the last pair named `name` in `ms`, or `found` when there
   * is none: what looking up a key in the record the pairs were folded into
   * gives.
   */
  function LastUnit(ms: seq<Metric>, name: string, found: string): string
    decreases |ms|
  {
    if ms == [] then found
    else LastUnit(ms[1..], name, if ms[0].name == name then ms[0].unit else found)
  }

  /** The vitals' (name, unit) pairs, in list order. */
  const VitalPairs: seq<Metric> := [
    Metric("Heart Rate", "bpm"), Metric("SpO2", "%"), Metric("Blood Pressure", "mmHg"),
    Metric("Temperature", "°C"), Metric("Glucose", "mg/dL")]

  lemma VitalPairsOfVitals()
    ensures VitalMetrics() == VitalPairs
  {
  }

  /** The (name, unit) pairs METRIC_UNITS is folded from: the five vitals, then the 18 catalog metrics. */
  const UnitSources: seq<Metric> := VitalPairs + CatalogTail0

  lemma UnitSourcesInOrder()
    ensures UnitSources == VitalMetrics() + CatalogMetrics()
  {
    CatalogList();
    VitalPairsOfVitals();
  }

  /** `METRIC_UNITS[name] || ''`, by a scan of the pairs in the order they are spread. */
  function UnitFor(name: string): string {
    LastUnit(UnitSources, name, "")
  }

  lemma {:induction false} LastUnitAppend(a: seq<Metric>, b: seq<Metric>, name: string, found: string)
    ensures LastUnit(a + b, name, found) == LastUnit(b, name, LastUnit(a, name, found))
    decreases |a|
  {
    if a != [] {
      assert (a + b)[1..] == a[1..] + b;
      LastUnitAppend(a[1..], b, name, if a[0].name == name then a[0].unit else found);
    } else {
      assert a + b == b;
    }
  }

  /** Scanning the pairs agrees with looking the name up in the folded record. */
  lemma {:induction false} LastUnitIsLookup(acc: Record<string>, ms: seq<Metric>, name: string)
    ensures LastUnit(ms, name, Get(acc, name).GetOr("")) == Get(AddUnits(acc, ms), name).GetOr("")
    decreases |ms|
  {
    if ms != [] {
      var acc' := Set(acc, ms[0].name, ms[0].unit);
      LastUnitIsLookup(acc', ms[1..], name);
    }
  }

  /** The unit lookup used by the screens is a lookup in METRIC_UNITS, with '' for a missing name. */
  lemma UnitForIsMetricUnits(name: string)
    ensures UnitFor(name) == Get(MetricUnits(), name).GetOr("")
  {
    var vs := VitalMetrics();
    var cs := CatalogMetrics();
    UnitSourcesInOrder();
    LastUnitAppend(vs, cs, name, "");
    LastUnitIsLookup(Empty(), vs, name);
    LastUnitIsLookup(AddUnits(Empty(), vs), cs, name);
  }

  /** Flattening from category `k` is that category's metrics, then the rest. */
  lemma FlattenStep(cats: seq<MetricCategory>, k: nat)
    requires k < |cats|
    ensures Flatten(cats[k..]) == cats[k].metrics + Flatten(cats[k + 1..])
  {
    assert cats[k..][1..] == cats[k + 1..];
  }

  /** The catalog's metric names, in catalog order. */
  const CatalogNameList: seq<string> := [
    "HRV", "ECG", "Respiration Rate", "Sleep Apnea", "BMI", "Body Fat %", "Hydration",
    "Stress Level", "Sleep Stages", "Steps", "Calories Burned", "GPS Tracking", "Gait Analysis",
    "UV Index", "Air Quality (AQI)", "Noise Level", "Health Score", "Fall Detection"]

  /** `CatalogTailK`: the (name, unit) pairs of the catalog from category `K` on. */
  const CatalogTail6: seq<Metric> := [Metric("Health Score", "/100"), Metric("Fall Detection", "events")]
  const CatalogTail5: seq<Metric> :=
    [Metric("UV Index", "index"), Metric("Air Quality (AQI)", "AQI"), Metric("Noise Level", "dB")] + CatalogTail6
  const CatalogTail4: seq<Metric> :=
    [Metric("Steps", "steps"), Metric("Calories Burned", "kcal"), Metric("GPS Tracking", "km"),
     Metric("Gait Analysis", "m/s")] + CatalogTail5
  const CatalogTail3: seq<Metric> := [Metric("Stress Level", "1-10"), Metric("Sleep Stages", "hrs")] + CatalogTail4
  const CatalogTail2: seq<Metric> :=
    [Metric("BMI", "kg/m²"), Metric("Body Fat %", "%"), Metric("Hydration", "L")] + CatalogTail3
  const CatalogTail1: seq<Metric> :=
    [Metric("Respiration Rate", "br/min"), Metric("Sleep Apnea", "events/hr")] + CatalogTail2
  const CatalogTail0: seq<Metric> := [Metric("HRV", "ms"), Metric("ECG", "mV")] + CatalogTail1

  lemma CatalogFrom6() ensures Flatten(ExtraMetrics[6..]) == CatalogTail6 {
    FlattenStep(ExtraMetrics, 6);
    assert ExtraMetrics[7..] == [];
  }
  lemma CatalogFrom5() ensures Flatten(ExtraMetrics[5..]) == CatalogTail5 { CatalogFrom6(); FlattenStep(ExtraMetrics, 5); }
  lemma CatalogFrom4() ensures Flatten(ExtraMetrics[4..]) == CatalogTail4 { CatalogFrom5(); FlattenStep(ExtraMetrics, 4); }
  lemma CatalogFrom3() ensures Flatten(ExtraMetrics[3..]) == CatalogTail3 { CatalogFrom4(); FlattenStep(ExtraMetrics, 3); }
  lemma CatalogFrom2() ensures Flatten(ExtraMetrics[2..]) == CatalogTail2 { CatalogFrom3(); FlattenStep(ExtraMetrics, 2); }
  lemma CatalogFrom1() ensures Flatten(ExtraMetrics[1..]) == CatalogTail1 { CatalogFrom2(); FlattenStep(ExtraMetrics, 1); }

  /** The catalog flattened: its 18 (name, unit) pairs, category by category. */
  lemma CatalogList()
    ensures CatalogMetrics() == CatalogTail0
  {
    CatalogFrom1();
    FlattenStep(ExtraMetrics, 0);
    assert ExtraMetrics[0..] == ExtraMetrics;
  }

  lemma CatalogNames()
    ensures Names(CatalogMetrics()) == CatalogNameList
  {
    CatalogList();
    CatalogTailNames();
  }

  lemma CatalogTailNames()
    ensures Names(CatalogTail0) == CatalogNameList
  {
  }

  /** Two names that differ in length or in one of their first two characters are different names. */
  function NameKey(s: string): (int, char, char)
    requires |s| >= 2
  {
    (|s|, s[0], s[1])
  }

  /** Names whose keys are pairwise different are distinct. */
  lemma DistinctByKey(ns: seq<string>)
    requires forall i :: 0 <= i < |ns| ==> |ns[i]| >= 2
    requires forall i, j :: 0 <= i < j < |ns| ==> NameKey(ns[i]) != NameKey(ns[j])
    ensures Distinct(ns)
  {
  }

  lemma CatalogNameListDistinct()
    ensures Distinct(CatalogNameList)
  {
    DistinctByKey(CatalogNameList);
  }

  lemma VitalNamesNotInCatalog()
    ensures forall n :: n in VitalNames ==> n !in CatalogNameList
  {
  }

  /** No two vitals and no two catalog metrics share a name, and no catalog metric is named like a vital. */
  lemma NamesDistinct()
    ensures Distinct(VitalNames)
    ensures Distinct(Names(CatalogMetrics()))
    ensures forall n :: n in VitalNames ==> n !in Names(CatalogMetrics())
  {
    VitalNamesDistinct();
    CatalogNames();
    CatalogNameListDistinct();
    VitalNamesNotInCatalog();
  }

  /** With distinct names and no vital named like a catalog metric, the unit table maps each vital to its unit. */
  lemma UnitsTableOfVital(vitals: seq<Vital>, cats: seq<MetricCategory>, i: int)
    requires Distinct(Names(UnitPairs(vitals))) && Distinct(Names(Flatten(cats)))
    requires 0 <= i < |vitals| && vitals[i].name !in Names(Flatten(cats))
    ensures Get(UnitsTable(vitals, cats), vitals[i].name) == Some(vitals[i].unit)
  {
    AddUnitsListed(Empty(), UnitPairs(vitals), i);
    AddUnitsOther(AddUnits(Empty(), UnitPairs(vitals)), Flatten(cats), vitals[i].name);
  }

  /** With distinct catalog names, the unit table maps each catalog metric to its unit. */
  lemma UnitsTableOfCatalog(vitals: seq<Vital>, cats: seq<MetricCategory>, i: int)
    requires Distinct(Names(Flatten(cats)))
    requires 0 <= i < |Flatten(cats)|
    ensures Get(UnitsTable(vitals, cats), Flatten(cats)[i].name) == Some(Flatten(cats)[i].unit)
  {
    AddUnitsListed(AddUnits(Empty(), UnitPairs(vitals)), Flatten(cats), i);
  }

  /** METRIC_UNITS maps each vital to the unit of its MOCK_VITALS entry. */
  lemma MetricUnitsOfVitals()
    ensures forall i :: 0 <= i < |MockVitals| ==> Get(MetricUnits(), MockVitals[i].name) == Some(MockVitals[i].unit)
  {
    NamesDistinct();
    VitalMetricNames();
    forall i | 0 <= i < |MockVitals|
      ensures Get(MetricUnits(), MockVitals[i].name) == Some(MockVitals[i].unit)
    {
      assert MockVitals[i].name == VitalNames[i];
      UnitsTableOfVital(MockVitals, ExtraMetrics, i);
    }
  }

  /** METRIC_UNITS maps each catalog metric to its catalog unit. */
  lemma MetricUnitsOfCatalog()
    ensures forall i :: 0 <= i < |CatalogMetrics()| ==>
      Get(MetricUnits(), CatalogMetrics()[i].name) == Some(CatalogMetrics()[i].unit)
  {
    NamesDistinct();
    forall i | 0 <= i < |CatalogMetrics()|
      ensures Get(MetricUnits(), CatalogMetrics()[i].name) == Some(CatalogMetrics()[i].unit)
    {
      UnitsTableOfCatalog(MockVitals, ExtraMetrics, i);
    }
  }

  /** The keys of METRIC_ICONS, in table order: the catalog's metric names, then `Default`. */
  function IconNames(): seq<string> {
    CatalogNameList + ["Default"]
  }

  /** METRIC_ICONS has an icon for every catalog metric, in catalog order, and then the `Default` one. */
  lemma IconNamesOfCatalog()
    ensures IconNames() == Names(CatalogMetrics()) + ["Default"]
    ensures forall m :: m in CatalogMetrics() ==> m.name in IconNames()
  {
    CatalogNames();
    forall m | m in CatalogMetrics() ensures m.name in IconNames() {
      var i :| 0 <= i < |CatalogMetrics()| && CatalogMetrics()[i] == m;
      assert IconNames()[i] == m.name;
    }
  }

  /** `METRIC_ICONS[name] || METRIC_ICONS['Default']`, as the key of the icon chosen. */
  function IconFor(name: string): (icon: string)
    ensures icon in IconNames()
    ensures name in IconNames() ==> icon == name
    ensures name !in IconNames() ==> icon == "Default"
  {
    if name in IconNames() then name else "Default"
  }

  /**
   * The avatar lists. Each entry stands for an SVG data URI and is written
   * here as the gender and the circle's fill colour it draws.
   */
  function AvatarList(g: Gender): (list: seq<string>)
    ensures |list| == 4
    ensures forall a :: a in list ==> a != ""
  {
    match g
    case Female => ["avatar:female:#e91e63", "avatar:female:#9c27b0", "avatar:female:#673ab7", "avatar:female:#f44336"]
    case Male => ["avatar:male:#2196f3", "avatar:male:#4caf50", "avatar:male:#009688", "avatar:male:#03a9f4"]
    case Other => ["avatar:other:#795548", "avatar:other:#9e9e9e", "avatar:other:#ffc107", "avatar:other:#607d8b"]
  }
}
