/**
 * The app's top-level state: the live readings, the selected extra
 * metrics, the alert list, the loading/onboarding/ready phase, the user
 * profile, the two history maps and the browser storage they persist to.
 */
module App {
  import opened Optional
  import opened Records
  import opened HealthTypes
  import opened Registry
  import opened TimeSeries
  import opened AlertMerge
  import opened Avatar
  import opened Profile

  datatype AppState = Loading | Onboarding | Ready

  /** The readings the app starts with: every vital at the `--` placeholder with its own unit. */
  function InitialHealthData(): (r: Record<Reading>)
    ensures r.keys == VitalNames
    ensures forall i :: 0 <= i < |MockVitals| ==>
      MockVitals[i].name in r.entries && r.entries[MockVitals[i].name] == Reading("--", MockVitals[i].unit)
  {
    VitalNamesOfVitals();
    VitalNamesDistinct();
    Placeholders(MockVitals, VitalNames)
  }

  /** Each vital of a list at the `--` placeholder with its own unit, keyed by its name in list order. */
  function Placeholders(vitals: seq<Vital>, names: seq<string>): (r: Record<Reading>)
    requires |names| == |vitals| && Distinct(names)
    requires forall i :: 0 <= i < |vitals| ==> vitals[i].name == names[i]
    ensures r.keys == names
    ensures forall i :: 0 <= i < |vitals| ==>
      vitals[i].name in r.entries && r.entries[vitals[i].name] == Reading("--", vitals[i].unit)
  {
    RawRecord(names, map i | 0 <= i < |vitals| :: names[i] := Reading("--", vitals[i].unit))
  }

  /** The extra metrics shown before the user picks any. */
  const InitialExtraMetrics: seq<string> := ["Steps", "Sleep Stages"]

  /**
   * `vitalsForDashboard`: each vital with the live value when there is a
   * non-empty one, and the weekly series when there is one.
   */
  function OverlayVitals(vitals: seq<Vital>, data: Record<Reading>, history: Record<seq<HealthDataPoint>>)
    : (r: seq<Vital>)
    ensures |r| == |vitals|
    ensures forall i :: 0 <= i < |r| ==>
      r[i].name == vitals[i].name && r[i].unit == vitals[i].unit &&
      r[i].color == vitals[i].color && r[i].bgColor == vitals[i].bgColor
    ensures forall i :: 0 <= i < |r| ==>
      r[i].value == (if vitals[i].name in data.entries && data.entries[vitals[i].name].value != ""
                     then data.entries[vitals[i].name].value else vitals[i].value)
    ensures forall i :: 0 <= i < |r| ==>
      r[i].history == (if vitals[i].name in history.entries then Some(history.entries[vitals[i].name])
                       else vitals[i].history)
  {
    seq(|vitals|, i requires 0 <= i < |vitals| =>
      var v := vitals[i];
      v.(value := match Get(data, v.name) case Some(d) => if d.value != "" then d.value else v.value
                                         case None => v.value,
         history := match Get(history, v.name) case Some(h) => Some(h) case None => v.history))
  }

  /** Before anything is saved the dashboard shows the `--` placeholder, not the sample values. */
  lemma InitialDashboardShowsPlaceholder(history: Record<seq<HealthDataPoint>>)
    ensures forall i :: 0 <= i < |MockVitals| ==> OverlayVitals(MockVitals, InitialHealthData(), history)[i].value == "--"
  {
    forall i | 0 <= i < |MockVitals| ensures OverlayVitals(MockVitals, InitialHealthData(), history)[i].value == "--" {
      OverlayShowsReading(MockVitals, InitialHealthData(), history, i, "--");
    }
  }

  /** A vital whose live reading is non-empty shows that reading. */
  lemma OverlayShowsReading(vitals: seq<Vital>, data: Record<Reading>, history: Record<seq<HealthDataPoint>>, i: nat, value: string)
    requires i < |vitals| && value != ""
    requires vitals[i].name in data.entries && data.entries[vitals[i].name].value == value
    ensures OverlayVitals(vitals, data, history)[i].value == value
  {
  }

  /**
   * The live readings after a save: the metric gets the raw text and the
   * registered unit ('' for an unknown name); every other metric keeps its
   * reading and the key order only grows by a new name at the end.
   */
  function SaveReading(data: Record<Reading>, name: string, value: string): (r: Record<Reading>)
    ensures name in r.entries && r.entries[name] == Reading(value, UnitFor(name))
    ensures forall k :: k in data.entries && k != name ==> k in r.entries && r.entries[k] == data.entries[k]
    ensures forall k :: k in r.entries ==> k in data.entries || k == name
    ensures r.keys == if name in data.entries then data.keys else data.keys + [name]
  {
    Set(data, name, Reading(value, UnitFor(name)))
  }

  /** One history updater of `handleSaveMetric`: bootstrap the series if missing, then set today's point. */
  method SaveInto(history: Record<seq<HealthDataPoint>>, w: Window, name: string, today: Day, v: real)
    returns (r: Record<seq<HealthDataPoint>>)
    ensures r == SaveHistory(history, w, name, today, v)
  {
    var base := history;
    if name !in base.entries {
      var zeros := BuildWindow(w, today);
      base := Set(base, name, zeros);
    }
    r := Set(base, name, Upsert(base.entries[name], today, v));
  }

  class HealthApp {
    var currentView: View
    var healthData: Record<Reading>
    var extraMetrics: seq<string>
    var alerts: seq<Alert>
    var appState: AppState
    var userProfile: Option<UserProfile>
    var healthHistory: Record<seq<HealthDataPoint>>
    var healthHistoryMonth: Record<seq<HealthDataPoint>>
    var storage: Storage

    /** The state the app mounts with on day `today`, over the storage `st`. */
    constructor(today: Day, st: Storage)
      ensures currentView == Dashboard && appState == Loading && userProfile == None
      ensures healthData == InitialHealthData() && extraMetrics == InitialExtraMetrics && alerts == []
      ensures healthHistory.keys == VitalNames && healthHistoryMonth.keys == VitalNames
      ensures AllFresh(healthHistory, Week, today)
      ensures AllFresh(healthHistoryMonth, Month, today)
      ensures storage == st
    {
      var week := InitialHistory(Week, today);
      var month := InitialHistory(Month, today);
      currentView := Dashboard;
      healthData := InitialHealthData();
      extraMetrics := InitialExtraMetrics;
      alerts := [];
      appState := Loading;
      userProfile := None;
      healthHistory := week;
      healthHistoryMonth := month;
      storage := st;
    }

    /** The state shown on the dashboard. */
    function VitalsForDashboard(): seq<Vital>
      reads this
    {
      OverlayVitals(MockVitals, healthData, healthHistory)
    }

    /** The end of the splash screen: a completed onboarding restores the profile, otherwise onboarding starts. */
    method FinishLoading()
      modifies this
      ensures Restore(storage).Some? ==> userProfile == Restore(storage) && appState == Ready
      ensures Restore(storage).None? ==> userProfile == old(userProfile) && appState == Onboarding
      ensures storage == old(storage) && healthData == old(healthData) && alerts == old(alerts)
      ensures healthHistory == old(healthHistory) && healthHistoryMonth == old(healthHistoryMonth)
      ensures extraMetrics == old(extraMetrics) && currentView == old(currentView)
    {
      var restored := Restore(storage);
      if restored.Some? {
        userProfile := restored;
        appState := Ready;
      } else {
        appState := Onboarding;
      }
    }

    /** `handleOnboardingComplete`: picks the photo, persists the profile and enters the app. */
    method OnboardingComplete(name: string, age: string, g: Gender, photo: Option<string>)
      modifies this
      ensures userProfile == Some(UserProfile(name, age, g, Some(AvatarFor(name, age, g, photo))))
      ensures storage == StoreOnboarding(old(storage), userProfile.value)
      ensures appState == Ready
      ensures name != "" ==> Restore(storage) == userProfile
      ensures healthData == old(healthData) && alerts == old(alerts) && currentView == old(currentView)
      ensures healthHistory == old(healthHistory) && healthHistoryMonth == old(healthHistoryMonth)
      ensures extraMetrics == old(extraMetrics)
    {
      var finalPhoto := ChooseAvatar(name, age, g, photo);
      var p := UserProfile(name, age, g, Some(finalPhoto));
      if name != "" {
        RestoreAfterOnboarding(storage, p);
      }
      storage := StoreOnboarding(storage, p);
      userProfile := Some(p);
      appState := Ready;
    }

    /** `handleProfileUpdate`: replaces and persists the profile, then shows the profile screen. */
    method ProfileUpdate(name: string, age: string, g: Gender, photo: Option<string>)
      modifies this
      ensures userProfile == Some(UserProfile(name, age, g, photo))
      ensures storage == StoreProfile(old(storage), userProfile.value)
      ensures currentView == Profile
      ensures appState == old(appState) && healthData == old(healthData) && alerts == old(alerts)
      ensures healthHistory == old(healthHistory) && healthHistoryMonth == old(healthHistoryMonth)
      ensures extraMetrics == old(extraMetrics)
    {
      var p := UserProfile(name, age, g, photo);
      userProfile := Some(p);
      storage := StoreProfile(storage, p);
      currentView := Profile;
    }

    /**
     * `handleSaveMetric`: records the raw text and unit, and when the text
     * before the first `/` parses, sets today's point of both histories,
     * creating zero windows for a metric seen for the first time.
     */
    method SaveMetric(name: string, value: string, today: Day)
      modifies this`healthData, this`healthHistory, this`healthHistoryMonth
      ensures healthData == SaveReading(old(healthData), name, value)
      ensures healthHistory == SaveParsed(old(healthHistory), Week, name, today, SavedValue(value))
      ensures healthHistoryMonth == SaveParsed(old(healthHistoryMonth), Month, name, today, SavedValue(value))
    {
      healthData := SaveReading(healthData, name, value);
      SaveHistories(name, value, today);
    }

    /** The two history updaters of `handleSaveMetric`; unparsable text leaves both histories alone. */
    method SaveHistories(name: string, value: string, today: Day)
      modifies this`healthHistory, this`healthHistoryMonth
      ensures healthHistory == SaveParsed(old(healthHistory), Week, name, today, SavedValue(value))
      ensures healthHistoryMonth == SaveParsed(old(healthHistoryMonth), Month, name, today, SavedValue(value))
    {
      var parsed := SavedValue(value);
      if parsed.Some? {
        healthHistory := SaveInto(healthHistory, Week, name, today, parsed.value);
        healthHistoryMonth := SaveInto(healthHistoryMonth, Month, name, today, parsed.value);
      }
    }

    /** `handleAddAlerts`, with the alert ids supplied by the caller. */
    method AddAlerts(batch: seq<AlertInput>, ids: seq<real>)
      requires |ids| == |batch|
      modifies this
      ensures alerts == MergeAlerts(old(alerts), batch, ids)
      ensures healthData == old(healthData) && appState == old(appState) && userProfile == old(userProfile)
      ensures healthHistory == old(healthHistory) && healthHistoryMonth == old(healthHistoryMonth)
      ensures storage == old(storage) && extraMetrics == old(extraMetrics) && currentView == old(currentView)
    {
      alerts := MergeAlerts(alerts, batch, ids);
    }

    /** The metrics chosen in the selection dialog replace the shown extra metrics. */
    method SetExtraMetrics(ms: seq<string>)
      modifies this
      ensures extraMetrics == ms
      ensures healthData == old(healthData) && appState == old(appState) && userProfile == old(userProfile)
      ensures healthHistory == old(healthHistory) && healthHistoryMonth == old(healthHistoryMonth)
      ensures storage == old(storage) && alerts == old(alerts) && currentView == old(currentView)
    {
      extraMetrics := ms;
    }
  }

  /**
   * Saving a non-empty reading for a vital makes the dashboard show it;
   * the other vitals show what they showed before.
   */
  lemma DashboardShowsSaved(vitals: seq<Vital>, data: Record<Reading>, history: Record<seq<HealthDataPoint>>, name: string, value: string)
    requires value != ""
    ensures forall i :: 0 <= i < |vitals| && vitals[i].name == name ==>
      OverlayVitals(vitals, SaveReading(data, name, value), history)[i].value == value
    ensures forall i :: 0 <= i < |vitals| && vitals[i].name != name ==>
      OverlayVitals(vitals, SaveReading(data, name, value), history)[i].value
        == OverlayVitals(vitals, data, history)[i].value
  {
  }
}
