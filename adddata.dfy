/**
 * The manual data-entry screen: the chosen metric, the value typed for it
 * and the confirmation shown after a save.
 */
module AddData {
  import opened Optional
  import opened Text
  import opened Records
  import opened HealthTypes
  import opened Registry

  /** The metric being entered, as the screen keeps it (its icon is left out). */
  datatype Choice = Choice(name: string, unit: string, color: string, bgColor: string)

  function VitalChoice(v: Vital): Choice {
    Choice(v.name, v.unit, v.color, v.bgColor)
  }

  /** An extra metric's button: grey colours and the unit `METRIC_UNITS[name] || ''`. */
  function ExtraChoice(name: string): (c: Choice)
    ensures c.name == name && c.unit == Get(MetricUnits(), name).GetOr("")
  {
    UnitForIsMetricUnits(name);
    Choice(name, UnitFor(name), "text-gray-600", "bg-gray-100")
  }

  /** The screen's state. */
  class Form {
    var selected: Option<Choice>
    var value: string
    var showConfirmation: bool

    constructor()
      ensures selected.None? && value == "" && !showConfirmation
    {
      selected := None;
      value := "";
      showConfirmation := false;
    }

    /** The save button's `disabled`: no metric chosen or a blank value. */
    predicate SaveDisabled()
      reads this
    {
      selected.None? || IsBlank(value)
    }

    /** `handleSelectMetric`: choosing a metric clears the value typed so far. */
    method SelectMetric(c: Choice)
      modifies this`selected, this`value
      ensures selected == Some(c) && value == ""
    {
      selected := Some(c);
      value := "";
    }

    method Type(text: string)
      modifies this`value
      ensures value == text
    {
      value := text;
    }

    /**
     * `handleSave`: rejected exactly when the button is disabled; otherwise
     * hands the untrimmed value to the app, clears the form and shows the
     * confirmation.
     */
    method Save() returns (save: Option<(string, string)>)
      modifies this`selected, this`value, this`showConfirmation
      ensures old(SaveDisabled()) ==>
        save.None? && selected == old(selected) && value == old(value) && showConfirmation == old(showConfirmation)
      ensures (!old(SaveDisabled()) ==>
        && save == Some((old(selected).value.name, old(value)))
        && selected.None? && value == "" && showConfirmation)
      ensures save.Some? ==> SaveDisabled()
    {
      if selected.None? || IsBlank(value) {
        return None;
      }
      save := Some((selected.value.name, value));
      selected := None;
      value := "";
      showConfirmation := true;
    }

    /** The timer that hides the confirmation. */
    method HideConfirmation()
      modifies this`showConfirmation
      ensures !showConfirmation
    {
      showConfirmation := false;
    }
  }
}
