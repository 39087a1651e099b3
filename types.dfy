/** The shapes of the app's data: screens, vitals, readings, alerts, chat messages. */
module HealthTypes {
  import opened Optional
  import opened Text

  /**
   * A calendar day, counted from 1970-01-01. Two points share a date key
   * (`toISOString().split('T')[0]`) exactly when they share a day number.
   */
  type Day = int

  datatype View =
    | Dashboard | Reports | HealthAI | Alerts | Profile | AddData | ConnectDevice | EditProfile

  datatype RiskLevel = Low | Moderate | Critical

  datatype Gender = Male | Female | Other {
    /** The text stored for the gender. */
    function Name(): (s: string)
      ensures s != ""
    {
      match this
      case Male => "male"
      case Female => "female"
      case Other => "other"
    }
  }

  /** One point of a metric's history; `name` is the chart label of the day. */
  datatype HealthDataPoint = HealthDataPoint(date: Day, name: string, value: real)

  /** A live reading as the app keeps it: the raw text typed or received, and its unit. */
  datatype Reading = Reading(value: string, unit: string)

  /** `value && value.trim() !== '--'`: a value that is non-empty and not the `--` placeholder. */
  predicate Present(value: string) {
    value != "" && Trim(value) != "--"
  }

  /** An entry of the static vital list; the icon component is not modelled. */
  datatype Vital = Vital(
    name: string,
    value: string,
    unit: string,
    color: string,
    bgColor: string,
    history: Option<seq<HealthDataPoint>>)

  datatype Alert = Alert(id: real, title: string, detail: string, timestamp: string, risk: RiskLevel)

  /** An alert as the AI proposes it, before it receives an id and a timestamp. */
  datatype AlertInput = AlertInput(title: string, detail: string, risk: RiskLevel)

  datatype Sender = User | Ai

  datatype ChatMessage = ChatMessage(sender: Sender, text: string)

  datatype UserProfile = UserProfile(name: string, age: string, gender: Gender, photo: Option<string>)

  /** A catalog entry: a metric name and its unit. */
  datatype Metric = Metric(name: string, unit: string)

  datatype MetricCategory = MetricCategory(category: string, metrics: seq<Metric>)
}
