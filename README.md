# HealthSense core, modelled in Dafny

HealthSense is a single-page health tracker written in React and TypeScript.
It shows five primary vitals (heart rate, SpO2, blood pressure, temperature,
glucose) and a user-chosen set of extra metrics. It keeps a 7-day and a
30-day history of every metric. It asks a language model for a streamed
dashboard summary with alerts, for chat answers and for the interpretations
in a PDF report. It can also read live vitals from a Bluetooth LE device.

This project models the logic in the application root and its screens:

- the state held by the application root and the handlers that change it:
  the initial readings and histories, saving a reading, merging alerts,
  restoring and storing the profile, and choosing an avatar by a 32-bit
  string hash;
- the static tables: the vitals, the extra-metric catalog, the unit table
  and the icon table;
- the dashboard: the metrics text sent to the model, the reader that splits
  the streamed reply at the `|||---|||` separator, the emergency tag and
  the alert JSON, and the error messages;
- the chat screen: its context text and the message list;
- the reports screen: which metrics have data, the statistics table, the
  prompt, the sections, the tabs and the file name;
- the Bluetooth screen: the decoding of the GATT characteristics, the live
  vitals and the connection state machine;
- the forms: the metric manager, data entry, onboarding and profile edit.

## Layout

- `optional.dfy` (module `Optional`): `Option`
- `text.dfy` (module `Text`): JavaScript string operations: `trim`, `indexOf`, `lastIndexOf`, `includes`, `split(sep)[0]`, `join`, `replace`, case mapping
- `numbers.dfy` (module `Numbers`): decimal digits, `parseFloat`, `toFixed(1)`
- `records.dfy` (module `Records`): a JavaScript object with string keys in insertion order
- `types.dfy` (module `HealthTypes`): the entities of `types.ts`
- `registry.dfy` (module `Registry`): `MOCK_VITALS`, `EXTRA_METRICS`, `METRIC_UNITS`, `METRIC_ICONS`, `AVATARS`
- `timeseries.dfy` (module `TimeSeries`): the 7- and 30-day windows and the history update
- `app.dfy` (module `App`): the application root as a class
- `alerts.dfy` (module `AlertMerge`): the alert merge of `handleAddAlerts`
- `avatar.dfy` (module `Avatar`): the name-and-age hash and the avatar choice
- `profile.dfy` (module `Profile`): the profile in `localStorage`, the display name and the e-mail
- `stream.dfy` (module `Stream`): the streamed-reply splitter, as written and corrected
- `dashboard.dfy` (module `Dashboard`): the metrics text, the insight fetch and the chart colour
- `healthai.dfy` (module `HealthAI`): the chat context and the chat session class
- `reports.dfy` (module `Reports`): the reports screen and its PDF download
- `device.dfy` (module `Device`): the Bluetooth decoders and the connection class
- `metricsmodal.dfy` (module `MetricsModal`): the extra-metric selection dialog
- `adddata.dfy` (module `AddData`): the data-entry form
- `profileform.dfy` (module `ProfileForm`): the onboarding and profile-edit forms

Modelling conventions:

- Days are integers, with day 0 = 1970-01-01. "Today" is a parameter.
- A `Record<V>` keeps an object's keys in insertion order, next to a map.
  `Object.keys`, `Object.entries` and the spread `{ ...o, [k]: v }` behave
  as in JavaScript.
- JavaScript numbers are `real`s. The 32-bit hash is written with an
  explicit `ToInt32`.
- Calls to the language model, the Bluetooth API, `JSON.parse`, the clock
  and `Math.random` are parameters: chunk sequences, failure flags, choice
  values and functions.
- Code that updates React state step by step is a class with `modifies`
  clauses: the application root, the chat session, the reports view, the
  device connection and the three forms.
- Loops in the source are methods with loops, proved against a function:
  the history builders, the hash, the stream reader, the chat send and the
  report download.

## Model

| member | source | states |
|---|---|---|
| HealthTypes.Gender.Name | types.ts:9 | every gender has a non-empty stored name |
| Text.TrimStart | components/AddDataScreen.tsx:31 | the result is a suffix of the input, starts with no whitespace, and only whitespace was dropped |
| Text.TrimEnd | components/AddDataScreen.tsx:31 | the result is a prefix of the input, ends with no whitespace, and only whitespace was dropped |
| Text.TrimTrimmed | components/OnboardingScreen.tsx:35-37 | the trimmed name and age have no outer whitespace, and trimming twice equals trimming once |
| Text.BlankIffAllWhitespace | components/DashboardScreen.tsx:147 | `!s.trim()` holds exactly when every character is whitespace |
| Text.IndexOfFrom | components/DashboardScreen.tsx:207 | the result is -1 when there is no occurrence at or after `from`, else the first occurrence there |
| Text.IndexOf | components/DashboardScreen.tsx:207 | the result is the first occurrence, and -1 exactly when there is none |
| Text.LastIndexOf | components/DashboardScreen.tsx:208 | the result is the last occurrence, and -1 exactly when there is none |
| Text.ContainsIffOccurs | components/DashboardScreen.tsx:184 | an occurrence at `i` makes `includes` true, with `indexOf` at or before `i` |
| Text.SplitHead | App.tsx:166 | `split(sep)[0]` is the text before the first separator, or all the text when there is none |
| Text.SplitSecond | components/DashboardScreen.tsx:186-188 | `split(sep)[1]` starts right after the first separator and runs up to the second separator or the end of the text, with no separator starting inside it |
| Text.Join | components/DashboardScreen.tsx:139 | a join of one part is that part; a join whose first part is non-empty is non-empty, and a join is never shorter than its first part |
| Text.JoinSnoc | components/DashboardScreen.tsx:139 | joining one more part adds the separator and that part at the end, so the parts appear in order with one separator between neighbours |
| Text.JoinEmpty | components/DashboardScreen.tsx:138-139 | a join of non-empty parts is empty exactly when there are no parts |
| Text.ReplaceFirst | components/DashboardScreen.tsx:198 | `replace` with a string changes only the first occurrence, and nothing when there is none |
| Text.ReplaceWhitespaceRuns | components/ReportsScreen.tsx:205 | with a separator without whitespace, the result has no whitespace; text without whitespace is unchanged |
| Text.ReplaceWhitespaceRunsAt | components/ReportsScreen.tsx:205 | a word followed by a run of white space and the rest becomes the word, exactly one separator (none for an empty run) and the rest with its runs replaced |
| Text.TwoWords | components/ReportsScreen.tsx:205 | two words with white space between them become the two words joined by one separator |
| Text.UpperAscii | App.tsx:251 | a lower-case ASCII letter becomes the upper-case letter 32 code points below it; any other character is unchanged |
| Text.LowerAsciiString | App.tsx:253 | every character is lower-cased and the length is unchanged |
| Numbers.NatToString | components/ConnectDeviceScreen.tsx:60 | `toString` of a natural number is a non-empty run of digits |
| Numbers.NatToStringValue | components/ConnectDeviceScreen.tsx:60 | the digits read back as the number |
| Numbers.ParseUnsigned | App.tsx:166 | a parsed unsigned number is never negative |
| Numbers.ParseFloatNat | App.tsx:166-168 | `parseFloat` of a natural number's text gives the number back |
| Numbers.ParseFloatTenths | components/ConnectDeviceScreen.tsx:65-67 | `parseFloat` of the text of a tenth (`spo2.toString()`) gives the tenth back |
| Numbers.FixedOne | components/HealthAIScreen.tsx:38 | `toFixed(1)` of a non-negative number is digits, a point and one digit; the tenth it prints is stated by FixedOneValue |
| Numbers.FixedOneValue | components/HealthAIScreen.tsx:38 | the text `toFixed(1)` prints reads back as the tenth within half a tenth of the number, halves rounded up |
| Numbers.ToFixed1 | components/ReportsScreen.tsx:111-113 | `toFixed(1)` ends in a point and one digit; a negative number prints as a minus sign followed by the text of its magnitude, any other number as FixedOne |
| Registry.AddUnits | constants.tsx:157-158 | the folded record has a key exactly for the starting keys and the listed names |
| Registry.AddUnitsListed | constants.tsx:157-158 | with distinct names, each listed metric's name maps to its own unit |
| Registry.AddUnitsOther | constants.tsx:157-158 | a key no listed metric names keeps the value it had before |
| Registry.CatalogMetrics | constants.tsx:100-154 | the catalog flattens to 18 metrics |
| Registry.CatalogList | constants.tsx:100-154 | the flattened catalog is the 18 (name, unit) pairs in category order |
| Registry.UnitsTableKeys | constants.tsx:156-159 | the unit table has keys exactly for the names of the vitals and of the catalog |
| Registry.MetricUnitsKeys | constants.tsx:156-159 | `METRIC_UNITS` has a unit for exactly the five vitals and the 18 catalog metrics |
| Registry.NamesDistinct | constants.tsx:5-11 | vital names are distinct, catalog names are distinct, and no catalog metric is named like a vital |
| Registry.MetricUnitsOfVitals | constants.tsx:156-159 | `METRIC_UNITS` maps each vital to the unit of its `MOCK_VITALS` entry |
| Registry.MetricUnitsOfCatalog | constants.tsx:156-159 | `METRIC_UNITS` maps each catalog metric to its catalog unit |
| Registry.UnitForIsMetricUnits | App.tsx:160 | `METRIC_UNITS[name] \|\| ''` is the table lookup, or `''` for an unknown name |
| Registry.IconNamesOfCatalog | constants.tsx:161-180 | the icon table has every catalog metric and `Default` |
| Registry.IconFor | components/DashboardScreen.tsx:95 | a known name picks its own icon; any other name falls back to `Default` |
| Registry.AvatarList | constants.tsx:79-98 | each gender has four non-empty avatars |
| TimeSeries.Window.Length | App.tsx:25 | the weekly window holds 7 days and the monthly one 30 |
| TimeSeries.WeekdayLabel | App.tsx:31 | a weekly point is labelled with a short weekday name; which one is fixed by WeekdayLabelEpoch and WeekdayLabelNext |
| TimeSeries.WeekdayLabelEpoch | App.tsx:31 | 1970-01-01 is labelled Thu, the day after Fri and the day before Wed |
| TimeSeries.WeekdayLabelNext | App.tsx:31 | the day after a day labelled with the k-th name of Thu…Wed gets the next name, wrapping after Wed |
| TimeSeries.WeekdayLabelPeriodic | App.tsx:31 | the weekday label repeats every 7 days |
| TimeSeries.DayOfMonth | App.tsx:51 | the monthly label is a day of the month, from 1 to 31; the calendar is fixed by the anchor lemmas and DayInMonthNext |
| TimeSeries.DayOfMonthJanuary | App.tsx:51 | 1970-01-01 is day 1 and 1970-01-31 day 31 |
| TimeSeries.DayOfMonthFebruary | App.tsx:51 | 1970-02-01 is day 1 |
| TimeSeries.DayOfMonthCommonMarch | App.tsx:51 | in a common year February ends on the 28th and March starts on the 1st |
| TimeSeries.DayOfMonthLeapDay | App.tsx:51 | in the leap year 2000 February has a 29th, followed by March 1st |
| TimeSeries.DayInMonthNext | App.tsx:51 | within a year the next day is the next day of the month, or the 1st after a 30th or 31st |
| TimeSeries.Label | App.tsx:29-33 | a weekly label is the day's weekday name; a monthly label is a run of digits that reads as the day's day of the month |
| TimeSeries.ZeroWindowDates | App.tsx:19-38 | the window has 7 or 30 consecutive, strictly increasing days, ending today |
| TimeSeries.ZeroWindowValues | App.tsx:29-33 | every point of a fresh window has value 0 and its window's label |
| TimeSeries.BuildWindow | App.tsx:24-34 | the `for (i = 6 (or 29); i >= 0; i--)` loop builds exactly the zero window |
| TimeSeries.InitialHistory | App.tsx:40-58 | the initial history has the five vitals as keys, in order, each with a zero window |
| TimeSeries.Upsert | App.tsx:187-191 | only the point dated today takes the new value; all other points are unchanged |
| TimeSeries.UpsertWithoutToday | App.tsx:187-191 | a series without today is unchanged |
| TimeSeries.UpsertOverwrites | App.tsx:187-191 | a second save on the same day replaces the first |
| TimeSeries.UpsertKeepsDates | App.tsx:187-191 | dates and labels are unchanged by a save |
| TimeSeries.UpsertFreshWindow | App.tsx:172-191 | saving into a fresh window sets the last (today's) point and leaves the others at 0 |
| TimeSeries.SaveHistory | App.tsx:170-194 | an unknown metric gets a zero window appended as a new key; only that metric's series changes |
| TimeSeries.SavedValueOfPair | App.tsx:166 | the value saved for `"s/d"` is `s` |
| TimeSeries.SavedValueOfNat | App.tsx:166 | the value saved for a number's text is the number |
| TimeSeries.Positives | components/ReportsScreen.tsx:104 | `filter(d => d.value > 0)` keeps only positive values and keeps every positive value |
| TimeSeries.PositivesAppend | components/ReportsScreen.tsx:104 | filtering a joined series gives the filtered halves joined: kept values stay in order, each as often as it occurs |
| TimeSeries.ZeroWindowHasNoPositives | App.tsx:32 | a fresh window has no positive value |
| TimeSeries.PositivesFrom | components/HealthAIScreen.tsx:36 | every filtered value comes from a point of the series |
| App.InitialHealthData | App.tsx:63-68 | the initial readings list the five vitals in order, each `--` with its unit |
| App.OverlayVitals | App.tsx:243-247 | each card keeps its vital's name, unit and colours; its value is the saved one when truthy, else the vital's sample value; its history is the stored one when present |
| App.InitialDashboardShowsPlaceholder | App.tsx:243-247 | before any save every card shows `--` |
| App.SaveReading | App.tsx:155-162 | the saved metric gets the value and its table unit (or `''`); every other reading is unchanged; a new key goes last |
| App.SaveInto | App.tsx:170-194 | the copy-and-update of one history is `SaveHistory` |
| App.DashboardShowsSaved | App.tsx:154-162 | after a non-empty save the saved vital's card shows the new value and the others are unchanged |
| App.HealthApp.constructor | App.tsx:62-75 | the app starts loading on the dashboard with no profile, placeholder readings, the two default extras, no alerts and zero histories |
| App.HealthApp.FinishLoading | App.tsx:82-94 | a stored onboarding flag restores the profile and makes the app ready; otherwise it goes to onboarding; nothing else changes |
| App.HealthApp.OnboardingComplete | App.tsx:102-138 | the profile gets the chosen or hashed avatar and is stored with the onboarding flag; the app is ready; a reload restores the same profile |
| App.HealthApp.ProfileUpdate | App.tsx:140-152 | the profile is replaced and stored, and the view goes to the profile screen |
| App.HealthApp.SaveMetric | App.tsx:154-220 | the reading is saved, and both histories take the parsed value only when it parses |
| App.HealthApp.SaveHistories | App.tsx:164-219 | the weekly and monthly histories are updated from the parsed value, or left alone on NaN |
| App.HealthApp.AddAlerts | App.tsx:222-241 | the alert list becomes the merge of the old list with the stamped batch; nothing else changes |
| App.HealthApp.SetExtraMetrics | components/DashboardScreen.tsx:118-121 | the extra metrics become the saved selection; nothing else changes |
| AlertMerge.Keys | App.tsx:232 | the key set is exactly the `title + detail` of the existing alerts |
| AlertMerge.Stamp | App.tsx:225-229 | each incoming alert keeps its fields and gets its id and the `Just now` timestamp |
| AlertMerge.Fresh | App.tsx:233 | an alert is kept exactly when it is incoming and its key is not taken |
| AlertMerge.FreshAppend | App.tsx:233 | the filter distributes over concatenation |
| AlertMerge.FreshNone | App.tsx:233-236 | when every key is taken nothing is kept |
| AlertMerge.MergeAlerts | App.tsx:222-241 | the result is the stamped batch alerts whose key is new, followed by the old list; an empty batch changes nothing |
| AlertMerge.MergeShape | App.tsx:239 | the old list is kept, in order, as the tail; everything before it is a stamped alert with a new key |
| AlertMerge.MergeKeepsIffNew | App.tsx:233 | an incoming alert is kept exactly when its key is new |
| AlertMerge.MergeAllDuplicates | App.tsx:235-237 | a batch of known keys leaves the list unchanged |
| AlertMerge.MergeCoversBatch | App.tsx:231-240 | after the merge every batch key is present |
| AlertMerge.MergeIdempotent | App.tsx:222-241 | merging the same batch twice equals merging it once, whatever the new ids |
| AlertMerge.MergeKeepsBatchDuplicates | App.tsx:232-233 | whatever the old list, when it lacks the new alert's key two copies of that alert in one batch are both added, since the key set is built from the old list only |
| AlertMerge.MergeKeyCollision | App.tsx:232 | `("ab","c")` is taken for a duplicate of `("a","bc")`, because the key is the concatenation without a separator |
| Avatar.ToInt32 | App.tsx:121 | the result is a signed 32-bit integer congruent to the input modulo 2^32 |
| Avatar.HashBound | App.tsx:118-122 | the hash of a key stays within `\|key\| * 2^32` of zero |
| Avatar.StringHash | App.tsx:118-122 | the loop computes the hash function of the key |
| Avatar.HashSample | App.tsx:118-122 | the hash of `"a"` is 97 and of `"ab"` is 3105 |
| Avatar.HashStepWraps | App.tsx:121 | `hash << 5` wraps at 32 bits |
| Avatar.Abs | App.tsx:123 | `Math.abs` gives the value or its negation |
| Avatar.AvatarIndex | App.tsx:123 | the index is inside the avatar list |
| Avatar.AvatarFor | App.tsx:103-125 | a truthy photo is kept; otherwise the avatar is picked from the gender's list by the hash of name + age; it is never empty |
| Avatar.AvatarFromGenderList | App.tsx:105-124 | without a photo the avatar belongs to the gender's list |
| Avatar.ChooseAvatar | App.tsx:103-125 | the handler's choice is `AvatarFor` |
| Profile.Truthy | App.tsx:84-88 | a stored item counts only when present and non-empty |
| Profile.GenderFromText | App.tsx:87 | a stored gender name reads back as itself; anything else reads as `other` |
| Profile.StoreProfile | App.tsx:143-150 | name, age and gender are stored; the photo is stored when truthy and removed otherwise; other keys are unchanged |
| Profile.StoreOnboarding | App.tsx:127-135 | the onboarding flag is stored as `true` |
| Profile.Restore | App.tsx:82-93 | a profile is restored exactly when the flag is truthy, and its name is never empty |
| Profile.RestoreAfterOnboarding | App.tsx:82-135 | restoring after onboarding gives back the stored profile |
| Profile.RestoreAfterUpdate | App.tsx:82-150 | restoring after a profile update gives back the updated profile |
| Profile.Capitalize | App.tsx:251 | the first letter is upper-cased and the rest is unchanged |
| Profile.DisplayName | App.tsx:250-252 | without a profile or with an empty name the shown name is `User`; otherwise it is the stored name with its first character upper-cased and the rest unchanged |
| Profile.Email | App.tsx:253 | the e-mail is the lower-cased name with each white-space run replaced by `.`, then `@example.com`; it has no white space |
| Profile.EmailOfTwoWords | App.tsx:253 | a first and a last name with white space between them give `first.last@example.com` in lower case |
| Profile.LowerKeepsNonWhitespace | App.tsx:253 | lower-casing adds no whitespace |
| Stream.StepAsWritten | components/DashboardScreen.tsx:180-194 | the full text grows by the chunk; before the separator the chunk goes to the summary; when the separator first appears the text before it is added to the summary and the text after it to the JSON; afterwards each chunk goes to the JSON |
| Stream.RunAsWrittenOneChunk | components/DashboardScreen.tsx:183-191 | with one chunk the summary and the JSON are the two sides of the separator |
| Stream.RunAsWrittenTracks | components/DashboardScreen.tsx:174-194 | as written, the full text is the chunks joined, the flag is set exactly when it holds the separator, and until then the summary is the full text and the JSON empty |
| Stream.RunAsWrittenSummary | components/DashboardScreen.tsx:180-194 | as written, when the separator first shows up in chunk `k`, the summary is the chunks before `k` followed by the whole text before the separator |
| Stream.RunAsWrittenNoSeparator | components/DashboardScreen.tsx:180-194 | as written, a reply without a separator is all summary and no JSON |
| Stream.AsWrittenRepeatsFirstChunk | components/DashboardScreen.tsx:183-191 | when the separator arrives in the second chunk, the summary as written is the first chunk followed by the whole text before the separator, so the first chunk appears twice, while the text before the separator holds it once |
| Stream.Step | components/DashboardScreen.tsx:180-194 | with line 187 corrected: before the separator the chunk goes to the summary; when the separator first appears the summary becomes the text before it and the text after it goes to the JSON; afterwards the summary stays and the JSON grows by each chunk |
| Stream.RunTracks | components/DashboardScreen.tsx:180-202 | the corrected reader's full text is the chunks' concatenation, and summary and JSON stay consistent with it |
| Stream.RunSummary | components/DashboardScreen.tsx:180-202 | the corrected summary is the text before the first separator of the whole reply |
| Stream.StepKeepsTag | components/DashboardScreen.tsx:196 | once the summary holds `[EMERGENCY]`, it keeps holding it |
| Stream.ReadStream | components/DashboardScreen.tsx:174-202 | the loop with line 187 corrected (see Findings) yields the summary before the separator, the JSON of the corrected reader, the critical flag exactly when the tag is in the summary, and the summary shown without its first tag |
| Dashboard.Item | components/DashboardScreen.tsx:129 | an item is `name: value unit`, with the colon right after the name |
| Dashboard.ItemNotBlank | components/DashboardScreen.tsx:129 | an item is never blank |
| Dashboard.VitalItems | components/DashboardScreen.tsx:127-129 | the items are exactly those of the vitals with a present value |
| Dashboard.VitalItemsAppend | components/DashboardScreen.tsx:127-129 | the items of joined vital lists are the joined items: the vitals keep their order |
| Dashboard.ReadingItems | components/DashboardScreen.tsx:131-136 | the items are exactly those of the selected extras with a present reading |
| Dashboard.ReadingItemsAppend | components/DashboardScreen.tsx:131-136 | the items of joined name lists are the joined items: the extras keep their order |
| Dashboard.NonEmpty | components/DashboardScreen.tsx:138 | `filter(Boolean)` keeps exactly the non-empty parts |
| Dashboard.VitalGroupEmpty | components/DashboardScreen.tsx:127-129 | the vital group is empty exactly when no vital has a present value |
| Dashboard.ReadingGroupEmpty | components/DashboardScreen.tsx:131-136 | the extra group is empty exactly when no selected extra has a present reading |
| Dashboard.MetricsStringEmpty | components/DashboardScreen.tsx:126-140 | the metrics text is empty exactly when neither group has an item |
| Dashboard.MetricsStringBothGroups | components/DashboardScreen.tsx:138-139 | with both groups present the text is the vital group, `, `, then the extra group |
| Dashboard.MetricsStringNotBlank | components/DashboardScreen.tsx:147 | a non-empty metrics text is never blank |
| Dashboard.MetricsBlankIffNothingPresent | components/DashboardScreen.tsx:126-151 | the model is asked exactly when some vital or selected extra has a present value |
| Dashboard.ErrorMessage | components/DashboardScreen.tsx:224-229 | the high-traffic message is shown exactly when the error mentions `429` or `RESOURCE_EXHAUSTED`; otherwise the generic one |
| Dashboard.JsonCandidate | components/DashboardScreen.tsx:207-210 | a candidate exists exactly when some `{` precedes some `}`; it runs from the first `{` to the last `}` |
| Dashboard.CharSearch | components/DashboardScreen.tsx:207-208 | `indexOf('{')` is the first `{` and `lastIndexOf('}')` the last `}`, or -1 when there is none |
| Dashboard.AlertsToForward | components/DashboardScreen.tsx:204-215 | alerts are forwarded only from a non-blank buffer with a brace pair that parses to a non-empty list, and exactly then |
| Dashboard.BlankHasNoBrace | components/DashboardScreen.tsx:204 | a blank buffer has no candidate |
| Dashboard.FetchInsights | components/DashboardScreen.tsx:142-233 | with line 187 corrected (see Findings): blank metrics give the hint and no request; a failure gives its message; otherwise the summary before the separator without its tag, the critical flag and the alerts from the JSON part |
| Dashboard.HexColor | components/DashboardScreen.tsx:39-46 | the first of red, sky, purple, orange, green contained picks its colour; otherwise grey, and grey exactly then |
| HealthAI.CurrentVitalsSummaryEmpty | components/HealthAIScreen.tsx:28-31 | the vitals summary is empty exactly when no reading is present |
| HealthAI.Fixed | components/HealthAIScreen.tsx:38 | each value is rendered with `toFixed(1)` |
| HealthAI.HistoryEntry | components/HealthAIScreen.tsx:35-40 | a metric has an entry exactly when it has a positive value; the entry is the name, ` [`, the positive values to one decimal in order joined by `, `, and `]` |
| HealthAI.HistoryEntries | components/HealthAIScreen.tsx:34-42 | the entries are non-empty, and there are none exactly when no listed metric has a positive value |
| HealthAI.HistoryEntriesAppend | components/HealthAIScreen.tsx:34-41 | the entries of joined name lists are the joined entries: the metrics keep their order and those without data are dropped |
| HealthAI.FormatHistoryEmpty | components/HealthAIScreen.tsx:43 | the period text is empty exactly when no metric has a positive value |
| HealthAI.FormatHistory | components/HealthAIScreen.tsx:33-44 | a non-empty period text is a newline, `<period> data (chronological): ` and the entries joined by `; ` |
| HealthAI.FreshHistoryFormatsEmpty | components/HealthAIScreen.tsx:33-44 | a history of zero windows adds no period text |
| HealthAI.FullContext | components/HealthAIScreen.tsx:49-51 | the context starts with `Current vitals: ` |
| HealthAI.FullContextLayout | components/HealthAIScreen.tsx:49-51 | the context is `Current vitals: `, the readings or `No current data`, `.`, the weekly text and the monthly text |
| HealthAI.FullContextWithoutData | components/HealthAIScreen.tsx:49-51 | without any data the context is `Current vitals: No current data.` |
| HealthAI.FullContextEndsWithMonth | components/HealthAIScreen.tsx:51 | a non-empty monthly text ends the context |
| HealthAI.Greeting | components/HealthAIScreen.tsx:15-17 | the greeting names the user right after `Hello ` |
| HealthAI.Reply | components/HealthAIScreen.tsx:82-99 | an unstarted stream gives one error message; a started one gives the streamed text, and a failed one then the error message `I encountered an error. Please try again.` |
| HealthAI.ChatSession.constructor | components/HealthAIScreen.tsx:15-20 | the chat starts with the greeting only, an empty input, not loading and no chat |
| HealthAI.ChatSession.InitChat | components/HealthAIScreen.tsx:23-66 | a failed initialisation appends the trouble message; a good one creates the chat |
| HealthAI.ChatSession.Type | components/HealthAIScreen.tsx:18 | the input becomes the typed text |
| HealthAI.ChatSession.SendMessage | components/HealthAIScreen.tsx:74-103 | a blank input, a busy session or no chat changes nothing; otherwise the user message and the reply are appended and the input is cleared |
| HealthAI.ChatSession.Send | components/HealthAIScreen.tsx:77-102 | the messages become the old ones, the user message and the reply; the input is cleared and loading ends |
| Reports.SomeAboveZero | components/ReportsScreen.tsx:55 | the filter is non-empty exactly when some point is above zero |
| Reports.PrimaryWithDataExactly | components/ReportsScreen.tsx:54-56 | the primary list is exactly the vitals whose weekly history has a positive value |
| Reports.PrimaryWithDataAppend | components/ReportsScreen.tsx:54-56 | the list for joined vital lists is the joined lists: the vitals keep their order |
| Reports.ExtraWithDataExactly | components/ReportsScreen.tsx:58-67 | the extra list is exactly the selected extras whose weekly history has a positive value |
| Reports.ExtraWithDataAppend | components/ReportsScreen.tsx:58-67 | the list for joined name lists is the joined lists: the extras keep their order |
| Reports.PrimaryWithDataKeepsOrder | components/ReportsScreen.tsx:54-56 | when every vital has data, the list is all of them, in order |
| Reports.AllWithDataEmpty | components/ReportsScreen.tsx:69-72 | there is nothing to report exactly when no vital and no selected extra has weekly data |
| Reports.MonthIgnored | components/ReportsScreen.tsx:54-69 | without weekly data nothing is reported, whatever the monthly history holds |
| Reports.FreshHistoryNothingToReport | components/ReportsScreen.tsx:54-69 | a fresh weekly history reports nothing |
| Reports.ExtraMetricUnitAndIcon | components/ReportsScreen.tsx:65-66 | an extra metric takes its table unit (or `''`) and its icon (or `Default`) |
| Reports.MinOf | components/ReportsScreen.tsx:112 | `Math.min` is a member no larger than any value |
| Reports.MaxOf | components/ReportsScreen.tsx:113 | `Math.max` is a member no smaller than any value |
| Reports.SumBounds | components/ReportsScreen.tsx:110 | the sum of values between `lo` and `hi` lies between `n*lo` and `n*hi` |
| Reports.CalculateStats | components/ReportsScreen.tsx:107-115 | there are no statistics exactly for no data; min and max are members and bound every value; the average lies between them |
| Reports.Render | components/ReportsScreen.tsx:107-115 | no data gives three `N/A`, and only then; otherwise each number is printed with `toFixed(1)` |
| Reports.WindowValues | components/ReportsScreen.tsx:104-105 | the values are non-empty exactly when the window has data, and all are positive |
| Reports.StatsAboveZero | components/ReportsScreen.tsx:104-115 | a window's minimum, average and maximum are all positive |
| Reports.PromptRanges | components/ReportsScreen.tsx:146-153 | the normal ranges follow the intro exactly for a primary vital |
| Reports.Interpretation | components/ReportsScreen.tsx:141-158 | the reply is used only when the model was asked and answered; otherwise the fixed unavailable text |
| Reports.WindowChart | components/ReportsScreen.tsx:191-192 | a window gets a chart of its series exactly when it has data |
| Reports.ReportFileNameNoWhitespace | components/ReportsScreen.tsx:205 | the file name starts with `HealthReport-`, ends with `-<date>.pdf`, and has no white space between them |
| Reports.ReportFileNameOfTwoWords | components/ReportsScreen.tsx:205 | a first and a last name with white space between them give `HealthReport-first_last-<date>.pdf` |
| Reports.ReportsView.constructor | components/ReportsScreen.tsx:51-52 | no tab is chosen and no report is being generated |
| Reports.ReportsView.ActiveTab | components/ReportsScreen.tsx:237 | a metric shows its chosen tab, `Week` by default |
| Reports.ReportsView.ChartData | components/ReportsScreen.tsx:238 | the chart shows the weekly or the monthly series, as the tab says |
| Reports.ReportsView.SelectTab | components/ReportsScreen.tsx:248-259 | a tab click sets the metric's tab, and is ignored while generating |
| Reports.ReportsView.WriteSection | components/ReportsScreen.tsx:98-194 | one metric's section is `SectionFor`: both statistics rows, the interpretation and the charts |
| Reports.ReportsView.Download | components/ReportsScreen.tsx:71-209 | with nothing to report nothing happens; otherwise one section per metric, in order, the file name, the tabs restored and generation ended |
| Device.Uint16LE | components/ConnectDeviceScreen.tsx:58 | `getUint16(i, true)` is below 65536 |
| Device.Uint16RoundTrip | components/ConnectDeviceScreen.tsx:58 | a 16-bit value encoded little-endian reads back at its offset |
| Device.Uint16Bytes | components/ConnectDeviceScreen.tsx:58 | two bytes read and re-encoded give the same bytes |
| Device.HeartRate | components/ConnectDeviceScreen.tsx:54-58 | flag bit 0 selects a 16-bit rate at offset 1 or an 8-bit rate at offset 1; a short value gives no rate |
| Device.HeartRateRoundTrip | components/ConnectDeviceScreen.tsx:54-58 | an encoded heart-rate measurement decodes to its rate |
| Device.SpO2Tenths | components/ConnectDeviceScreen.tsx:65 | the raw SpO2 is the 16-bit value at offset 1, and is present exactly for 3 or more bytes |
| Device.SpO2 | components/ConnectDeviceScreen.tsx:65 | SpO2 is the raw value divided by 10 |
| Device.BloodPressure | components/ConnectDeviceScreen.tsx:77-80 | systolic and diastolic are the 16-bit values at offsets 1 and 3, present exactly for 5 or more bytes |
| Device.BloodPressureRoundTrip | components/ConnectDeviceScreen.tsx:77-80 | an encoded blood-pressure measurement decodes to its pressures |
| Device.BatteryLevel | components/ConnectDeviceScreen.tsx:85-88 | the battery level is byte 0 |
| Device.SavedValueOfTenths | components/ConnectDeviceScreen.tsx:67 | the saved SpO2 text parses back to the SpO2 value |
| Device.SavedReadings | components/ConnectDeviceScreen.tsx:60 | the saved pressure text parses to its systolic value, and a rate's text to the rate |
| Device.ValueOf | components/ConnectDeviceScreen.tsx:12-18 | reading a field gives a value of that field |
| Device.WithValue | components/ConnectDeviceScreen.tsx:49-51 | only the named field changes |
| Device.SubscribedExactly | components/ConnectDeviceScreen.tsx:124-140 | the subscriptions are exactly the listed services the device offers |
| Device.ErrorText | components/ConnectDeviceScreen.tsx:146 | the error shown is the message, or the fallback when it is empty; never empty |
| Device.DeviceConnection.constructor | components/ConnectDeviceScreen.tsx:38-47 | disconnected, with no error, no device and no live values |
| Device.DeviceConnection.UpdateVital | components/ConnectDeviceScreen.tsx:49-51 | the live vitals change in the named field only |
| Device.DeviceConnection.OnHeartRate | components/ConnectDeviceScreen.tsx:54-61 | a decodable value updates the live rate and saves its text; a short value changes nothing |
| Device.DeviceConnection.OnSpO2 | components/ConnectDeviceScreen.tsx:63-68 | a decodable value updates the live SpO2 and saves its text; a short value changes nothing |
| Device.DeviceConnection.OnBloodPressure | components/ConnectDeviceScreen.tsx:77-83 | a decodable value updates the live pressure and saves `s/d`; a short value changes nothing |
| Device.DeviceConnection.OnBattery | components/ConnectDeviceScreen.tsx:85-89 | a non-empty value updates the battery level |
| Device.DeviceConnection.OnDisconnected | components/ConnectDeviceScreen.tsx:91-95 | the state is disconnected, with no live values and no device |
| Device.DeviceConnection.ConnectDevice | components/ConnectDeviceScreen.tsx:97-149 | the statuses passed are the attempt's trace and the last one is the state; the error thrown becomes the shown message; a picked device is kept; services are subscribed only on success; only a failure asks the device held before the call to disconnect |
| Device.ConnectOutcome | components/ConnectDeviceScreen.tsx:97-147 | an attempt scans first, passes connecting exactly with Bluetooth and a picked device, and ends connected exactly when the GATT server answers too; otherwise in error with a non-empty message: the missing-API or missing-server message as written, or the chooser's or the GATT rejection's own message, with the fallback when that is empty |
| Device.DeviceConnection.DisconnectDevice | components/ConnectDeviceScreen.tsx:151-157 | a connected device is asked to disconnect; otherwise the state is reset at once |
| MetricsModal.Remove | components/ManageMetricsModal.tsx:24 | removal keeps every other member and keeps the list distinct |
| MetricsModal.RemoveAt | components/ManageMetricsModal.tsx:24 | in a distinct list, removing the name at position `k` leaves the names before and after `k`, in order |
| MetricsModal.Add | components/ManageMetricsModal.tsx:26 | adding an absent name appends it at the end; adding a present one changes nothing; the list stays distinct |
| MetricsModal.FromList | components/ManageMetricsModal.tsx:13 | `new Set(list)` has the same members, no repeats, and keeps a list that was already distinct |
| MetricsModal.Toggle | components/ManageMetricsModal.tsx:20-30 | the toggled name flips membership; all other names are unchanged |
| MetricsModal.ToggleTwice | components/ManageMetricsModal.tsx:20-30 | two toggles give back the same set, and the same list when the name was absent |
| MetricsModal.RemoveLast | components/ManageMetricsModal.tsx:24-26 | removing a just-added name gives back the list |
| MetricsModal.Dialog.constructor | components/ManageMetricsModal.tsx:13 | the selection is the initial list as a set |
| MetricsModal.Dialog.Resync | components/ManageMetricsModal.tsx:15-18 | a new initial list replaces the selection |
| MetricsModal.Dialog.HandleToggle | components/ManageMetricsModal.tsx:20-30 | the selection is toggled and stays a set |
| MetricsModal.Dialog.HandleSave | components/ManageMetricsModal.tsx:32-34 | the saved list is the selection, without repeats |
| AddData.ExtraChoice | components/AddDataScreen.tsx:82-88 | an extra metric is chosen with its table unit, or `''` |
| AddData.Form.constructor | components/AddDataScreen.tsx:21-23 | nothing is selected, the value is empty and no confirmation shows |
| AddData.Form.SelectMetric | components/AddDataScreen.tsx:25-28 | choosing a metric clears the value |
| AddData.Form.Type | components/AddDataScreen.tsx:111 | the value becomes the typed text |
| AddData.Form.Save | components/AddDataScreen.tsx:30-37 | with no metric or a blank value nothing happens; otherwise the untrimmed value is sent, the form is reset and the confirmation shows |
| AddData.Form.HideConfirmation | components/AddDataScreen.tsx:36 | the confirmation is hidden |
| ProfileForm.Form.Blank | components/OnboardingScreen.tsx:11-15 | onboarding starts with empty fields and not loading |
| ProfileForm.Form.FromUser | components/EditProfileScreen.tsx:13-17 | the edit form starts from the current profile, an empty photo becoming none |
| ProfileForm.Form.SubmitDisabled | components/OnboardingScreen.tsx:132 | the button is disabled exactly when the form cannot be submitted |
| ProfileForm.Form.Edit | components/OnboardingScreen.tsx:11-13 | edits take effect unless the form is loading |
| ProfileForm.Form.PickPhoto | components/OnboardingScreen.tsx:18-32 | a picked photo is taken unless the form is loading |
| ProfileForm.Form.Submit | components/EditProfileScreen.tsx:36-41 | an incomplete or busy form sends nothing; otherwise the trimmed name and age are sent with the gender and photo, and the form becomes busy |

## Left out

- The temperature characteristic (components/ConnectDeviceScreen.tsx:70-75) is not modelled, because it decodes an IEEE float32 and floating point is outside the model.
- Numbers.FixedOne: rounds an exact real half up; binary floating-point rounding of `toFixed` is not modelled.
- DayOfMonth: the successor of a day is proved within a March-based year (DayInMonthNext) and at the anchor dates, which include the year starts 1970-03-01 and 2000-03-01; no general lemma crosses a year boundary.
- Numbers.ParseUnsigned: `parseFloat` exponents, `Infinity` and the other special forms are not modelled.
- Dates are integer days in UTC; time zones and `toLocaleString`/`toLocaleDateString` formatting are not modelled; "today" is a parameter.
- `localStorage` is a map from keys to strings; `FileReader` and the file picker are a photo parameter.
- Profile.GenderFromText: any stored text other than `male` or `female` reads as `other`, whereas the source casts the stored text unchecked.
- Text.UpperAscii, Text.LowerAscii: case mapping covers ASCII letters only, not full Unicode.
- Avatar.StringHash: `charCodeAt` is taken to be the character's code point, which differs for characters outside the Basic Multilingual Plane.
- React scheduling, effects, timers and interleaving of asynchronous handlers are not modelled; each handler runs to completion.
- Alert ids from `Date.now() + Math.random()` are a parameter.
- `JSON.parse` is a parameter function from text to an optional alert list.
- The language model is modelled as data: a chunk sequence with a start and failure flag for streams, and a function from metric name to an optional reply for the report.
- The PDF layout (fonts, positions, page breaks, chart images and the disclaimer) is not modelled; a report is its file name and its list of sections.
- Reports.Interpretation: the data string sent with the prompt renders numbers with JavaScript's `toString`; the model takes the reply as a function of the metric name.
- Reports.ReportsView.Download: the button's `disabled` attribute is not modelled; the handler itself does not check `isGenerating`, and the model follows the handler.
- HealthAI.ChatSession.Send: the source writes each partial text into the last message object in place, which the previous messages array shares; the model replaces the last message with a new value on each chunk, so the sharing is not modelled.
- Stream.ReadStream: uses the corrected summary (the text before the separator) rather than `summaryText += parts[0]` at components/DashboardScreen.tsx:187; the as-written behaviour is `Stream.RunAsWritten` (see Findings).
- Dashboard.FetchInsights: shows the corrected summary of `Stream.ReadStream`, not the as-written summary of components/DashboardScreen.tsx:187 (see Findings).
- Device.DeviceConnection.ConnectDevice: the Web Bluetooth calls are parameters (availability, the picker's choice, the GATT connection, the services offered); the five sequential `setupNotification` calls are the `Subscribed` filter.
- ProfileForm.Form.Edit: the inputs disabled while loading are modelled as a guard on the edit.
- Components outside this core (home, workout, progress, alerts list, profile, navigation, splash) are presentational and not modelled.

## Findings

| source | as written | input that shows it | evidently intended | confidence | as-written member | corrected member |
|---|---|---|---|---|---|---|
| components/DashboardScreen.tsx:183-191 | when the separator arrives, `summaryText += parts[0]` appends the whole text before the separator, though the earlier chunks were already appended one by one | chunks `ab` then `c\|\|\|---\|\|\|d` give the summary `ababc` | the summary is the text before the first separator (`abc`) | not executed | Stream.AsWrittenRepeatsFirstChunk | Stream.RunSummary |
