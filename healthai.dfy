/**
 * The chat screen: the health context given to the assistant (current
 * readings and the weekly and monthly histories as text) and the message
 * list kept while a reply streams in.
 */
module HealthAI {
  import opened Optional
  import opened Text
  import opened Numbers
  import opened Records
  import opened HealthTypes
  import opened Registry
  import opened TimeSeries
  import opened Dashboard

  /** `currentVitalsSummary`: every reading with a present value, as "key: value unit", in key order. */
  function CurrentVitalsSummary(data: Record<Reading>): string {
    Join(ReadingItems(data.keys, data), ", ")
  }

  /** The summary is empty exactly when no reading has a present value. */
  lemma CurrentVitalsSummaryEmpty(data: Record<Reading>)
    ensures CurrentVitalsSummary(data) == "" <==> forall k :: k in data.entries ==> !Present(data.entries[k].value)
  {
    ReadingGroupEmpty(data.keys, data);
  }

  /** `values.map(v => v.toFixed(1))` */
  function Fixed(vs: seq<real>): (r: seq<string>)
    requires forall i :: 0 <= i < |vs| ==> vs[i] >= 0.0
    ensures |r| == |vs|
    ensures forall i :: 0 <= i < |vs| ==> r[i] == FixedOne(vs[i])
  {
    if vs == [] then [] else [FixedOne(vs[0])] + Fixed(vs[1..])
  }

  /** One metric of the history text, `name [v, v, ...]`, or nothing when no point is above zero. */
  function HistoryEntry(name: string, points: seq<HealthDataPoint>): (r: Option<string>)
    ensures r.None? <==> Positives(points) == []
    ensures r.Some? ==> var n := |name| + 2;
      && |r.value| > n && r.value[..n] == name + " [" && r.value[|r.value| - 1] == ']'
      && r.value[n..|r.value| - 1] == Join(Fixed(Positives(points)), ", ")
  {
    var vs := Positives(points);
    if vs == [] then None
    else
      Bracketed(name, Join(Fixed(vs), ", "));
      Some(name + " [" + Join(Fixed(vs), ", ") + "]")
  }

  /** The parts of `name [inner]` can be read back. */
  lemma Bracketed(name: string, inner: string)
    ensures var s := name + " [" + inner + "]"; var n := |name| + 2;
      && |s| > n && s[..n] == name + " [" && s[|s| - 1] == ']' && s[n..|s| - 1] == inner
  {
    var s := name + " [" + inner + "]";
    assert s[..|name| + 2] == name + " [";
    assert s[|name| + 2..|s| - 1] == inner;
  }

  /** The entries of the metrics in `keys` that have a point above zero, in key order. */
  function HistoryEntries(keys: seq<string>, history: Record<seq<HealthDataPoint>>): (r: seq<string>)
    ensures forall s :: s in r ==> s != ""
    ensures r == [] <==> forall k :: k in keys && k in history.entries ==> Positives(history.entries[k]) == []
    ensures |keys| == 1 ==> r == (if keys[0] in history.entries && Positives(history.entries[keys[0]]) != []
                                  then [HistoryEntry(keys[0], history.entries[keys[0]]).value] else [])
  {
    if keys == [] then [] else EntryOf(keys[0], history) + HistoryEntries(keys[1..], history)
  }

  /** The entry of one key as a list: empty when the key is missing or has no point above zero. */
  function EntryOf(k: string, history: Record<seq<HealthDataPoint>>): seq<string> {
    if k in history.entries then
      match HistoryEntry(k, history.entries[k])
      case None => []
      case Some(e) => [e]
    else []
  }

  /** The entries keep the key order: joined key lists give each part's entries, in turn. */
  lemma {:induction false} HistoryEntriesAppend(s: seq<string>, t: seq<string>, history: Record<seq<HealthDataPoint>>)
    ensures HistoryEntries(s + t, history) == HistoryEntries(s, history) + HistoryEntries(t, history)
  {
    if s != [] {
      var e := EntryOf(s[0], history);
      assert (s + t)[0] == s[0] && (s + t)[1..] == s[1..] + t;
      assert HistoryEntries(s + t, history) == e + HistoryEntries(s[1..] + t, history);
      HistoryEntriesAppend(s[1..], t, history);
      ConcatAssoc(e, HistoryEntries(s[1..], history), HistoryEntries(t, history));
    } else {
      assert s + t == t;
    }
  }

  /** `formatHistory`: the period heading and the entries joined by "; ", or "" when no metric has a point above zero. */
  function FormatHistory(history: Record<seq<HealthDataPoint>>, period: string): (r: string)
    ensures var head := "\n" + period + " data (chronological): ";
      r != "" ==> |r| > |head| && r[..|head|] == head && r[|head|..] == Join(HistoryEntries(history.keys, history), "; ")
  {
    var entries := Join(HistoryEntries(history.keys, history), "; ");
    if entries == "" then "" else "\n" + period + " data (chronological): " + entries
  }

  /** The history text is empty exactly when no series has a point above zero. */
  lemma FormatHistoryEmpty(history: Record<seq<HealthDataPoint>>, period: string)
    ensures FormatHistory(history, period) == "" <==>
      forall k :: k in history.entries ==> Positives(history.entries[k]) == []
  {
    JoinEmpty(HistoryEntries(history.keys, history), "; ");
  }

  /** A history made only of fresh windows adds no history text to the context. */
  lemma FreshHistoryFormatsEmpty(history: Record<seq<HealthDataPoint>>, w: Window, today: Day, period: string)
    requires AllFresh(history, w, today)
    ensures FormatHistory(history, period) == ""
  {
    ZeroWindowHasNoPositives(w, today);
    FormatHistoryEmpty(history, period);
  }

  const WeekPeriod: string := "Last 7 days"
  const MonthPeriod: string := "Last 30 days"

  /** `fullContext`: the current readings or "No current data", then the weekly and monthly texts when not empty. */
  function FullContext(data: Record<Reading>, week: Record<seq<HealthDataPoint>>, month: Record<seq<HealthDataPoint>>)
    : (r: string)
    ensures |r| >= |ContextStart| && r[..|ContextStart|] == ContextStart
  {
    var summary := CurrentVitalsSummary(data);
    var readings := if summary != "" then summary else "No current data";
    var weekly := FormatHistory(week, WeekPeriod);
    var monthly := FormatHistory(month, MonthPeriod);
    ContextKeepsStart(ContextStart, readings, weekly, monthly);
    Appended(ContextStart + readings + ".", weekly, monthly)
  }

  const ContextStart: string := "Current vitals: "

  /** `let s = c; if (w) s += w; if (m) s += m;` */
  function Appended(c: string, w: string, m: string): string {
    var withWeek := if w != "" then c + w else c;
    if m != "" then withWeek + m else withWeek
  }

  /** Appending the history texts leaves the start of the readings line in place. */
  lemma ContextKeepsStart(start: string, readings: string, w: string, m: string)
    ensures var r := Appended(start + readings + ".", w, m); |r| >= |start| && r[..|start|] == start
  {
    var c := start + readings + ".";
    assert c[..|start|] == start;
    var withWeek := if w != "" then c + w else c;
    assert withWeek[..|c|] == c;
    var r := if m != "" then withWeek + m else withWeek;
    assert r[..|withWeek|] == withWeek;
  }

  /**
   * The context is the readings line followed by the weekly and then the
   * monthly text, each of which adds nothing when empty.
   */
  lemma FullContextLayout(data: Record<Reading>, week: Record<seq<HealthDataPoint>>, month: Record<seq<HealthDataPoint>>)
    ensures var summary := CurrentVitalsSummary(data);
      FullContext(data, week, month)
        == "Current vitals: " + (if summary != "" then summary else "No current data") + "."
           + FormatHistory(week, WeekPeriod) + FormatHistory(month, MonthPeriod)
  {
    var summary := CurrentVitalsSummary(data);
    var readings := if summary != "" then summary else "No current data";
    AppendedIsConcat(ContextStart + readings + ".", FormatHistory(week, WeekPeriod), FormatHistory(month, MonthPeriod));
  }

  /** Skipping an empty text is the same as appending it. */
  lemma AppendedIsConcat(c: string, w: string, m: string)
    ensures Appended(c, w, m) == c + w + m
  {
    if w == "" {
      assert c + w == c;
    }
    if m == "" {
      assert c + w + m == c + w;
    }
  }

  /** With no present reading and no point above zero the context is the fixed "no data" line. */
  lemma FullContextWithoutData(data: Record<Reading>, week: Record<seq<HealthDataPoint>>, month: Record<seq<HealthDataPoint>>)
    requires forall k :: k in data.entries ==> !Present(data.entries[k].value)
    requires forall k :: k in week.entries ==> Positives(week.entries[k]) == []
    requires forall k :: k in month.entries ==> Positives(month.entries[k]) == []
    ensures FullContext(data, week, month) == "Current vitals: No current data."
  {
    CurrentVitalsSummaryEmpty(data);
    FormatHistoryEmpty(week, WeekPeriod);
    FormatHistoryEmpty(month, MonthPeriod);
    NoDataLine();
  }

  lemma NoDataLine()
    ensures "Current vitals: " + "No current data" + "." == "Current vitals: No current data."
  {
  }

  /** The context ends with the monthly text whenever that text is not empty. */
  lemma FullContextEndsWithMonth(data: Record<Reading>, week: Record<seq<HealthDataPoint>>, month: Record<seq<HealthDataPoint>>)
    requires FormatHistory(month, MonthPeriod) != ""
    ensures var r := FullContext(data, week, month); var m := FormatHistory(month, MonthPeriod);
      |r| >= |m| && r[|r| - |m|..] == m
  {
  }

  /** What the greeting says after the user's name. */
  const GreetingEnd: string := "! I'm HealthSense AI. How can I help you with your health questions today? Please remember, I'm an assistant, not a doctor."

  function Greeting(userName: string): (s: string)
    ensures |s| > 6 + |userName| && s[6..6 + |userName|] == userName
  {
    assert GreetingEnd != "";
    var s := "Hello " + userName + GreetingEnd;
    assert s[6..6 + |userName|] == userName;
    s
  }

  const TroubleConnecting: string := "Sorry, I'm having trouble connecting right now."
  const ReplyFailed: string := "I encountered an error. Please try again."

  /** The chat screen's state: the message list, the input box, the in-flight flag and whether a chat exists. */
  class ChatSession {
    var messages: seq<ChatMessage>
    var input: string
    var isLoading: bool
    var hasChat: bool

    constructor(userName: string)
      ensures messages == [ChatMessage(Ai, Greeting(userName))]
      ensures input == "" && !isLoading && !hasChat
    {
      messages := [ChatMessage(Ai, Greeting(userName))];
      input := "";
      isLoading := false;
      hasChat := false;
    }

    /** `initChat`: creating the chat either succeeds or appends the connection-trouble message. */
    method InitChat(fails: bool)
      modifies this`messages, this`hasChat
      ensures fails ==> messages == old(messages) + [ChatMessage(Ai, TroubleConnecting)] && hasChat == old(hasChat)
      ensures !fails ==> messages == old(messages) && hasChat
    {
      if fails {
        messages := messages + [ChatMessage(Ai, TroubleConnecting)];
      } else {
        hasChat := true;
      }
    }

    method Type(text: string)
      modifies this`input
      ensures input == text
    {
      input := text;
    }

    /**
     * `sendMessage`. When the request opens a stream, an empty reply is
     * appended and, after each chunk, its text is the reply received so
     * far; a failure (before the stream opens, or after the chunks that
     * arrived) appends exactly one error message.
     */
    method SendMessage(started: bool, chunks: seq<string>, failed: bool)
      modifies this`messages, this`input, this`isLoading
      ensures IsBlank(old(input)) || old(isLoading) || !hasChat ==>
        messages == old(messages) && input == old(input) && isLoading == old(isLoading)
      ensures !(IsBlank(old(input)) || old(isLoading) || !hasChat) ==>
        (input == "" && !isLoading && messages == old(messages) + [ChatMessage(User, old(input))] + Reply(started, chunks, failed))
    {
      if IsBlank(input) || isLoading || !hasChat {
        return;
      }
      Send(started, chunks, failed);
    }

    /** The part of `sendMessage` past its guard. */
    method Send(started: bool, chunks: seq<string>, failed: bool)
      modifies this`messages, this`input, this`isLoading
      ensures input == "" && !isLoading
      ensures messages == old(messages) + [ChatMessage(User, old(input))] + Reply(started, chunks, failed)
    {
      var sent := messages + [ChatMessage(User, input)];
      messages := sent;
      input := "";
      isLoading := true;
      if started {
        var reply := "";
        messages := messages + [ChatMessage(Ai, "")];
        var i := 0;
        while i < |chunks|
          invariant 0 <= i <= |chunks|
          invariant reply == Concat(chunks[..i])
          invariant messages == sent + [ChatMessage(Ai, reply)]
          invariant input == ""
        {
          reply := reply + chunks[i];
          assert chunks[..i + 1][..i] == chunks[..i];
          assert messages[..|messages| - 1] == sent;
          messages := messages[..|messages| - 1] + [ChatMessage(Ai, reply)];
          i := i + 1;
        }
        assert chunks[..i] == chunks;
      }
      if failed || !started {
        messages := messages + [ChatMessage(Ai, ReplyFailed)];
      }
      assert messages == sent + Reply(started, chunks, failed);
      isLoading := false;
    }
  }

  /** The messages a send adds after the user's own message. */
  function Reply(started: bool, chunks: seq<string>, failed: bool): (r: seq<ChatMessage>)
    ensures !started ==> r == [ChatMessage(Ai, ReplyFailed)]
    ensures started ==> |r| >= 1 && r[0] == ChatMessage(Ai, Concat(chunks))
    ensures started && failed ==> |r| == 2 && r[1] == ChatMessage(Ai, ReplyFailed)
    ensures |r| == (if started && !failed then 1 else if started then 2 else 1)
  {
    if !started then [ChatMessage(Ai, ReplyFailed)]
    else [ChatMessage(Ai, Concat(chunks))] + (if failed then [ChatMessage(Ai, ReplyFailed)] else [])
  }
}
