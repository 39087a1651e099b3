/**
 * The dashboard's reader for the streamed AI reply: the reply is a summary,
 * the separator `|||---|||`, then a JSON object with the alerts. The text
 * arrives chunk by chunk; the reader keeps the whole text so far, the
 * summary, the JSON buffer and whether the separator has been seen.
 */
module Stream {
  import opened Text

  const Separator: string := "|||---|||"

  /** The tag the reply puts in front of a critical summary. */
  const EmergencyTag: string := "[EMERGENCY]"

  datatype Reader = Reader(full: string, summary: string, json: string, found: bool)

  const Start: Reader := Reader("", "", "", false)

  /**
   * One chunk, as the dashboard handles it: before the separator the chunk
   * is added to the summary; when the separator first shows up in the whole
   * text, the text before it is added to the summary and the text after it
   * (up to a second separator) starts the JSON buffer; afterwards every
   * chunk goes to the JSON buffer.
   */
  function StepAsWritten(r: Reader, chunk: string): (r': Reader)
    ensures r'.full == r.full + chunk
    ensures r'.found <==> r.found || Contains(r.full + chunk, Separator)
    ensures r.found ==> r'.summary == r.summary && r'.json == r.json + chunk
    ensures !r'.found ==> r'.summary == r.summary + chunk && r'.json == r.json
    ensures !r.found && r'.found ==>
      r'.summary == r.summary + SplitHead(r'.full, Separator) && r'.json == r.json + SplitSecond(r'.full, Separator)
  {
    var full := r.full + chunk;
    if r.found then Reader(full, r.summary, r.json + chunk, true)
    else if Contains(full, Separator) then
      Reader(full, r.summary + SplitHead(full, Separator), r.json + SplitSecond(full, Separator), true)
    else Reader(full, r.summary + chunk, r.json, false)
  }

  function RunAsWritten(chunks: seq<string>): Reader {
    if chunks == [] then Start else StepAsWritten(RunAsWritten(chunks[..|chunks| - 1]), chunks[|chunks| - 1])
  }

  /** A reply that arrives in one chunk is split at its first separator. */
  lemma RunAsWrittenOneChunk(c: string)
    ensures Contains(c, Separator) ==>
      RunAsWritten([c]).summary == SplitHead(c, Separator) && RunAsWritten([c]).json == SplitSecond(c, Separator)
    ensures !Contains(c, Separator) ==> RunAsWritten([c]).summary == c && RunAsWritten([c]).json == ""
  {
    assert [c][..0] == [];
    assert "" + c == c;
  }

  /** As written, the reader too has seen the separator exactly when the text holds it, and until then the summary is the text. */
  lemma {:induction false} RunAsWrittenTracks(chunks: seq<string>)
    ensures RunAsWritten(chunks).full == Concat(chunks)
    ensures Tracks(RunAsWritten(chunks))
  {
    if chunks != [] {
      var prefix, c := chunks[..|chunks| - 1], chunks[|chunks| - 1];
      RunAsWrittenTracks(prefix);
      var r := RunAsWritten(prefix);
      if r.found {
        IndexOfAppend(r.full, c, Separator);
      }
    }
  }

  /**
   * As written, when the separator first shows up in chunk `k`, the summary
   * is every chunk before `k` followed by the whole reply's text before its
   * first separator: the chunks before `k` are counted twice.
   */
  lemma {:induction false} RunAsWrittenSummary(chunks: seq<string>, k: nat)
    requires k < |chunks|
    requires !Contains(Concat(chunks[..k]), Separator) && Contains(Concat(chunks[..k + 1]), Separator)
    ensures RunAsWritten(chunks).found
    ensures RunAsWritten(chunks).summary == Concat(chunks[..k]) + SplitHead(Concat(chunks), Separator)
  {
    var prefix, c := chunks[..|chunks| - 1], chunks[|chunks| - 1];
    RunAsWrittenTracks(prefix);
    RunAsWrittenTracks(chunks);
    if |chunks| == k + 1 {
      assert prefix == chunks[..k];
      assert chunks[..k + 1] == chunks;
    } else {
      assert prefix[..k] == chunks[..k] && prefix[..k + 1] == chunks[..k + 1];
      RunAsWrittenSummary(prefix, k);
      var r := RunAsWritten(prefix);
      IndexOfAppend(r.full, c, Separator);
      var i := IndexOf(r.full, Separator);
      assert (r.full + c)[..i] == r.full[..i];
    }
  }

  /** As written, a reply without a separator is all summary and no JSON. */
  lemma RunAsWrittenNoSeparator(chunks: seq<string>)
    requires !Contains(Concat(chunks), Separator)
    ensures RunAsWritten(chunks).summary == Concat(chunks) && RunAsWritten(chunks).json == ""
  {
    RunAsWrittenTracks(chunks);
  }

  /**
   * When the separator arrives in the second chunk, the summary as written
   * holds the first chunk twice: once as it arrived and again in the text
   * before the separator, which holds it once.
   */
  lemma AsWrittenRepeatsFirstChunk(a: string, c: string, d: string)
    requires forall i :: 0 <= i < |a| ==> a[i] !in Separator
    requires forall i :: 0 <= i < |c| ==> c[i] !in Separator
    ensures RunAsWritten([a, c + Separator + d]).summary == a + (a + c)
    ensures SplitHead(Concat([a, c + Separator + d]), Separator) == a + c
  {
    var chunks := [a, c + Separator + d];
    var head := a + c;
    var full := head + Separator + d;
    assert chunks[..1] == [a];
    NotContainsWithoutFirstChar(a, Separator);
    RunAsWrittenOneChunk(a);
    assert a + chunks[1] == full;
    assert Concat(chunks) == full by {
      assert Concat(chunks[..1]) == a;
    }
    assert forall i :: 0 <= i < |head| ==> head[i] !in Separator by {
      assert forall i :: 0 <= i < |a| ==> head[i] == a[i];
      assert forall i :: |a| <= i < |head| ==> head[i] == c[i - |a|];
    }
    SplitHeadAt(head, Separator, d);
    assert OccursAt(full, Separator, |head|) by {
      assert full[|head|..|head| + |Separator|] == Separator;
    }
    ContainsIffOccurs(full, Separator, |head|);
  }

  /**
   * One chunk with the summary corrected: when the separator first shows up,
   * the summary becomes the text before it instead of having that text
   * added to what it already holds.
   */
  function Step(r: Reader, chunk: string): (r': Reader)
    ensures r'.full == r.full + chunk
    ensures r'.found <==> r.found || Contains(r.full + chunk, Separator)
    ensures r.found ==> r'.summary == r.summary && r'.json == r.json + chunk
    ensures !r'.found ==> r'.summary == r.summary + chunk && r'.json == r.json
    ensures !r.found && r'.found ==>
      r'.summary == SplitHead(r'.full, Separator) && r'.json == r.json + SplitSecond(r'.full, Separator)
  {
    var full := r.full + chunk;
    if r.found then Reader(full, r.summary, r.json + chunk, true)
    else if Contains(full, Separator) then
      Reader(full, SplitHead(full, Separator), r.json + SplitSecond(full, Separator), true)
    else Reader(full, r.summary + chunk, r.json, false)
  }

  function Run(chunks: seq<string>): Reader {
    if chunks == [] then Start else Step(Run(chunks[..|chunks| - 1]), chunks[|chunks| - 1])
  }

  /** The reader has seen the separator exactly when the text holds it, and until then the summary is the text. */
  predicate Tracks(r: Reader) {
    && (r.found <==> Contains(r.full, Separator))
    && (!r.found ==> r.summary == r.full && r.json == "")
  }

  lemma {:induction false} RunTracks(chunks: seq<string>)
    ensures Run(chunks).full == Concat(chunks)
    ensures Tracks(Run(chunks))
  {
    if chunks != [] {
      var prefix, c := chunks[..|chunks| - 1], chunks[|chunks| - 1];
      RunTracks(prefix);
      var r := Run(prefix);
      if r.found {
        IndexOfAppend(r.full, c, Separator);
      }
    }
  }

  /** With the correction the summary is the whole reply's text before its first separator, however it is chunked. */
  lemma {:induction false} RunSummary(chunks: seq<string>)
    ensures Run(chunks).summary == SplitHead(Concat(chunks), Separator)
  {
    if chunks != [] {
      var prefix, c := chunks[..|chunks| - 1], chunks[|chunks| - 1];
      RunSummary(prefix);
      RunTracks(prefix);
      var r := Run(prefix);
      if r.found {
        IndexOfAppend(r.full, c, Separator);
        var i := IndexOf(r.full, Separator);
        assert (r.full + c)[..i] == r.full[..i];
      }
    }
  }

  /** Every character of the emergency tag differs from every character of the separator. */
  lemma TagAvoidsSeparator()
    ensures forall k :: 0 <= k < |EmergencyTag| ==> EmergencyTag[k] != '|'
    ensures forall k :: 0 <= k < |Separator| ==> Separator[k] == '|' || Separator[k] == '-'
    ensures EmergencyTag[0] == '['
  {
  }

  /**
   * In a text whose prefix `pre` holds no separator, a tag inside `pre`
   * ends before the first separator starts.
   */
  lemma TagEndsBeforeSeparator(full: string, pre: string, i: int, j: int)
    requires |pre| <= |full| && pre == full[..|pre|] && !Contains(pre, Separator)
    requires OccursAt(full, Separator, i) && OccursAt(pre, EmergencyTag, j)
    ensures j + |EmergencyTag| <= i
  {
    TagAvoidsSeparator();
    OccursInTake(full, Separator, |pre|, i);
    OccursAtCharIf(pre, EmergencyTag, j, i - j);
    OccursAtCharIf(full, Separator, i, j - i);
    OccursAtFirstChar(full, Separator, i);
    OccursAtFirstChar(pre, EmergencyTag, j);
  }

  /**
   * Once the summary holds the emergency tag it keeps holding it: the
   * separator that cuts the summary short never starts inside or before
   * the tag.
   */
  lemma StepKeepsTag(r: Reader, chunk: string)
    requires Tracks(r) && Contains(r.summary, EmergencyTag)
    ensures Contains(Step(r, chunk).summary, EmergencyTag)
  {
    var full := r.full + chunk;
    if r.found || !Contains(full, Separator) {
      IndexOfAppend(r.summary, chunk, EmergencyTag);
    } else {
      var i := IndexOf(full, Separator);
      var j := IndexOf(r.full, EmergencyTag);
      assert r.full == full[..|r.full|];
      TagEndsBeforeSeparator(full, r.full, i, j);
      OccursInTake(full, EmergencyTag, |r.full|, j);
      OccursInTake(full, EmergencyTag, i, j);
      ContainsIffOccurs(full[..i], EmergencyTag, j);
    }
  }

  /**
   * The streaming loop of the dashboard, with the corrected summary: after
   * the last chunk, `summary` is the reply's text before the separator,
   * `critical` says whether the tag was ever in the summary and `shown` is
   * the summary with the first tag removed.
   */
  method ReadStream(chunks: seq<string>) returns (summary: string, json: string, critical: bool, shown: string)
    ensures summary == SplitHead(Concat(chunks), Separator)
    ensures json == Run(chunks).json
    ensures critical <==> Contains(summary, EmergencyTag)
    ensures shown == ReplaceFirst(summary, EmergencyTag, "")
  {
    var full := "";
    summary, json := "", "";
    var found := false;
    critical, shown := false, "";
    var i := 0;
    while i < |chunks|
      invariant 0 <= i <= |chunks|
      invariant Reader(full, summary, json, found) == Run(chunks[..i])
      invariant critical <==> Contains(summary, EmergencyTag)
      invariant shown == ReplaceFirst(summary, EmergencyTag, "")
    {
      var chunk := chunks[i];
      ghost var before := Reader(full, summary, json, found);
      full := full + chunk;
      if !found {
        if Contains(full, Separator) {
          found := true;
          summary := SplitHead(full, Separator);
          json := json + SplitSecond(full, Separator);
        } else {
          summary := summary + chunk;
        }
      } else {
        json := json + chunk;
      }
      assert Reader(full, summary, json, found) == Step(before, chunk);
      assert chunks[..i + 1][..i] == chunks[..i];
      assert Run(chunks[..i + 1]) == Step(Run(chunks[..i]), chunk);
      if Contains(summary, EmergencyTag) {
        critical := true;
        shown := ReplaceFirst(summary, EmergencyTag, "");
      } else {
        if critical {
          RunTracks(chunks[..i]);
          StepKeepsTag(before, chunk);
        }
        shown := summary;
      }
      i := i + 1;
    }
    assert chunks[..i] == chunks;
    RunSummary(chunks);
  }
}
