/**
 * Merging the alerts proposed by the AI into the alert list: incoming
 * alerts are stamped, those whose title+detail text matches an existing
 * alert are dropped, and the survivors go in front of the old list.
 */
module AlertMerge {
  import opened HealthTypes

  /** The duplicate key: title and detail concatenated, with no separator. */
  function Key(a: Alert): string {
    a.title + a.detail
  }

  /** The keys of a list of alerts. */
  function Keys(alerts: seq<Alert>): (ks: set<string>)
    ensures forall a :: a in alerts ==> Key(a) in ks
    ensures forall k :: k in ks ==> exists a :: a in alerts && Key(a) == k
  {
    set a | a in alerts :: Key(a)
  }

  /** Gives each incoming alert its id and the "Just now" timestamp; ids are supplied by the caller. */
  function Stamp(batch: seq<AlertInput>, ids: seq<real>): (r: seq<Alert>)
    requires |ids| == |batch|
    ensures |r| == |batch|
    ensures forall i :: 0 <= i < |r| ==>
      r[i] == Alert(ids[i], batch[i].title, batch[i].detail, "Just now", batch[i].risk)
  {
    seq(|batch|, i requires 0 <= i < |batch| =>
      Alert(ids[i], batch[i].title, batch[i].detail, "Just now", batch[i].risk))
  }

  /** The incoming alerts whose key is not among `existing`, in their order. */
  function Fresh(incoming: seq<Alert>, existing: set<string>): (r: seq<Alert>)
    ensures |r| <= |incoming|
    ensures forall a :: a in r <==> a in incoming && Key(a) !in existing
  {
    if incoming == [] then []
    else (if Key(incoming[0]) in existing then [] else [incoming[0]]) + Fresh(incoming[1..], existing)
  }

  /** Filtering distributes over concatenation: survivors keep the order they arrived in. */
  lemma {:induction false} FreshAppend(s: seq<Alert>, t: seq<Alert>, existing: set<string>)
    ensures Fresh(s + t, existing) == Fresh(s, existing) + Fresh(t, existing)
  {
    if s != [] {
      assert (s + t)[1..] == s[1..] + t;
      FreshAppend(s[1..], t, existing);
    } else {
      assert s + t == t;
    }
  }

  /** Nothing survives when every incoming key is already known. */
  lemma FreshNone(incoming: seq<Alert>, existing: set<string>)
    requires forall a :: a in incoming ==> Key(a) in existing
    ensures Fresh(incoming, existing) == []
  {
  }

  /** `handleAddAlerts`: the alert list after a batch arrives. */
  function MergeAlerts(prev: seq<Alert>, batch: seq<AlertInput>, ids: seq<real>): (r: seq<Alert>)
    requires |ids| == |batch|
    ensures r == Fresh(Stamp(batch, ids), Keys(prev)) + prev
    ensures batch == [] ==> r == prev
  {
    if |batch| == 0 then prev
    else
      var survivors := Fresh(Stamp(batch, ids), Keys(prev));
      if |survivors| == 0 then prev else survivors + prev
  }

  /**
   * The merged list is the old list with new alerts in front; every new
   * alert comes from the batch and none repeats the key of an old alert.
   */
  lemma MergeShape(prev: seq<Alert>, batch: seq<AlertInput>, ids: seq<real>)
    requires |ids| == |batch|
    ensures |MergeAlerts(prev, batch, ids)| >= |prev|
    ensures MergeAlerts(prev, batch, ids)[|MergeAlerts(prev, batch, ids)| - |prev|..] == prev
    ensures forall a :: a in MergeAlerts(prev, batch, ids)[..|MergeAlerts(prev, batch, ids)| - |prev|] ==>
      a in Stamp(batch, ids) && Key(a) !in Keys(prev)
  {
  }

  /** An incoming alert is kept exactly when no old alert has its key. */
  lemma MergeKeepsIffNew(prev: seq<Alert>, batch: seq<AlertInput>, ids: seq<real>, i: nat)
    requires |ids| == |batch| && i < |batch|
    ensures Stamp(batch, ids)[i] in MergeAlerts(prev, batch, ids) <==>
      Key(Stamp(batch, ids)[i]) !in Keys(prev) || Stamp(batch, ids)[i] in prev
  {
  }

  /** When every incoming alert repeats an old key, the old list comes back as it was. */
  lemma MergeAllDuplicates(prev: seq<Alert>, batch: seq<AlertInput>, ids: seq<real>)
    requires |ids| == |batch|
    requires forall i :: 0 <= i < |batch| ==> batch[i].title + batch[i].detail in Keys(prev)
    ensures MergeAlerts(prev, batch, ids) == prev
  {
    var st := Stamp(batch, ids);
    forall a | a in st ensures Key(a) in Keys(prev) {
      var i :| 0 <= i < |st| && st[i] == a;
      assert Key(a) == batch[i].title + batch[i].detail;
    }
    FreshNone(st, Keys(prev));
  }

  /** Every key of a batch is present after the batch is merged. */
  lemma MergeCoversBatch(prev: seq<Alert>, batch: seq<AlertInput>, ids: seq<real>)
    requires |ids| == |batch|
    ensures forall i :: 0 <= i < |batch| ==> batch[i].title + batch[i].detail in Keys(MergeAlerts(prev, batch, ids))
  {
    var st := Stamp(batch, ids);
    var r := MergeAlerts(prev, batch, ids);
    forall i | 0 <= i < |batch| ensures batch[i].title + batch[i].detail in Keys(r) {
      assert Key(st[i]) == batch[i].title + batch[i].detail;
      if Key(st[i]) in Keys(prev) {
        var a :| a in prev && Key(a) == Key(st[i]);
        assert a in r;
      } else {
        assert st[i] in r;
      }
    }
  }

  /** Merging the same batch again, under any ids, changes nothing. */
  lemma MergeIdempotent(prev: seq<Alert>, batch: seq<AlertInput>, ids: seq<real>, ids2: seq<real>)
    requires |ids| == |batch| && |ids2| == |batch|
    ensures MergeAlerts(MergeAlerts(prev, batch, ids), batch, ids2) == MergeAlerts(prev, batch, ids)
  {
    MergeCoversBatch(prev, batch, ids);
    MergeAllDuplicates(MergeAlerts(prev, batch, ids), batch, ids2);
  }

  /**
   * Two copies of a new alert in one batch are both kept, in front of the
   * old list: the key set is built from the old list only.
   */
  lemma MergeKeepsBatchDuplicates(prev: seq<Alert>, x: AlertInput, id1: real, id2: real)
    requires x.title + x.detail !in Keys(prev)
    ensures |MergeAlerts(prev, [x, x], [id1, id2])| == |prev| + 2
  {
    var stamped := Stamp([x, x], [id1, id2]);
    assert Key(stamped[0]) == x.title + x.detail && Key(stamped[1]) == x.title + x.detail;
    assert Fresh(stamped, Keys(prev)) == stamped;
  }

  /** The key has no separator: ("ab", "c") is taken for a repeat of ("a", "bc"). */
  lemma MergeKeyCollision(id0: real, id1: real, r0: RiskLevel, r1: RiskLevel)
    ensures MergeAlerts([Alert(id0, "a", "bc", "Just now", r0)], [AlertInput("ab", "c", r1)], [id1])
         == [Alert(id0, "a", "bc", "Just now", r0)]
  {
    var prev := [Alert(id0, "a", "bc", "Just now", r0)];
    assert Key(prev[0]) == "abc";
    assert "ab" + "c" == "abc";
    MergeAllDuplicates(prev, [AlertInput("ab", "c", r1)], [id1]);
  }
}
