// Merging incremental network scans (mergeScanResults and updateNASIncrementalScan of
// pkg/manager/snapshot.go).

module ScanMerge {
  import opened Bytes
  import opened ScanResults
  import opened Wrappers

  function Key(e: Entry): string {
    e.mcc + "|" + e.mnc + "|" + e.description
  }

  // The last entry under a key, or -1.
  function LastWith(es: seq<Entry>, key: string): (i: int)
    ensures -1 <= i < |es|
    ensures i >= 0 ==> Key(es[i]) == key
    ensures forall j | i < j < |es| :: Key(es[j]) != key
  {
    if es == [] then -1
    else if Key(es[|es| - 1]) == key then |es| - 1
    else LastWith(es[..|es| - 1], key)
  }

  // Replace the last entry under the key of e, else append.
  function Put(es: seq<Entry>, e: Entry): seq<Entry> {
    var i := LastWith(es, Key(e));
    if i >= 0 then es[i := e] else es + [e]
  }

  function PutAll(es: seq<Entry>, batch: seq<Entry>): seq<Entry> {
    if batch == [] then es else Put(PutAll(es, batch[..|batch| - 1]), batch[|batch| - 1])
  }

  function Merged(before: seq<Entry>, batch: seq<Entry>): seq<Entry> {
    if before == [] then batch else PutAll(before, batch)
  }

  // The index maps every key to the position of its last entry.
  ghost predicate Indexes(index: map<string, nat>, es: seq<Entry>) {
    && (forall key <- index :: index[key] == LastWith(es, key))
    && (forall i | 0 <= i < |es| :: Key(es[i]) in index)
  }

  lemma IndexAfterPut(index: map<string, nat>, es: seq<Entry>, e: Entry, i: nat)
    requires Indexes(index, es)
    requires i == if Key(e) in index then index[Key(e)] else |es|
    ensures Put(es, e) == if i < |es| then es[i := e] else es + [e]
    ensures Indexes(index[Key(e) := i], Put(es, e))
  {
    hide Key;
    var after := Put(es, e);
    forall key <- index[Key(e) := i]
      ensures index[Key(e) := i][key] == LastWith(after, key)
    {
      LastIsUnique(after, key, index[Key(e) := i][key]);
    }
  }

  lemma LastIsUnique(es: seq<Entry>, key: string, i: int)
    requires -1 <= i < |es|
    requires i >= 0 ==> Key(es[i]) == key
    requires forall j | i < j < |es| :: Key(es[j]) != key
    ensures LastWith(es, key) == i
  {
    hide Key;
  }

  // mergeScanResults, with the index it keeps.
  method Merge(before: seq<Entry>, batch: seq<Entry>) returns (merged: seq<Entry>)
    ensures merged == Merged(before, batch)
  {
    hide Indexes, Key, Put;
    if |before| == 0 {
      return batch;
    }
    if |batch| == 0 {
      return before;
    }
    merged := before;
    var index: map<string, nat> := IndexOf(merged);
    for i := 0 to |batch|
      invariant Indexes(index, merged)
      invariant merged == PutAll(before, batch[..i])
    {
      assert batch[..i + 1][..i] == batch[..i];
      var entry := batch[i];
      var key := Key(entry);
      ghost var at := if key in index then index[key] else |merged|;
      IndexKeysAreBounded(index, merged);
      IndexAfterPut(index, merged, entry, at);
      if key in index {
        merged := merged[index[key] := entry];
        assert index[key := at] == index;
      } else {
        index := index[key := |merged|];
        merged := merged + [entry];
      }
    }
    assert batch[..|batch|] == batch;
  }

  lemma IndexKeysAreBounded(index: map<string, nat>, es: seq<Entry>)
    requires Indexes(index, es)
    ensures forall key <- index :: index[key] < |es|
  {
  }

  method IndexOf(es: seq<Entry>) returns (index: map<string, nat>)
    ensures Indexes(index, es)
  {
    hide Key;
    index := map[];
    for i := 0 to |es|
      invariant Indexes(index, es[..i])
    {
      assert es[..i + 1] == es[..i] + [es[i]];
      index := index[Key(es[i]) := i];
      forall key <- index
        ensures index[key] == LastWith(es[..i + 1], key)
      {
        LastIsUnique(es[..i + 1], key, index[key]);
      }
    }
    assert es[..|es|] == es;
  }

  // ------------------------------------------------------------------ what the merge keeps

  ghost predicate HasKey(es: seq<Entry>, key: string) {
    exists i :: 0 <= i < |es| && Key(es[i]) == key
  }

  // The newest entry under a key.
  function Newest(es: seq<Entry>, key: string): Option<Entry> {
    var i := LastWith(es, key);
    if i >= 0 then Some(es[i]) else None
  }

  ghost predicate Distinct(es: seq<Entry>) {
    forall i, j | 0 <= i < j < |es| :: Key(es[i]) != Key(es[j])
  }

  lemma NewestIffHasKey(es: seq<Entry>, key: string)
    ensures Newest(es, key).Some? <==> HasKey(es, key)
  {
    hide Key;
  }

  // Where an entry goes.
  function PlaceOf(es: seq<Entry>, e: Entry): nat {
    if LastWith(es, Key(e)) >= 0 then LastWith(es, Key(e)) else |es|
  }

  lemma PutLast(es: seq<Entry>, e: Entry, key: string)
    ensures LastWith(Put(es, e), key) == if key == Key(e) then PlaceOf(es, e) else LastWith(es, key)
  {
    hide Key;
    LastIsUnique(Put(es, e), key, if key == Key(e) then PlaceOf(es, e) else LastWith(es, key));
  }

  lemma PutNewest(es: seq<Entry>, e: Entry, key: string)
    ensures Newest(Put(es, e), key) == if key == Key(e) then Some(e) else Newest(es, key)
  {
    hide Key;
    PutLast(es, e, key);
  }

  // Under every key the merge holds the newest entry of the batch, or else the newest old one; so no
  // key is lost and none is invented.
  lemma {:induction false} MergeIsAnUpdate(es: seq<Entry>, batch: seq<Entry>, key: string)
    ensures Newest(PutAll(es, batch), key) == if HasKey(batch, key) then Newest(batch, key) else Newest(es, key)
    ensures HasKey(PutAll(es, batch), key) <==> HasKey(es, key) || HasKey(batch, key)
  {
    hide Put, Key, Newest;
    NewestIffHasKey(PutAll(es, batch), key);
    NewestIffHasKey(es, key);
    NewestIffHasKey(batch, key);
    if batch != [] {
      var front, last := batch[..|batch| - 1], batch[|batch| - 1];
      MergeIsAnUpdate(es, front, key);
      PutNewest(PutAll(es, front), last, key);
      NewestIffHasKey(front, key);
      NewestOfSnoc(front, last, key);
      assert batch == front + [last];
    }
  }

  lemma NewestOfSnoc(front: seq<Entry>, last: Entry, key: string)
    ensures Newest(front + [last], key) == if Key(last) == key then Some(last) else Newest(front, key)
  {
    hide Key;
    LastIsUnique(front + [last], key, if Key(last) == key then |front| else LastWith(front, key));
  }

  // Distinct keys stay distinct, whatever the batch.
  lemma {:induction false} MergeKeepsDistinct(es: seq<Entry>, batch: seq<Entry>)
    requires Distinct(es)
    ensures Distinct(PutAll(es, batch))
  {
    hide Key;
    if batch != [] {
      MergeKeepsDistinct(es, batch[..|batch| - 1]);
    }
  }

  // Where an old entry sits does not change, and an entry is replaced only under its own key.
  lemma {:induction false} MergeKeepsPositions(es: seq<Entry>, batch: seq<Entry>, i: nat)
    requires i < |es|
    ensures i < |PutAll(es, batch)| && Key(PutAll(es, batch)[i]) == Key(es[i])
    ensures LastWith(es, Key(es[i])) != i ==> PutAll(es, batch)[i] == es[i]
  {
    hide Key;
    if batch != [] {
      var front := batch[..|batch| - 1];
      MergeKeepsPositions(es, front, i);
      if LastWith(es, Key(es[i])) != i {
        ShadowedStaysShadowed(es, front, i);
      }
    }
  }

  lemma {:induction false} ShadowedStaysShadowed(es: seq<Entry>, batch: seq<Entry>, i: nat)
    requires i < |es| && LastWith(es, Key(es[i])) != i
    ensures LastWith(PutAll(es, batch), Key(es[i])) > i
  {
    hide Key, Put;
    if batch != [] {
      var front := batch[..|batch| - 1];
      ShadowedStaysShadowed(es, front, i);
      PutLast(PutAll(es, front), batch[|batch| - 1], Key(es[i]));
    }
  }

  // ------------------------------------------------------------------ merging a batch twice

  ghost predicate Covers(es: seq<Entry>, batch: seq<Entry>) {
    forall i | 0 <= i < |batch| :: HasKey(es, Key(batch[i]))
  }

  // A batch whose keys are all known replaces the newest entry of each of its keys and nothing else.
  lemma {:induction false} CoveredMerge(es: seq<Entry>, batch: seq<Entry>)
    requires Covers(es, batch)
    ensures |PutAll(es, batch)| == |es|
    ensures forall key :: LastWith(PutAll(es, batch), key) == LastWith(es, key)
  {
    hide Key, Put;
    if batch != [] {
      var front, last := batch[..|batch| - 1], batch[|batch| - 1];
      assert Covers(es, front) by {
        assert forall i | 0 <= i < |front| :: front[i] == batch[i];
      }
      CoveredMerge(es, front);
      var f := PutAll(es, front);
      NewestIffHasKey(es, Key(last));
      KnownPut(f, last);
      forall key
        ensures LastWith(Put(f, last), key) == LastWith(es, key)
      {
        PutLast(f, last, key);
      }
    }
  }

  lemma KnownPut(es: seq<Entry>, e: Entry)
    requires LastWith(es, Key(e)) >= 0
    ensures |Put(es, e)| == |es|
  {
  }

  // Merging the same batch once more changes nothing.
  lemma RemergeIsANoOp(es: seq<Entry>, batch: seq<Entry>)
    ensures PutAll(PutAll(es, batch), batch) == PutAll(es, batch)
  {
    hide Key, Put, PutAll;
    var r := PutAll(es, batch);
    forall i | 0 <= i < |batch|
      ensures HasKey(r, Key(batch[i]))
    {
      MergeIsAnUpdate(es, batch, Key(batch[i]));
    }
    CoveredMerge(r, batch);
    forall i | 0 <= i < |r|
      ensures PutAll(r, batch)[i] == r[i]
    {
      MergeKeepsPositions(r, batch, i);
      MergeIsAnUpdate(r, batch, Key(r[i]));
      MergeIsAnUpdate(es, batch, Key(r[i]));
    }
  }

  // ------------------------------------------------------------------ keys and triples

  predicate SameNetwork(d: Entry, e: Entry) {
    d.mcc == e.mcc && d.mnc == e.mnc && d.description == e.description
  }

  predicate PlainCodes(e: Entry) {
    '|' !in e.mcc && '|' !in e.mnc
  }

  lemma {:induction false} FirstBar(a: string, b: string, c: string, d: string)
    requires '|' !in a && '|' !in c && a + "|" + b == c + "|" + d
    ensures a == c && b == d
  {
    var s := a + "|" + b;
    assert s[|a|] == '|' && s[|c|] == '|';
    assert forall i | 0 <= i < |a| :: s[i] == a[i] && a[i] in a;
    assert forall i | 0 <= i < |c| :: s[i] == c[i] && c[i] in c;
    assert s[..|a|] == a && s[..|c|] == c;
    assert s[|a| + 1..] == b && s[|c| + 1..] == d;
  }

  // The key is as good as the triple when the numeric codes hold no bar, ...
  lemma KeysAreInjective(d: Entry, e: Entry)
    requires PlainCodes(d) && PlainCodes(e)
    ensures Key(d) == Key(e) <==> SameNetwork(d, e)
  {
    assert Key(d) == d.mcc + "|" + (d.mnc + "|" + d.description);
    assert Key(e) == e.mcc + "|" + (e.mnc + "|" + e.description);
    if Key(d) == Key(e) {
      FirstBar(d.mcc, d.mnc + "|" + d.description, e.mcc, e.mnc + "|" + e.description);
      FirstBar(d.mnc, d.description, e.mnc, e.description);
    }
  }

  // The bar-free codes matter: these entries, which no indication can carry, would replace each other.
  lemma KeysCollide() returns (d: Entry, e: Entry)
    ensures Key(d) == Key(e) && !SameNetwork(d, e)
  {
    d, e := Entry("1", "2|3", "", 0, []), Entry("1|2", "3", "", 0, []);
    assert Key(d) == "1|2|3|" == Key(e);
  }

  // The merge by triple.
  function LastSame(es: seq<Entry>, e: Entry): (i: int)
    ensures -1 <= i < |es|
    ensures i >= 0 ==> SameNetwork(es[i], e)
    ensures forall j | i < j < |es| :: !SameNetwork(es[j], e)
  {
    if es == [] then -1
    else if SameNetwork(es[|es| - 1], e) then |es| - 1
    else LastSame(es[..|es| - 1], e)
  }

  function Replace(es: seq<Entry>, e: Entry): seq<Entry> {
    var i := LastSame(es, e);
    if i >= 0 then es[i := e] else es + [e]
  }

  function ReplaceAll(es: seq<Entry>, batch: seq<Entry>): seq<Entry> {
    if batch == [] then es else Replace(ReplaceAll(es, batch[..|batch| - 1]), batch[|batch| - 1])
  }

  ghost predicate AllPlain(es: seq<Entry>) {
    forall i | 0 <= i < |es| :: PlainCodes(es[i])
  }

  // With plain codes the merge is the fold that replaces the last entry of the same network, or
  // appends.
  lemma {:induction false} MergeIsByNetwork(es: seq<Entry>, batch: seq<Entry>)
    requires AllPlain(es) && AllPlain(batch)
    ensures PutAll(es, batch) == ReplaceAll(es, batch) && AllPlain(PutAll(es, batch))
  {
    hide Key, SameNetwork, PlainCodes;
    if batch != [] {
      var front, last := batch[..|batch| - 1], batch[|batch| - 1];
      MergeIsByNetwork(es, front);
      PutIsReplace(PutAll(es, front), last);
    }
  }

  lemma PutIsReplace(es: seq<Entry>, e: Entry)
    requires AllPlain(es) && PlainCodes(e)
    ensures Put(es, e) == Replace(es, e)
  {
    hide Key, SameNetwork, PlainCodes;
    forall i | 0 <= i < |es|
      ensures Key(es[i]) == Key(e) <==> SameNetwork(es[i], e)
    {
      KeysAreInjective(es[i], e);
    }
  }

  // ------------------------------------------------------------------ the snapshot

  // The stored scan, None before the first indication.
  class ScanSnapshot {
    var results: Option<seq<Entry>>
    var complete: bool

    constructor ()
      ensures results.None?
    {
      results, complete := None, false;
    }

    // updateNASIncrementalScan.
    method Update(batch: seq<Entry>, scanComplete: bool)
      modifies this
      ensures results == Some(Merged(if old(results).Some? then old(results).value else [], batch))
      ensures complete == scanComplete
    {
      var merged := batch;
      if results.Some? {
        merged := Merge(results.value, batch);
      }
      results := Some(merged);
      complete := scanComplete;
    }
  }

  // The stored scan after a run of indications.
  function AfterUpdates(batches: seq<seq<Entry>>): seq<Entry> {
    if batches == [] then [] else Merged(AfterUpdates(batches[..|batches| - 1]), batches[|batches| - 1])
  }

  // Over a whole scan no network is lost or invented: the stored keys are those of all the batches.
  lemma {:induction false} ScanKeepsEveryKey(batches: seq<seq<Entry>>, key: string)
    ensures HasKey(AfterUpdates(batches), key) <==> exists b :: 0 <= b < |batches| && HasKey(batches[b], key)
  {
    hide HasKey;
    if batches == [] {
      NoKeys(key);
    } else {
      var front, last := batches[..|batches| - 1], batches[|batches| - 1];
      ScanKeepsEveryKey(front, key);
      MergedKeys(AfterUpdates(front), last, key);
      assert forall b | 0 <= b < |front| :: front[b] == batches[b];
    }
  }

  lemma NoKeys(key: string)
    ensures !HasKey([], key)
  {
  }

  lemma MergedKeys(es: seq<Entry>, batch: seq<Entry>, key: string)
    ensures HasKey(Merged(es, batch), key) <==> HasKey(es, key) || HasKey(batch, key)
  {
    hide HasKey;
    NoKeys(key);
    MergeIsAnUpdate(es, batch, key);
  }

  // ------------------------------------------------------------------ scans as the modem reports them

  // The batches a run of indications yields.
  function Batches(inds: seq<Indication>): seq<seq<Entry>> {
    seq(|inds|, i requires 0 <= i < |inds| => Results(inds[i]))
  }

  lemma CodedIsPlain(e: Entry)
    requires Coded(e)
    ensures PlainCodes(e)
  {
    var m: U16 :| e.mcc == Code(m);
    var n: U16 :| e.mnc == Code(n);
    CodeReadsBack(m);
    CodeReadsBack(n);
  }

  lemma AllCodedIsPlain(es: seq<Entry>)
    requires AllCoded(es)
    ensures AllPlain(es)
  {
    hide Coded, PlainCodes;
    forall i | 0 <= i < |es|
      ensures PlainCodes(es[i])
    {
      CodedIsPlain(es[i]);
    }
  }

  // The same scan kept by network: the first nonempty batch, then each entry in place of the last one
  // of its network or at the end.
  function ByNetwork(batches: seq<seq<Entry>>): seq<Entry> {
    if batches == [] then []
    else
      var before, batch := ByNetwork(batches[..|batches| - 1]), batches[|batches| - 1];
      if before == [] then batch else ReplaceAll(before, batch)
  }

  lemma {:induction false} PlainScanIsByNetwork(batches: seq<seq<Entry>>)
    requires forall b <- batches :: AllPlain(b)
    ensures AfterUpdates(batches) == ByNetwork(batches) && AllPlain(AfterUpdates(batches))
  {
    hide AllPlain, PutAll, ReplaceAll;
    if batches == [] {
      NothingIsPlain();
    } else {
      PlainScanIsByNetwork(batches[..|batches| - 1]);
      MergeIsByNetwork(AfterUpdates(batches[..|batches| - 1]), batches[|batches| - 1]);
    }
  }

  lemma NothingIsPlain()
    ensures AllPlain([])
  {
  }

  // Whatever octets the modem sends, the stored scan is the one kept by network.
  lemma ScanIsByNetwork(inds: seq<Indication>)
    ensures AfterUpdates(Batches(inds)) == ByNetwork(Batches(inds))
  {
    hide AllPlain, AllCoded, AfterUpdates, ByNetwork, Results;
    forall b <- Batches(inds)
      ensures AllPlain(b)
    {
      var i :| 0 <= i < |inds| && b == Results(inds[i]);
      ResultsAreCoded(inds[i]);
      AllCodedIsPlain(b);
    }
    PlainScanIsByNetwork(Batches(inds));
  }

  // And a network is what it should be: the two numbers and the description.
  lemma SameNetworkIsSameNumbers(d: Entry, e: Entry, c1: U16, n1: U16, c2: U16, n2: U16)
    requires d.mcc == Code(c1) && d.mnc == Code(n1) && e.mcc == Code(c2) && e.mnc == Code(n2)
    ensures Key(d) == Key(e) <==> c1 == c2 && n1 == n2 && d.description == e.description
  {
    hide Key, Code, PlainCodes;
    assert IsCode(d.mcc) && IsCode(d.mnc) && IsCode(e.mcc) && IsCode(e.mnc);
    CodedIsPlain(d);
    CodedIsPlain(e);
    KeysAreInjective(d, e);
    CodesAreInjective(c1, c2);
    CodesAreInjective(n1, n2);
  }

  // It holds each key once exactly when the first nonempty batch did: that one is copied as it is.
  lemma {:induction false} ScanIsDistinctIffItsFirstBatchIs(batches: seq<seq<Entry>>, first: nat)
    requires first < |batches| && batches[first] != [] && forall b | 0 <= b < first :: batches[b] == []
    ensures AfterUpdates(batches) != []
    ensures Distinct(AfterUpdates(batches)) <==> Distinct(batches[first])
  {
    hide Distinct, PutAll, Put, Key;
    var front := batches[..|batches| - 1];
    assert forall b | 0 <= b < |front| :: front[b] == batches[b];
    if first == |batches| - 1 {
      EmptySoFar(front);
    } else {
      ScanIsDistinctIffItsFirstBatchIs(front, first);
      DistinctIffItWas(AfterUpdates(front), batches[|batches| - 1]);
    }
  }

  lemma {:induction false} EmptySoFar(batches: seq<seq<Entry>>)
    requires forall b | 0 <= b < |batches| :: batches[b] == []
    ensures AfterUpdates(batches) == []
  {
    if batches != [] {
      EmptySoFar(batches[..|batches| - 1]);
    }
  }

  lemma DistinctIffItWas(es: seq<Entry>, batch: seq<Entry>)
    requires es != []
    ensures Merged(es, batch) != [] && (Distinct(Merged(es, batch)) <==> Distinct(es))
  {
    hide Key, PutAll;
    MergeKeepsPositions(es, batch, 0);
    if Distinct(es) {
      MergeKeepsDistinct(es, batch);
    } else {
      var i, j :| 0 <= i < j < |es| && Key(es[i]) == Key(es[j]);
      MergeKeepsPositions(es, batch, i);
      MergeKeepsPositions(es, batch, j);
    }
  }
}
