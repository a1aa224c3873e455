/** Merging an import into the session (app.py, `merge_snapshot`; android SaintData.java has a second form). `cap`
    stands for MAX_RECORDS. */
module SessionMerge {
  import opened Wrappers
  import opened Collections
  import opened Ranking

  // `folded` is the text in lower case.
  datatype Record = Record(origin: Option<string>, source: string, text: string, folded: string, detail: string,
      when: Option<int>)

  datatype SourceEntry = SourceEntry(source: string, count: nat)

  // `finished` is a finished map of the session, if one has been built.
  datatype Snapshot = Snapshot(records: seq<Record>, categories: set<string>, watchTimes: seq<int>,
      finished: Option<string>,
                               sources: seq<SourceEntry>)

  datatype Incoming = Incoming(records: seq<Record>, categories: set<string>, watchTimes: seq<int>)

  datatype Outcome = Outcome(snapshot: Snapshot, added: nat, skipped: nat, dropped: nat)

  // ---- identity of passages ----

  // Sources whose entries are told apart by date as well as text.
  const DATED_IDENTITY_SOURCES: set<string> := {"usage"}

  datatype Key = Key(origin: Option<string>, source: string, folded: string, detail: string, when: Option<int>)

  function RecordKey(r: Record): Key {
    Key(r.origin, r.source, r.folded, r.detail,
        if r.origin.Some? && r.origin.value in DATED_IDENTITY_SOURCES then r.when else None)
  }

  // ---- the multiset difference ----

  function Count<T, K(==)>(items: seq<T>, key: T -> K, k: K, n: nat): nat
    requires n <= |items|
  {
    if n == 0 then 0 else Count(items, key, k, n - 1) + if key(items[n - 1]) == k then 1 else 0
  }

  function CountAll<T, K(==)>(items: seq<T>, key: T -> K, k: K): nat {
    Count(items, key, k, |items|)
  }

  /** The items of incoming before position n that existing does not cover: item i is added exactly when as many
      earlier items as existing holds already had its key. */
  function Added<T, K(==)>(existing: seq<T>, incoming: seq<T>, key: T -> K, n: nat): seq<T>
    requires n <= |incoming|
  {
    if n == 0 then []
    else
      var item := incoming[n - 1];
      Added(existing, incoming, key, n - 1)
      + if Count(incoming, key, key(item), n - 1) >= CountAll(existing, key, key(item)) then [item] else []
  }

  function New<T, K(==)>(existing: seq<T>, incoming: seq<T>, key: T -> K): seq<T> {
    Added(existing, incoming, key, |incoming|)
  }

  function Over(have: nat, covered: nat): nat {
    if have <= covered then 0 else have - covered
  }

  lemma CountAppend<T, K>(items: seq<T>, item: T, key: T -> K, k: K)
    ensures CountAll(items + [item], key, k) == CountAll(items, key, k) + if key(item) == k then 1 else 0
  {
    CountPrefix(items, [item], key, k, |items|);
  }

  lemma {:induction false} CountPrefix<T, K>(a: seq<T>, b: seq<T>, key: T -> K, k: K, n: nat)
    requires n <= |a|
    ensures Count(a + b, key, k, n) == Count(a, key, k, n)
  {
    if n > 0 { CountPrefix(a, b, key, k, n - 1); }
  }

  lemma {:induction false} CountConcat<T, K>(a: seq<T>, b: seq<T>, key: T -> K, k: K)
    ensures CountAll(a + b, key, k) == CountAll(a, key, k) + CountAll(b, key, k)
  {
    if b == [] {
      assert a + b == a;
    } else {
      var n := |b| - 1;
      assert a + b == (a + b[..n]) + [b[n]] && b == b[..n] + [b[n]];
      CountAppend(a + b[..n], b[n], key, k);
      CountAppend(b[..n], b[n], key, k);
      CountConcat(a, b[..n], key, k);
    }
  }

  /** As multisets of keys, what is added is what came minus what was there. */
  lemma {:induction false} AddedIsDifference<T, K>(existing: seq<T>, incoming: seq<T>, key: T -> K, k: K, n: nat)
    requires n <= |incoming|
    ensures CountAll(Added(existing, incoming, key, n), key, k) ==
              Over(Count(incoming, key, k, n), CountAll(existing, key, k))
  {
    if n > 0 {
      AddedIsDifference(existing, incoming, key, k, n - 1);
      var item := incoming[n - 1];
      if Count(incoming, key, key(item), n - 1) >= CountAll(existing, key, key(item)) {
        CountAppend(Added(existing, incoming, key, n - 1), item, key, k);
      } else {
        assert Added(existing, incoming, key, n) == Added(existing, incoming, key, n - 1);
      }
    }
  }

  lemma {:induction false} AddedAreIncoming<T, K>(existing: seq<T>, incoming: seq<T>, key: T -> K, n: nat)
    requires n <= |incoming|
    ensures |Added(existing, incoming, key, n)| <= n
    ensures forall x :: x in Added(existing, incoming, key, n) ==> x in incoming[..n]
  {
    if n > 0 {
      AddedAreIncoming(existing, incoming, key, n - 1);
      assert incoming[..n] == incoming[..n - 1] + [incoming[n - 1]];
    }
  }

  function Left<K>(remaining: map<K, nat>, k: K): nat {
    if k in remaining then remaining[k] else 0
  }

  method Counter<T, K(==)>(items: seq<T>, key: T -> K) returns (counts: map<K, nat>)
    ensures forall k: K :: Left(counts, k) == CountAll(items, key, k)
  {
    counts := map[];
    for n := 0 to |items|
      invariant forall k: K :: Left(counts, k) == Count(items, key, k, n)
    {
      var k := key(items[n]);
      counts := counts[k := Left(counts, k) + 1];
    }
  }

  method NotAlreadyPresent<T, K(==)>(existing: seq<T>, incoming: seq<T>, key: T -> K) returns (added: seq<T>)
    ensures added == New(existing, incoming, key)
  {
    var remaining := Counter(existing, key);
    added := [];
    for n := 0 to |incoming|
      invariant added == Added(existing, incoming, key, n)
      invariant forall k: K :: Left(remaining, k) == Over(CountAll(existing, key, k), Count(incoming, key, k, n))
    {
      var k := key(incoming[n]);
      if Left(remaining, k) > 0 {
        remaining := remaining[k := remaining[k] - 1];
      } else {
        added := added + [incoming[n]];
      }
    }
  }

  // ---- the newest passages ----

  predicate IsLater(a: Option<int>, b: Option<int>) {
    a.Some? && (b.None? || a.value > b.value)
  }

  /** Record i ranks before record j: it is more recent, undated records last, and file order among equals. */
  predicate Outranks(records: seq<Record>, i: nat, j: nat)
    requires i < |records| && j < |records|
  {
    IsLater(records[i].when, records[j].when) || (records[i].when == records[j].when && i < j)
  }

  function ByRecency(records: seq<Record>): Order<nat> {
    (i: nat, j: nat) => i < |records| && j < |records| && Outranks(records, i, j)
  }

  lemma RecencyOrders(records: seq<Record>, ids: set<nat>)
    requires forall i :: i in ids ==> i < |records|
    ensures Orders(ByRecency(records), ids)
  {
  }

  // The positions of one source's passages.
  function Ids(records: seq<Record>, source: string): set<nat> {
    set i: nat | i < |records| && records[i].origin == Some(source)
  }

  function Below(n: nat): set<nat> {
    if n == 0 then {} else Below(n - 1) + {n - 1}
  }

  lemma {:induction false} BelowMeaning(n: nat)
    ensures |Below(n)| == n && forall i: nat :: i in Below(n) <==> i < n
  {
    if n > 0 { BelowMeaning(n - 1); }
  }

  function All(records: seq<Record>): set<nat> {
    Below(|records|)
  }

  /** Which of these records `_newest` keeps. */
  function Newest(records: seq<Record>, ids: set<nat>, count: nat): set<nat> {
    Top(ByRecency(records), ids, count)
  }

  /** The program sorts the positions and takes the first `count`; Java's comparator gives the same order. */
  lemma NewestIsSortedPrefix(records: seq<Record>, ids: set<nat>, ranked: seq<nat>, count: nat)
    requires (forall i :: i in ids ==> i < |records|) && (forall i :: i in ranked <==> i in ids) && count <= |ranked|
    requires forall i, j :: 0 <= i < j < |ranked| ==> ByRecency(records)(ranked[i], ranked[j])
    ensures (set i | i in ranked[..count]) == Newest(records, ids, count)
  {
    RecencyOrders(records, ids);
    SortedPrefixIsTop(ByRecency(records), ranked, ids, count);
  }

  // The records at the positions in keep, in order.
  function Pick(records: seq<Record>, keep: set<nat>, n: nat): seq<Record>
    requires n <= |records|
  {
    if n == 0 then [] else Pick(records, keep, n - 1) + if n - 1 in keep then [records[n - 1]] else []
  }

  function Capacity(records: seq<Record>, source: string, cap: nat): nat {
    Over(cap, Over(|records|, |Ids(records, source)|))
  }

  /** What stays of existing and new together: everything, or other sources' passages and the newest of this one's. */
  function Keep(records: seq<Record>, source: string, cap: nat): set<nat> {
    if |records| <= cap then All(records)
    else (All(records) - Ids(records, source)) + Newest(records, Ids(records, source), Capacity(records, source, cap))
  }

  // ---- the merge ----

  function Tagged(records: seq<Record>, source: string): seq<Record> {
    seq(|records|, i requires 0 <= i < |records| => records[i].(origin := Some(source)))
  }

  function NewRecords(existing: Snapshot, incoming: Incoming, source: string): seq<Record> {
    New(existing.records, Tagged(incoming.records, source), RecordKey)
  }

  // Existing and new passages before trimming.
  function Together(existing: Snapshot, incoming: Incoming, source: string): seq<Record> {
    existing.records + NewRecords(existing, incoming, source)
  }

  function NewKept(existing: Snapshot, incoming: Incoming, source: string, cap: nat): set<nat> {
    set i | i in Keep(Together(existing, incoming, source), source, cap) && i >= |existing.records|
  }

  function Itself(time: int): int {
    time
  }

  function NewWatches(existing: Snapshot, incoming: Incoming): seq<int> {
    New(existing.watchTimes, incoming.watchTimes, Itself)
  }

  function WithCount(sources: seq<SourceEntry>, source: string, count: nat): seq<SourceEntry> {
    if sources == [] then [SourceEntry(source, count)]
    else if sources[0].source == source then [SourceEntry(source, count)] + sources[1..]
    else [sources[0]] + WithCount(sources[1..], source, count)
  }

  function Kept(existing: Snapshot, incoming: Incoming, source: string, cap: nat): seq<Record> {
    var all := Together(existing, incoming, source);
    Pick(all, Keep(all, source, cap), |all|)
  }

  /** Nothing of the import changes the session. */
  predicate NothingNew(existing: Snapshot, incoming: Incoming, source: string, cap: nat) {
    && NewKept(existing, incoming, source, cap) == {} && NewWatches(existing, incoming) == []
    && incoming.categories <= existing.categories
  }

  function Merged(existing: Snapshot, incoming: Incoming, source: string, cap: nat): Outcome {
    var all := Together(existing, incoming, source);
    var skipped := Over(|incoming.records|, |NewRecords(existing, incoming, source)|);
    var dropped := Over(|all|, |Keep(all, source, cap)|);
    if NothingNew(existing, incoming, source, cap) then Outcome(existing, 0, skipped, dropped)
    else
      var records := Kept(existing, incoming, source, cap);
      Outcome(Snapshot(records, existing.categories + incoming.categories,
                       existing.watchTimes + NewWatches(existing, incoming), None,
                       WithCount(existing.sources, source, |Ids(records, source)|)),
              |NewKept(existing, incoming, source, cap)|, skipped, dropped)
  }

  // ---- sizes ----

  lemma KeepSize(records: seq<Record>, source: string, cap: nat)
    ensures Keep(records, source, cap) <= All(records)
    ensures |records| <= cap ==> Keep(records, source, cap) == All(records)
    ensures |records| > cap && |records| - |Ids(records, source)| <= cap ==> |Keep(records, source, cap)| == cap
    ensures |Ids(records, source)| <= |records|
  {
    BelowMeaning(|records|);
    var ids := Ids(records, source);
    SubsetSize(ids, All(records));
    if |records| > cap && |records| - |ids| <= cap {
      RecencyOrders(records, ids);
      TopSize(ByRecency(records), ids, Capacity(records, source, cap));
      assert |(All(records) - ids) + ids| == |All(records)|;
      assert |(All(records) - ids) + Newest(records, ids, Capacity(records, source, cap))|
          == |All(records) - ids| + |Newest(records, ids, Capacity(records, source, cap))|;
    }
  }

  lemma BelowStep(ids: set<nat>, n: nat)
    requires n > 0
    ensures |ids * Below(n)| == |ids * Below(n - 1)| + if n - 1 in ids then 1 else 0
  {
    BelowMeaning(n - 1);
    assert ids * Below(n) == ids * Below(n - 1) + if n - 1 in ids then {n - 1} else {};
  }

  lemma {:induction false} PickSize(records: seq<Record>, keep: set<nat>, n: nat)
    requires n <= |records|
    ensures |Pick(records, keep, n)| == |keep * Below(n)|
  {
    if n > 0 {
      PickSize(records, keep, n - 1);
      BelowStep(keep, n);
    }
  }

  lemma {:induction false} PickAll(records: seq<Record>, keep: set<nat>, n: nat)
    requires n <= |records| && forall i: nat :: i < n ==> i in keep
    ensures Pick(records, keep, n) == records[..n]
  {
    if n > 0 { PickAll(records, keep, n - 1); }
  }

  // ---- other sources ----

  function Others(records: seq<Record>, source: string): seq<Record> {
    if records == [] then []
    else Others(records[..|records| - 1], source)
         + if records[|records| - 1].origin == Some(source) then [] else [records[|records| - 1]]
  }

  lemma OthersAppend(a: seq<Record>, r: Record, source: string)
    ensures Others(a + [r], source) == Others(a, source) + if r.origin == Some(source) then [] else [r]
  {
    assert (a + [r])[..|a|] == a;
  }

  lemma {:induction false} OthersConcat(a: seq<Record>, b: seq<Record>, source: string)
    requires forall r :: r in b ==> r.origin == Some(source)
    ensures Others(a + b, source) == Others(a, source)
  {
    if b == [] {
      assert a + b == a;
    } else {
      var n := |b| - 1;
      assert a + b == (a + b[..n]) + [b[n]];
      assert b[n] in b;
      OthersConcat(a, b[..n], source);
      OthersAppend(a + b[..n], b[n], source);
    }
  }

  lemma {:induction false} OthersPicked(records: seq<Record>, keep: set<nat>, n: nat, source: string)
    requires n <= |records| && forall i: nat :: i < n && records[i].origin != Some(source) ==> i in keep
    ensures Others(Pick(records, keep, n), source) == Others(records[..n], source)
  {
    if n > 0 {
      OthersPicked(records, keep, n - 1, source);
      PickedNext(records, keep, n - 1, source);
    }
  }

  lemma PickedNext(records: seq<Record>, keep: set<nat>, n: nat, source: string)
    requires n < |records| && (records[n].origin != Some(source) ==> n in keep)
    requires Others(Pick(records, keep, n), source) == Others(records[..n], source)
    ensures Others(Pick(records, keep, n + 1), source) == Others(records[..n + 1], source)
  {
    assert records[..n + 1] == records[..n] + [records[n]];
    OthersAppend(records[..n], records[n], source);
    if n in keep {
      OthersAppend(Pick(records, keep, n), records[n], source);
    } else {
      assert Pick(records, keep, n + 1) == Pick(records, keep, n);
    }
  }

  lemma {:induction false} OthersSize(records: seq<Record>, source: string, n: nat)
    requires n <= |records|
    ensures |Others(records[..n], source)| + |Ids(records, source) * Below(n)| == n
  {
    if n > 0 {
      OthersSize(records, source, n - 1);
      assert records[..n][..n - 1] == records[..n - 1];
      BelowStep(Ids(records, source), n);
    }
  }

  lemma NewRecordsAreTagged(existing: Snapshot, incoming: Incoming, source: string)
    ensures forall r :: r in NewRecords(existing, incoming, source) ==> r.origin == Some(source)
    ensures |NewRecords(existing, incoming, source)| <= |incoming.records|
  {
    AddedAreIncoming(existing.records, Tagged(incoming.records, source), RecordKey, |incoming.records|);
  }

  // ---- main results ----

  lemma OwnAndOthers(records: seq<Record>, source: string)
    ensures |Others(records, source)| + |Ids(records, source)| == |records|
  {
    OthersSize(records, source, |records|);
    assert records[..|records|] == records;
    BelowMeaning(|records|);
    assert Ids(records, source) * Below(|records|) == Ids(records, source);
  }

  // Trimming brings the passages together down to the cap.
  lemma TogetherKept(existing: Snapshot, incoming: Incoming, source: string, cap: nat)
    requires |existing.records| <= cap
    ensures var all, kept := Together(existing, incoming, source), Keep(Together(existing, incoming, source), source,
                                                                        cap);
            kept <= All(all) && |kept| == (if |all| <= cap then |all| else cap)
  {
    var all := Together(existing, incoming, source);
    NewRecordsAreTagged(existing, incoming, source);
    BelowMeaning(|all|);
    KeepSize(all, source, cap);
    OthersConcat(existing.records, NewRecords(existing, incoming, source), source);
    OwnAndOthers(all, source);
    OwnAndOthers(existing.records, source);
  }

  lemma KeptPicked(records: seq<Record>, source: string, cap: nat)
    requires Keep(records, source, cap) <= All(records)
    ensures var picked := Pick(records, Keep(records, source, cap), |records|);
            |picked| == |Keep(records, source, cap)| && Others(picked, source) == Others(records, source)
  {
    var keep := Keep(records, source, cap);
    BelowMeaning(|records|);
    PickSize(records, keep, |records|);
    assert keep * Below(|records|) == keep;
    OthersPicked(records, keep, |records|, source);
    assert records[..|records|] == records;
  }

  // What one merge does to the passages, whatever it returns.
  lemma MergeFacts(existing: Snapshot, incoming: Incoming, source: string, cap: nat)
    requires |existing.records| <= cap
    ensures |Kept(existing, incoming, source, cap)| == |Keep(Together(existing, incoming, source), source, cap)|
    ensures |Kept(existing, incoming, source, cap)|
            == var n := |Together(existing, incoming, source)|; if n <= cap then n else cap
    ensures Others(Kept(existing, incoming, source, cap), source) == Others(existing.records, source)
    ensures NewKept(existing, incoming, source, cap) == {} ==> Kept(existing, incoming, source, cap) == existing.records
  {
    TogetherKept(existing, incoming, source, cap);
    KeptPicked(Together(existing, incoming, source), source, cap);
    NewRecordsAreTagged(existing, incoming, source);
    OthersConcat(existing.records, NewRecords(existing, incoming, source), source);
    if NewKept(existing, incoming, source, cap) == {} {
      NoneNewAllOld(existing, incoming, source, cap);
    }
  }

  lemma NoneNewAllOld(existing: Snapshot, incoming: Incoming, source: string, cap: nat)
    requires |existing.records| <= cap && NewKept(existing, incoming, source, cap) == {}
    requires var all, kept := Together(existing, incoming, source), Keep(Together(existing, incoming, source),
                                                                         source, cap);
             kept <= All(all) && |kept| == (if |all| <= cap then |all| else cap)
    ensures Kept(existing, incoming, source, cap) == existing.records
  {
    var all, kept := Together(existing, incoming, source), Keep(Together(existing, incoming, source), source, cap);
    var n := |existing.records|;
    BelowMeaning(|all|);
    BelowMeaning(n);
    forall i | i in kept ensures i in Below(n) { assert i !in NewKept(existing, incoming, source, cap); }
    SubsetSize(kept, Below(n));
    assert kept == Below(n);
    PickAll(all, kept, n);
    PickSize(all, kept, |all|);
    assert kept * Below(|all|) == kept;
    PickGrows(all, kept, n, |all|);
    assert all[..n] == existing.records;
  }

  lemma {:induction false} PickGrows(records: seq<Record>, keep: set<nat>, m: nat, n: nat)
    requires m <= n <= |records|
    ensures Pick(records, keep, m) <= Pick(records, keep, n)
  {
    if m < n { PickGrows(records, keep, m, n - 1); }
  }

  /** Every merge, early return included, conserves passages, stays within the cap and leaves other sources alone. */
  lemma MergeConserves(existing: Snapshot, incoming: Incoming, source: string, cap: nat)
    requires |existing.records| <= cap
    ensures var out := Merged(existing, incoming, source, cap);
            && |existing.records| + |incoming.records| == |out.snapshot.records| + out.skipped + out.dropped
            && |out.snapshot.records| <= cap
            && Others(out.snapshot.records, source) == Others(existing.records, source)
            && out.snapshot.records == Kept(existing, incoming, source, cap)
  {
    MergeFacts(existing, incoming, source, cap);
    NewRecordsAreTagged(existing, incoming, source);
  }

  // ---- the merge as the program runs it ----

  method UpdateSources(sources: seq<SourceEntry>, source: string, count: nat) returns (r: seq<SourceEntry>)
    ensures r == WithCount(sources, source, count)
  {
    r := sources;
    for n := 0 to |sources|
      invariant r == sources
      invariant forall i :: 0 <= i < n ==> sources[i].source != source
    {
      if r[n].source == source {
        r := r[n := SourceEntry(source, count)];
        WithCountAt(sources, source, count, n);
        return;
      }
    }
    r := r + [SourceEntry(source, count)];
    WithCountAtEnd(sources, source, count);
  }

  lemma {:induction false} WithCountAt(sources: seq<SourceEntry>, source: string, count: nat, n: nat)
    requires n < |sources| && sources[n].source == source && forall i :: 0 <= i < n ==> sources[i].source != source
    ensures WithCount(sources, source, count) == sources[n := SourceEntry(source, count)]
  {
    if n > 0 { WithCountAt(sources[1..], source, count, n - 1); }
  }

  lemma {:induction false} WithCountAtEnd(sources: seq<SourceEntry>, source: string, count: nat)
    requires forall i :: 0 <= i < |sources| ==> sources[i].source != source
    ensures WithCount(sources, source, count) == sources + [SourceEntry(source, count)]
  {
    if sources != [] { WithCountAtEnd(sources[1..], source, count); }
  }

  method MergeSnapshot(existing: Snapshot, incoming: Incoming, source: string, cap: nat) returns (out: Outcome)
    ensures out == Merged(existing, incoming, source, cap)
  {
    var tagged := Tagged(incoming.records, source);
    var newOnes := NotAlreadyPresent(existing.records, tagged, RecordKey);
    NewRecordsAreTagged(existing, incoming, source);
    var skipped := |tagged| - |newOnes|;
    var records := existing.records + newOnes;
    var keep, dropped := Trim(records, source, cap);
    records := Pick(records, keep, |records|);
    var newKept := set i | i in keep && i >= |existing.records|;
    var newWatches := NotAlreadyPresent(existing.watchTimes, incoming.watchTimes, Itself);
    var categories := existing.categories + incoming.categories;
    SubsetSize(existing.categories, categories);
    assert newKept == NewKept(existing, incoming, source, cap);
    assert incoming.categories <= existing.categories <==> categories == existing.categories;
    assert NothingNew(existing, incoming, source, cap) <==>
              newKept == {} && newWatches == [] && categories == existing.categories;
    if newKept == {} && newWatches == [] && |categories| == |existing.categories| {
      return Outcome(existing, 0, skipped, dropped);
    }
    var sources := UpdateSources(existing.sources, source, |Ids(records, source)|);
    return Outcome(Snapshot(records, categories, existing.watchTimes + newWatches, None, sources), |newKept|,
                   skipped, dropped);
  }

  method Trim(records: seq<Record>, source: string, cap: nat) returns (keep: set<nat>, dropped: nat)
    ensures keep == Keep(records, source, cap) && dropped == Over(|records|, |keep|)
  {
    keep, dropped := All(records), 0;
    KeepSize(records, source, cap);
    BelowMeaning(|records|);
    if |records| > cap {
      var same := Ids(records, source);
      var kept := Newest(records, same, Over(cap, |records| - |same|));
      assert kept <= same;
      SubsetSize(kept, same);
      dropped := |same| - |kept|;
      TrimmedSize(records, source, cap);
      keep := (keep - same) + kept;
    }
  }

  // What is dropped is counted among this source's passages only.
  lemma TrimmedSize(records: seq<Record>, source: string, cap: nat)
    requires |records| > cap
    ensures var same := Ids(records, source);
            var kept := Newest(records, same, Capacity(records, source, cap));
            |same| - |kept| == |records| - |Keep(records, source, cap)|
  {
    var same := Ids(records, source);
    var kept := Newest(records, same, Capacity(records, source, cap));
    BelowMeaning(|records|);
    assert (All(records) - same) + same == All(records);
    assert |(All(records) - same) + kept| == |All(records) - same| + |kept|;
  }

  // ---- source entries ----

  function SourceCount(records: seq<Record>, source: string): nat {
    |Ids(records, source)|
  }

  /** Each entry counts its passages, each source has one entry, and no passage lacks one. */
  ghost predicate SourcesCounted(s: Snapshot) {
    && (forall e :: e in s.sources ==> e.count == SourceCount(s.records, e.source))
    && (forall i, j :: 0 <= i < j < |s.sources| ==> s.sources[i].source != s.sources[j].source)
    && (forall r :: r in s.records && r.origin.Some? ==> exists e :: e in s.sources && e.source == r.origin.value)
  }

  lemma {:induction false} CountOfOthers(records: seq<Record>, source: string, other: string)
    requires source != other
    ensures SourceCount(records, other) == SourceCount(Others(records, source), other)
  {
    if records != [] {
      var n := |records| - 1;
      var before, last := records[..n], records[n];
      CountOfOthers(before, source, other);
      SourceCountAppend(before, last, other);
      assert records == before + [last];
      SourceCountAppend(Others(before, source), last, other);
      assert Others(before, source) + [] == Others(before, source);
    }
  }

  lemma SourceCountAppend(records: seq<Record>, r: Record, source: string)
    ensures SourceCount(records + [r], source) == SourceCount(records, source)
              + if r.origin == Some(source) then 1 else 0
  {
    assert Ids(records + [r], source) == Ids(records, source) + if r.origin == Some(source) then {|records|} else {};
  }

  lemma {:induction false} OthersMembers(records: seq<Record>, source: string)
    ensures forall r :: r in Others(records, source) <==> r in records && r.origin != Some(source)
  {
    if records != [] {
      OthersMembers(records[..|records| - 1], source);
      assert records == records[..|records| - 1] + [records[|records| - 1]];
    }
  }

  /** A merge keeps the entries right: this source's count is its passages, every other entry is untouched. */
  lemma MergeKeepsSourcesCounted(existing: Snapshot, incoming: Incoming, source: string, cap: nat)
    requires |existing.records| <= cap && SourcesCounted(existing)
    ensures SourcesCounted(Merged(existing, incoming, source, cap).snapshot)
  {
    var after := Merged(existing, incoming, source, cap).snapshot;
    MergeConserves(existing, incoming, source, cap);
    if !NothingNew(existing, incoming, source, cap) {
      WithCountMembers(existing.sources, source, SourceCount(after.records, source));
      forall e | e in after.sources ensures e.count == SourceCount(after.records, e.source) {
        if e.source != source {
          CountOfOthers(after.records, source, e.source);
          CountOfOthers(existing.records, source, e.source);
        }
      }
      OthersMembers(after.records, source);
      OthersMembers(existing.records, source);
      forall r | r in after.records && r.origin.Some?
        ensures exists e :: e in after.sources && e.source == r.origin.value
      {
        EveryOriginListed(existing, after, source, r);
      }
    }
  }

  lemma EveryOriginListed(existing: Snapshot, after: Snapshot, source: string, r: Record)
    requires SourcesCounted(existing) && r in after.records && r.origin.Some?
    requires r.origin != Some(source) ==> r in existing.records
    requires SourceEntry(source, SourceCount(after.records, source)) in after.sources
    requires forall e :: e in existing.sources && e.source != source ==> e in after.sources
    ensures exists e :: e in after.sources && e.source == r.origin.value
  {
  }

  lemma {:induction false} WithCountMembers(sources: seq<SourceEntry>, source: string, count: nat)
    requires forall i, j :: 0 <= i < j < |sources| ==> sources[i].source != sources[j].source
    ensures var after := WithCount(sources, source, count);
            && SourceEntry(source, count) in after
            && (forall e :: e in sources && e.source != source ==> e in after)
            && (forall e :: e in after ==> e == SourceEntry(source, count) || (e in sources && e.source != source))
            && (forall i, j :: 0 <= i < j < |after| ==> after[i].source != after[j].source)
  {
    if n :| 0 <= n < |sources| && sources[n].source == source && forall i :: 0 <= i < n ==>
      sources[i].source != source {
      WithCountAt(sources, source, count, n);
      var after := WithCount(sources, source, count);
      assert after[n] == SourceEntry(source, count);
      forall e | e in sources && e.source != source ensures e in after {
        var i :| 0 <= i < |sources| && sources[i] == e;
        assert after[i] == e;
      }
    } else {
      NoneOrFirst(sources, source, |sources|);
      WithCountAtEnd(sources, source, count);
    }
  }

  lemma {:induction false} NoneOrFirst(sources: seq<SourceEntry>, source: string, n: nat)
    requires n <= |sources|
    ensures (forall i :: 0 <= i < n ==> sources[i].source != source)
            || exists m :: 0 <= m < |sources| && sources[m].source == source && forall i :: 0 <= i < m ==>
              sources[i].source != source
  {
    if n > 0 { NoneOrFirst(sources, source, n - 1); }
  }

  // ---- when an import changes nothing ----

  /** No passage of the import survives exactly when all are already present, or the session is full and none of the
      new ones is more recent than any passage this source already has. */
  predicate NoRoom(existing: Snapshot, incoming: Incoming, source: string, cap: nat) {
    || NewRecords(existing, incoming, source) == []
    || (&& |existing.records| == cap
        && forall x, y ::
             x in NewRecords(existing, incoming, source) && y in existing.records && y.origin == Some(source) ==>
               !IsLater(x.when, y.when))
  }

  lemma OldOutrankNew(existing: Snapshot, incoming: Incoming, source: string, cap: nat)
    requires |existing.records| == cap
    requires forall x, y ::
               x in NewRecords(existing, incoming, source) && y in existing.records && y.origin == Some(source) ==>
                 !IsLater(x.when, y.when)
    ensures NewKept(existing, incoming, source, cap) == {}
  {
    var all := Together(existing, incoming, source);
    var ids, own := Ids(all, source), Ids(existing.records, source);
    BelowMeaning(|all|);
    NewRecordsAreTagged(existing, incoming, source);
    forall i: nat | i in Keep(all, source, cap) && i >= |existing.records| ensures false {
      assert all[i] in NewRecords(existing, incoming, source);
      assert i in ids;
      forall j | j in own ensures j in Above(ByRecency(all), ids, i) {
        assert all[j] == existing.records[j] && existing.records[j] in existing.records;
      }
      SubsetSize(own, Above(ByRecency(all), ids, i));
      CapacityIsOld(existing, incoming, source, cap);
      assert false;
    }
  }

  // In a full session there is room for as many of this source's passages as it has.
  lemma CapacityIsOld(existing: Snapshot, incoming: Incoming, source: string, cap: nat)
    requires |existing.records| == cap
    ensures Capacity(Together(existing, incoming, source), source, cap) == |Ids(existing.records, source)|
  {
    var all := Together(existing, incoming, source);
    NewRecordsAreTagged(existing, incoming, source);
    IdsTogether(existing.records, NewRecords(existing, incoming, source), source);
    KeepSize(existing.records, source, cap);
  }

  lemma {:induction false} IdsTogether(a: seq<Record>, b: seq<Record>, source: string)
    requires forall r :: r in b ==> r.origin == Some(source)
    ensures |Ids(a + b, source)| == |Ids(a, source)| + |b|
  {
    if b == [] {
      assert a + b == a;
    } else {
      var n := |b| - 1;
      assert a + b == (a + b[..n]) + [b[n]];
      assert b[n] in b;
      IdsTogether(a, b[..n], source);
      SourceCountAppend(a + b[..n], b[n], source);
    }
  }

  // A new passage more recent than an old one is kept.
  lemma LaterIsKept(existing: Snapshot, incoming: Incoming, source: string, cap: nat, x: Record, y: Record)
    requires |existing.records| == cap && NewKept(existing, incoming, source, cap) == {}
    requires x in NewRecords(existing, incoming, source) && y in existing.records && y.origin == Some(source)
    ensures !IsLater(x.when, y.when)
  {
    var all := Together(existing, incoming, source);
    NewRecordsAreTagged(existing, incoming, source);
    var j :| 0 <= j < cap && existing.records[j] == y;
    var k := PlaceOfNew(existing, incoming, source, cap, x);
    assert all[j] == y;
    OldAllKept(existing, incoming, source, cap, j);
    if IsLater(x.when, y.when) {
      LaterIsAlsoKept(all, source, cap, k, j);
    }
  }

  lemma PlaceOfNew(existing: Snapshot, incoming: Incoming, source: string, cap: nat, x: Record) returns (k: nat)
    requires NewKept(existing, incoming, source, cap) == {} && x in NewRecords(existing, incoming, source)
    ensures k < |Together(existing, incoming, source)| && Together(existing, incoming, source)[k] == x
    ensures k !in Keep(Together(existing, incoming, source), source, cap)
  {
    var i :| 0 <= i < |NewRecords(existing, incoming, source)| && NewRecords(existing, incoming, source)[i] == x;
    k := |existing.records| + i;
    assert k !in NewKept(existing, incoming, source, cap);
  }

  lemma LaterIsAlsoKept(records: seq<Record>, source: string, cap: nat, i: nat, j: nat)
    requires i < |records| && j < |records| && records[i].origin == records[j].origin == Some(source)
    requires Outranks(records, i, j) && j in Keep(records, source, cap)
    ensures i in Keep(records, source, cap)
  {
    var ids := Ids(records, source);
    BelowMeaning(|records|);
    RecencyOrders(records, ids);
    if |records| > cap {
      TopIsClosed(ByRecency(records), ids, Capacity(records, source, cap), j, i);
    }
  }

  lemma OldAllKept(existing: Snapshot, incoming: Incoming, source: string, cap: nat, j: nat)
    requires |existing.records| == cap && NewKept(existing, incoming, source, cap) == {} && j < cap
    ensures j in Keep(Together(existing, incoming, source), source, cap)
  {
    var all, kept := Together(existing, incoming, source), Keep(Together(existing, incoming, source), source, cap);
    TogetherKept(existing, incoming, source, cap);
    BelowMeaning(|all|);
    BelowMeaning(cap);
    forall i | i in kept ensures i in Below(cap) { assert i !in NewKept(existing, incoming, source, cap); }
    SubsetSize(kept, Below(cap));
  }

  /** An import hands back the existing session itself exactly when every watch time and category is known and none of
      its passages is both new and recent enough to find room. */
  lemma NothingNewExactlyWhen(existing: Snapshot, incoming: Incoming, source: string, cap: nat)
    requires |existing.records| <= cap
    ensures NothingNew(existing, incoming, source, cap) <==>
            && NoRoom(existing, incoming, source, cap) && NewWatches(existing, incoming) == []
            && incoming.categories <= existing.categories
    ensures NothingNew(existing, incoming, source, cap) ==> Merged(existing, incoming, source, cap).snapshot == existing
  {
    var newOnes := NewRecords(existing, incoming, source);
    MergeFacts(existing, incoming, source, cap);
    if NewKept(existing, incoming, source, cap) == {} && newOnes != [] {
      assert |Kept(existing, incoming, source, cap)| == |existing.records|;
      assert |existing.records| == cap;
      forall x, y | x in newOnes && y in existing.records && y.origin == Some(source) ensures !IsLater(x.when, y.when) {
        LaterIsKept(existing, incoming, source, cap, x, y);
      }
    }
    if NoRoom(existing, incoming, source, cap) {
      if newOnes == [] {
        BelowMeaning(|Together(existing, incoming, source)|);
        assert NewKept(existing, incoming, source, cap) == {};
      } else {
        OldOutrankNew(existing, incoming, source, cap);
      }
    }
  }
}
