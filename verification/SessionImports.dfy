/** Several imports in a row: repeating one, and splitting one into parts in any order (app.py, `merge_snapshot`). */
module SessionImports {
  import opened Wrappers
  import opened Collections
  import opened Ranking
  import opened SessionMerge

  // ---- counting and picking ----

  lemma {:induction false} CountMember<T, K>(items: seq<T>, key: T -> K, n: nat, i: nat)
    requires i < n <= |items|
    ensures Count(items, key, key(items[i]), n) >= 1
  {
    if i < n - 1 { CountMember(items, key, n - 1, i); }
  }

  lemma MemberCounted<T, K>(items: seq<T>, key: T -> K, x: T)
    requires x in items
    ensures CountAll(items, key, key(x)) >= 1
  {
    var i :| 0 <= i < |items| && items[i] == x;
    CountMember(items, key, |items|, i);
  }

  lemma {:induction false} CountedMember<T, K>(items: seq<T>, key: T -> K, k: K, n: nat) returns (i: nat)
    requires n <= |items| && Count(items, key, k, n) >= 1
    ensures i < n && key(items[i]) == k
  {
    if key(items[n - 1]) == k { i := n - 1; } else { i := CountedMember(items, key, k, n - 1); }
  }

  lemma {:induction false} CountPair<T, K>(items: seq<T>, key: T -> K, n: nat, i: nat, j: nat)
    requires i < j < n <= |items| && key(items[i]) == key(items[j])
    ensures Count(items, key, key(items[i]), n) >= 2
  {
    if j < n - 1 { CountPair(items, key, n - 1, i, j); } else { CountMember(items, key, n - 1, i); }
  }

  lemma {:induction false} NoneCounted<T, K>(items: seq<T>, key: T -> K, k: K, n: nat)
    requires n <= |items| && forall i :: 0 <= i < n ==> key(items[i]) != k
    ensures Count(items, key, k, n) == 0
  {
    if n > 0 { NoneCounted(items, key, k, n - 1); }
  }

  lemma {:induction false} OnceCounted<T, K>(items: seq<T>, key: T -> K, k: K, n: nat)
    requires n <= |items| && forall i, j :: 0 <= i < j < n ==> key(items[i]) != k || key(items[j]) != k
    ensures Count(items, key, k, n) <= 1
  {
    if n > 0 {
      OnceCounted(items, key, k, n - 1);
      if key(items[n - 1]) == k { NoneCounted(items, key, k, n - 1); }
    }
  }

  lemma UncountedIsAbsent<T, K>(items: seq<T>, key: T -> K, x: T)
    requires CountAll(items, key, key(x)) == 0
    ensures x !in items
  {
    if x in items { MemberCounted(items, key, x); }
  }

  lemma NothingToAdd<T, K>(existing: seq<T>, incoming: seq<T>, key: T -> K)
    requires forall x :: x in incoming ==> CountAll(incoming, key, key(x)) <= CountAll(existing, key, key(x))
    ensures New(existing, incoming, key) == []
  {
    var added := New(existing, incoming, key);
    AddedAreIncoming(existing, incoming, key, |incoming|);
    assert incoming[..|incoming|] == incoming;
    forall x | x in incoming ensures x !in added {
      AddedIsDifference(existing, incoming, key, key(x), |incoming|);
      UncountedIsAbsent(added, key, x);
    }
    EmptyOrNot(added);
  }

  lemma {:induction false} PickMembers(records: seq<Record>, keep: set<nat>, n: nat)
    requires n <= |records|
    ensures forall r :: r in Pick(records, keep, n) <==> exists i: nat :: i < n && i in keep && records[i] == r
  {
    if n > 0 { PickMembers(records, keep, n - 1); }
  }

  lemma {:induction false} CountPicked(records: seq<Record>, keep: set<nat>, k: Key, n: nat)
    requires n <= |records| && forall i: nat :: i < n && RecordKey(records[i]) == k ==> i in keep
    ensures CountAll(Pick(records, keep, n), RecordKey, k) == Count(records, RecordKey, k, n)
  {
    if n > 0 {
      CountPicked(records, keep, k, n - 1);
      if n - 1 in keep {
        CountAppend(Pick(records, keep, n - 1), records[n - 1], RecordKey, k);
      } else {
        assert Pick(records, keep, n) == Pick(records, keep, n - 1);
      }
    }
  }

  // ---- repeating an import ----

  // Before trimming, every passage of the import is present as often as it came.
  lemma TogetherCovers(existing: Snapshot, incoming: Incoming, source: string, k: Key)
    ensures CountAll(Tagged(incoming.records, source), RecordKey,
                     k) <= CountAll(Together(existing, incoming, source), RecordKey, k)
  {
    var tagged := Tagged(incoming.records, source);
    AddedIsDifference(existing.records, tagged, RecordKey, k, |tagged|);
    CountConcat(existing.records, NewRecords(existing, incoming, source), RecordKey, k);
  }

  lemma WatchesCovered(existing: Snapshot, incoming: Incoming, source: string, cap: nat)
    ensures NewWatches(Merged(existing, incoming, source, cap).snapshot, incoming) == []
  {
    var once := Merged(existing, incoming, source, cap).snapshot;
    forall t | t in incoming.watchTimes
      ensures CountAll(incoming.watchTimes, Itself, t) <= CountAll(once.watchTimes, Itself, t)
    {
      AddedIsDifference(existing.watchTimes, incoming.watchTimes, Itself, t, |incoming.watchTimes|);
      CountConcat(existing.watchTimes, NewWatches(existing, incoming), Itself, t);
      assert existing.watchTimes + [] == existing.watchTimes;
    }
    NothingToAdd(once.watchTimes, incoming.watchTimes, Itself);
  }

  /** Importing the same files again hands back the very session exactly when nothing new finds room in it: its
      passages are all there still, or the session is full and none of the missing ones is more recent than one this
      source has. */
  lemma RepeatIsNoOpExactlyWhen(existing: Snapshot, incoming: Incoming, source: string, cap: nat)
    requires |existing.records| <= cap
    ensures var once := Merged(existing, incoming, source, cap).snapshot;
            NothingNew(once, incoming, source, cap) <==> NoRoom(once, incoming, source, cap)
  {
    MergeConserves(existing, incoming, source, cap);
    WatchesCovered(existing, incoming, source, cap);
    NothingNewExactlyWhen(Merged(existing, incoming, source, cap).snapshot, incoming, source, cap);
  }

  /** When the first import dropped nothing, the repeat is a no-op. */
  lemma RepeatWithoutDropsIsNoOp(existing: Snapshot, incoming: Incoming, source: string, cap: nat)
    requires |Together(existing, incoming, source)| <= cap
    ensures var once := Merged(existing, incoming, source, cap).snapshot;
            NothingNew(once, incoming, source, cap) && Merged(once, incoming, source, cap).snapshot == once
  {
    var once, all := Merged(existing, incoming, source, cap).snapshot, Together(existing, incoming, source);
    MergeConserves(existing, incoming, source, cap);
    BelowMeaning(|all|);
    PickAll(all, All(all), |all|);
    assert once.records == all;
    var tagged := Tagged(incoming.records, source);
    forall x | x in tagged
      ensures CountAll(tagged, RecordKey, RecordKey(x)) <= CountAll(once.records, RecordKey, RecordKey(x))
    {
      TogetherCovers(existing, incoming, source, RecordKey(x));
    }
    NothingToAdd(once.records, tagged, RecordKey);
    RepeatIsNoOpExactlyWhen(existing, incoming, source, cap);
  }

  /** A passage of this source, here or in the import, is dated by its key. Holds of every DATED_IDENTITY_SOURCES
      source. */
  ghost predicate KeyFixesDate(existing: Snapshot, incoming: Incoming, source: string) {
    forall i, j :: 0 <= i < |Together(existing, incoming, source)| && 0 <= j < |incoming.records|
      && RecordKey(Together(existing, incoming, source)[i]) == RecordKey(Tagged(incoming.records, source)[j])
      ==> Together(existing, incoming, source)[i].when == Tagged(incoming.records, source)[j].when
  }

  lemma DatedIdentityFixesDate(existing: Snapshot, incoming: Incoming, source: string)
    requires source in DATED_IDENTITY_SOURCES
    ensures KeyFixesDate(existing, incoming, source)
  {
  }

  /** When keys fix dates, repeating an import is a no-op however much the first one dropped. */
  lemma RepeatWithDatedKeysIsNoOp(existing: Snapshot, incoming: Incoming, source: string, cap: nat)
    requires |existing.records| <= cap && KeyFixesDate(existing, incoming, source)
    ensures var once := Merged(existing, incoming, source, cap).snapshot;
            NothingNew(once, incoming, source, cap) && Merged(once, incoming, source, cap).snapshot == once
  {
    var once, all := Merged(existing, incoming, source, cap).snapshot, Together(existing, incoming, source);
    if |all| <= cap {
      RepeatWithoutDropsIsNoOp(existing, incoming, source, cap);
    } else {
      MergeConserves(existing, incoming, source, cap);
      MergeFacts(existing, incoming, source, cap);
      forall x, y | x in NewRecords(once, incoming, source) && y in once.records && y.origin == Some(source)
        ensures !IsLater(x.when, y.when)
      {
        NewAmongTagged(once, incoming, source);
        assert x in Elements(Tagged(incoming.records, source));
        if IsLater(x.when, y.when) { NoMissingLater(existing, incoming, source, cap, x, y); }
      }
      RepeatIsNoOpExactlyWhen(existing, incoming, source, cap);
      NothingNewExactlyWhen(once, incoming, source, cap);
    }
  }

  // A passage more recent than a kept one has all its copies kept, so a repeat does not find it missing.
  lemma NoMissingLater(existing: Snapshot, incoming: Incoming, source: string, cap: nat, x: Record, y: Record)
    requires |existing.records| <= cap && KeyFixesDate(existing, incoming, source)
    requires y in Kept(existing, incoming, source, cap) && y.origin == Some(source) && IsLater(x.when, y.when)
    requires x in Tagged(incoming.records, source)
    ensures x !in New(Kept(existing, incoming, source, cap), Tagged(incoming.records, source), RecordKey)
  {
    var all, tagged := Together(existing, incoming, source), Tagged(incoming.records, source);
    var keep, kept := Keep(all, source, cap), Kept(existing, incoming, source, cap);
    var t :| 0 <= t < |tagged| && tagged[t] == x;
    PickMembers(all, keep, |all|);
    var j: nat :| j < |all| && j in keep && all[j] == y;
    forall i: nat | i < |all| && RecordKey(all[i]) == RecordKey(x) ensures i in keep {
      assert all[i].when == tagged[t].when;
      assert RecordKey(all[i]).origin == Some(source);
      LaterIsAlsoKept(all, source, cap, i, j);
    }
    CountPicked(all, keep, RecordKey(x), |all|);
    TogetherCovers(existing, incoming, source, RecordKey(x));
    AddedIsDifference(kept, tagged, RecordKey, RecordKey(x), |tagged|);
    UncountedIsAbsent(New(kept, tagged, RecordKey), RecordKey, x);
  }

  // ---- a repeat that is not a no-op ----

  function Song(text: string, when: int): Record {
    Record(Some("spotify"), "play", text, text, "", Some(when))
  }

  function Library(records: seq<Record>): Snapshot {
    Snapshot(records, {}, [], None, [])
  }

  const OLD_SONG := Song("a", 1)
  const FILES := Incoming([Song("a", 5), Song("b", 3)], {}, [])

  /** Distinct keys are not enough, whatever the cap. In a full session an old copy of a song absorbs its newer copy
      from the import and is then trimmed away; the second import finds the newer copy missing and lets it push out
      another song. `others` are any passages of other sources. */
  lemma RepeatCanStillChange(others: seq<Record>, cap: nat)
    requires |others| + 1 == cap && forall r :: r in others ==> r.origin != Some("spotify")
    ensures var once := Merged(Library(others + [OLD_SONG]), FILES, "spotify", cap).snapshot;
            && once.records == others + [Song("b", 3)]
            && !NothingNew(once, FILES, "spotify", cap)
  {
    AbsorbedThenTrimmed(others, cap);
    NewerCopyIsMissing(others, cap, Merged(Library(others + [OLD_SONG]), FILES, "spotify", cap).snapshot);
  }

  lemma NewerCopyIsMissing(others: seq<Record>, cap: nat, once: Snapshot)
    requires |others| + 1 == cap && forall r :: r in others ==> r.origin != Some("spotify")
    requires once.records == others + [Song("b", 3)]
    ensures !NothingNew(once, FILES, "spotify", cap)
  {
    var a5, b3 := Song("a", 5), Song("b", 3);
    assert Tagged(FILES.records, "spotify") == [a5, b3];
    AmongOthers(others, b3, a5);
    SecondIsCovered(once.records, a5, b3);
    NothingNewExactlyWhen(once, FILES, "spotify", cap);
    assert NewRecords(once, FILES, "spotify") == [a5];
    assert a5 in NewRecords(once, FILES, "spotify") && b3 in once.records && IsLater(a5.when, b3.when);
  }

  lemma AbsorbedThenTrimmed(others: seq<Record>, cap: nat)
    requires |others| + 1 == cap && forall r :: r in others ==> r.origin != Some("spotify")
    ensures Merged(Library(others + [OLD_SONG]), FILES, "spotify", cap).snapshot.records == others + [Song("b", 3)]
  {
    var a5, b3 := Song("a", 5), Song("b", 3);
    var first := Library(others + [OLD_SONG]);
    assert Tagged(FILES.records, "spotify") == [a5, b3];
    AmongOthers(others, OLD_SONG, b3);
    FirstIsCovered(first.records, a5, b3);
    assert Together(first, FILES, "spotify") == others + [OLD_SONG] + [b3];
    OlderIsTrimmed(others, OLD_SONG, b3, cap);
    MergeConserves(first, FILES, "spotify", cap);
  }

  // One song in a session is counted once there, and no other song is.
  lemma AmongOthers(others: seq<Record>, song: Record, another: Record)
    requires song.origin == another.origin == Some("spotify") && RecordKey(song) != RecordKey(another)
    requires forall r :: r in others ==> r.origin != Some("spotify")
    ensures CountAll(others + [song], RecordKey, RecordKey(song)) == 1
    ensures CountAll(others + [song], RecordKey, RecordKey(another)) == 0
  {
    forall i | 0 <= i < |others| ensures RecordKey(others[i]).origin != Some("spotify") { assert others[i] in others; }
    NoneCounted(others, RecordKey, RecordKey(song), |others|);
    NoneCounted(others, RecordKey, RecordKey(another), |others|);
    CountAppend(others, song, RecordKey, RecordKey(song));
    CountAppend(others, song, RecordKey, RecordKey(another));
  }

  lemma FirstIsCovered(held: seq<Record>, first: Record, second: Record)
    requires CountAll(held, RecordKey, RecordKey(first)) == 1 && CountAll(held, RecordKey, RecordKey(second)) == 0
    ensures New(held, [first, second], RecordKey) == [second]
  {
    assert Count([first, second], RecordKey, RecordKey(first), 0) == 0;
    assert Added(held, [first, second], RecordKey, 1) == [];
  }

  lemma SecondIsCovered(held: seq<Record>, first: Record, second: Record)
    requires CountAll(held, RecordKey, RecordKey(second)) == 1 && CountAll(held, RecordKey, RecordKey(first)) == 0
    ensures New(held, [first, second], RecordKey) == [first]
  {
    assert Count([first, second], RecordKey, RecordKey(second), 1) == 0;
    assert Added(held, [first, second], RecordKey, 1) == [first];
  }

  lemma OlderIsTrimmed(others: seq<Record>, older: Record, newer: Record, cap: nat)
    requires |others| + 1 == cap && forall r :: r in others ==> r.origin != Some("spotify")
    requires older.origin == newer.origin == Some("spotify") && IsLater(newer.when, older.when)
    ensures var all := others + [older] + [newer]; Pick(all, Keep(all, "spotify", cap), |all|) == others + [newer]
  {
    var all, n := others + [older] + [newer], |others|;
    KeptBesideOthers(others, older, newer, cap);
    PickAll(all, Keep(all, "spotify", cap), n);
    assert Pick(all, Keep(all, "spotify", cap), n + 1) == Pick(all, Keep(all, "spotify", cap), n);
    assert all[..n] == others;
  }

  lemma KeptBesideOthers(others: seq<Record>, older: Record, newer: Record, cap: nat)
    requires |others| + 1 == cap && forall r :: r in others ==> r.origin != Some("spotify")
    requires older.origin == newer.origin == Some("spotify") && IsLater(newer.when, older.when)
    ensures var all := others + [older] + [newer];
            forall i: nat :: i in Keep(all, "spotify", cap) <==> i < |all| && i != |others|
  {
    var all, n := others + [older] + [newer], |others|;
    BelowMeaning(|all|);
    SongsBesideOthers(others, older, newer);
    assert Capacity(all, "spotify", cap) == 1;
    LaterOfTwo(all, Ids(all, "spotify"), n);
  }

  lemma SongsBesideOthers(others: seq<Record>, older: Record, newer: Record)
    requires forall r :: r in others ==> r.origin != Some("spotify")
    requires older.origin == newer.origin == Some("spotify")
    ensures Ids(others + [older] + [newer], "spotify") == {|others|, |others| + 1}
  {
    var all := others + [older] + [newer];
    forall i | 0 <= i < |others| ensures all[i].origin != Some("spotify") { assert all[i] in others; }
  }

  lemma LaterOfTwo(records: seq<Record>, ids: set<nat>, n: nat)
    requires n + 2 == |records| && ids == {n, n + 1} && IsLater(records[n + 1].when, records[n].when)
    ensures Newest(records, ids, 1) == {n + 1}
  {
    assert Above<nat>(ByRecency(records), ids, n + 1) == {};
    assert Above<nat>(ByRecency(records), ids, n) == {n + 1};
  }

  // ---- parts of one source, in any order ----

  /** One source's passages with distinct keys and distinct dates. */
  ghost predicate DistinctPassages(u: set<Record>, source: string) {
    && (forall x :: x in u ==> x.origin == Some(source))
    && (forall x, y :: x in u && y in u && x != y ==> RecordKey(x) != RecordKey(y) && x.when != y.when)
  }

  function OneOf(records: seq<Record>, source: string): set<Record> {
    set r | r in records && r.origin == Some(source)
  }

  function Elements(records: seq<Record>): set<Record> {
    set r | r in records
  }

  predicate NoRepeats(records: seq<Record>, source: string) {
    forall i, j :: 0 <= i < j < |records| && records[i].origin == Some(source) ==> records[i] != records[j]
  }

  function Newer(): Order<Record> {
    (x: Record, y: Record) => IsLater(x.when, y.when)
  }

  lemma NewerOrders(u: set<Record>, source: string)
    requires DistinctPassages(u, source)
    ensures Orders(Newer(), u)
  {
  }

  // A session whose passages of this source are among u, each once.
  ghost predicate Tidy(s: Snapshot, u: set<Record>, source: string, cap: nat) {
    |s.records| <= cap && OneOf(s.records, source) <= u && NoRepeats(s.records, source)
  }

  ghost predicate TidyPart(part: Incoming, u: set<Record>, source: string) {
    Elements(Tagged(part.records, source)) <= u && NoRepeats(Tagged(part.records, source), source)
  }

  lemma OnlyItself(records: seq<Record>, u: set<Record>, source: string, x: Record, i: nat)
    requires DistinctPassages(u, source) && OneOf(records, source) <= u && x in u && i < |records|
    ensures RecordKey(records[i]) == RecordKey(x) ==> records[i] == x
  {
  }

  lemma AtMostOnce(records: seq<Record>, u: set<Record>, source: string, x: Record)
    requires DistinctPassages(u, source) && OneOf(records, source) <= u && NoRepeats(records, source) && x in u
    ensures CountAll(records, RecordKey, RecordKey(x)) == if x in records then 1 else 0
  {
    var k := RecordKey(x);
    if CountAll(records, RecordKey, k) >= 1 {
      var i := CountedMember(records, RecordKey, k, |records|);
      assert RecordKey(records[i]).origin == Some(source);
      assert records[i] in OneOf(records, source);
    }
    forall i, j | 0 <= i < j < |records| ensures RecordKey(records[i]) != k || RecordKey(records[j]) != k {
      OnlyItself(records, u, source, x, i);
      OnlyItself(records, u, source, x, j);
    }
    OnceCounted(records, RecordKey, k, |records|);
    if x in records { MemberCounted(records, RecordKey, x); }
  }

  // With distinct keys, what a part adds is exactly what the session does not have.
  lemma PartAdds(existing: Snapshot, part: Incoming, u: set<Record>, source: string, cap: nat, x: Record)
    requires DistinctPassages(u, source) && Tidy(existing, u, source, cap) && TidyPart(part, u, source) && x in u
    ensures var n := NewRecords(existing, part, source);
            CountAll(n, RecordKey, RecordKey(x)) ==
              if x in Tagged(part.records, source) && x !in existing.records then 1 else 0
  {
    var tagged := Tagged(part.records, source);
    assert OneOf(tagged, source) <= Elements(tagged);
    AtMostOnce(tagged, u, source, x);
    AtMostOnce(existing.records, u, source, x);
    AddedIsDifference(existing.records, tagged, RecordKey, RecordKey(x), |tagged|);
  }

  lemma NewAmongTagged(existing: Snapshot, part: Incoming, source: string)
    ensures Elements(NewRecords(existing, part, source)) <= Elements(Tagged(part.records, source))
  {
    var tagged := Tagged(part.records, source);
    AddedAreIncoming(existing.records, tagged, RecordKey, |tagged|);
    assert tagged[..|tagged|] == tagged;
  }

  // Before trimming, the source has its old passages and the part's, each once.
  lemma TogetherIsUnion(existing: Snapshot, part: Incoming, u: set<Record>, source: string, cap: nat)
    requires DistinctPassages(u, source) && Tidy(existing, u, source, cap) && TidyPart(part, u, source)
    ensures OneOf(Together(existing, part, source), source)
            == OneOf(existing.records, source) + Elements(Tagged(part.records, source))
  {
    var n, tagged, all := NewRecords(existing, part, source), Tagged(part.records, source), Together(existing, part,
                                                                                                     source);
    NewAmongTagged(existing, part, source);
    forall x | x in Elements(tagged) ensures x in OneOf(all, source) {
      PartAdds(existing, part, u, source, cap, x);
      if x !in existing.records { KeyedMember(n, u, x); }
    }
    forall x | x in OneOf(all, source) ensures x in OneOf(existing.records, source) + Elements(tagged) {
      assert x in n ==> x in Elements(n);
    }
  }

  lemma KeyedMember(records: seq<Record>, u: set<Record>, x: Record)
    requires x in u && Elements(records) <= u && CountAll(records, RecordKey, RecordKey(x)) >= 1
    requires forall y :: y in u && y != x ==> RecordKey(y) != RecordKey(x)
    ensures x in records
  {
    var i := CountedMember(records, RecordKey, RecordKey(x), |records|);
    assert records[i] in Elements(records);
  }

  lemma NewNoRepeats(existing: Snapshot, part: Incoming, u: set<Record>, source: string, cap: nat)
    requires DistinctPassages(u, source) && Tidy(existing, u, source, cap) && TidyPart(part, u, source)
    ensures var n := NewRecords(existing, part, source);
            (forall j :: 0 <= j < |n| ==> n[j] !in existing.records)
            && (forall i, j :: 0 <= i < j < |n| ==> n[i] != n[j])
  {
    var n := NewRecords(existing, part, source);
    NewAmongTagged(existing, part, source);
    forall j | 0 <= j < |n| ensures n[j] !in existing.records && CountAll(n, RecordKey, RecordKey(n[j])) == 1 {
      assert n[j] in Elements(n);
      PartAdds(existing, part, u, source, cap, n[j]);
      MemberCounted(n, RecordKey, n[j]);
    }
    forall i, j | 0 <= i < j < |n| ensures n[i] != n[j] {
      if n[i] == n[j] { CountPair(n, RecordKey, |n|, i, j); }
    }
  }

  lemma TogetherNoRepeats(existing: Snapshot, part: Incoming, u: set<Record>, source: string, cap: nat)
    requires DistinctPassages(u, source) && Tidy(existing, u, source, cap) && TidyPart(part, u, source)
    ensures NoRepeats(Together(existing, part, source), source)
  {
    NewNoRepeats(existing, part, u, source, cap);
    ConcatNoRepeats(existing.records, NewRecords(existing, part, source), source);
  }

  lemma ConcatNoRepeats(a: seq<Record>, b: seq<Record>, source: string)
    requires NoRepeats(a, source)
    requires (forall j :: 0 <= j < |b| ==> b[j] !in a) && (forall i, j :: 0 <= i < j < |b| ==> b[i] != b[j])
    ensures NoRepeats(a + b, source)
  {
  }

  function RecordAt(records: seq<Record>): nat -> Record {
    (i: nat) => if i < |records| then records[i] else Record(None, "", "", "", "", None)
  }

  lemma PositionsEmbed(records: seq<Record>, u: set<Record>, source: string)
    requires DistinctPassages(u, source) && OneOf(records, source) <= u && NoRepeats(records, source)
    ensures Embeds(RecordAt(records), ByRecency(records), Ids(records, source), Newer())
    ensures Image(RecordAt(records), Ids(records, source)) == OneOf(records, source)
  {
    forall i, j | i in Ids(records, source) && j in Ids(records, source) && i != j
      ensures records[i].when != records[j].when
    {
      assert records[i] in OneOf(records, source) && records[j] in OneOf(records, source);
      assert records[i] != records[j];
    }
    forall r | r in OneOf(records, source) ensures r in Image(RecordAt(records), Ids(records, source)) {
      var i: nat :| i < |records| && records[i] == r;
      assert i in Ids(records, source) && RecordAt(records)(i) == r;
    }
  }

  // This source's passages after trimming are the newest that fit.
  lemma TrimIsTop(records: seq<Record>, u: set<Record>, source: string, cap: nat)
    requires DistinctPassages(u, source) && OneOf(records, source) <= u && NoRepeats(records, source)
    requires |records| - |Ids(records, source)| <= cap
    ensures OneOf(Pick(records, Keep(records, source, cap), |records|), source)
            == Top(Newer(), OneOf(records, source), cap - (|records| - |Ids(records, source)|))
  {
    KeptOfSource(records, source, cap);
    PickedTop(records, Keep(records, source, cap), u, source, cap - (|records| - |Ids(records, source)|));
  }

  lemma PickedTop(records: seq<Record>, keep: set<nat>, u: set<Record>, source: string, room: nat)
    requires DistinctPassages(u, source) && OneOf(records, source) <= u && NoRepeats(records, source)
    requires keep * Ids(records, source) == Top(ByRecency(records), Ids(records, source), room)
    ensures OneOf(Pick(records, keep, |records|), source) == Top(Newer(), OneOf(records, source), room)
  {
    PickedOfSource(records, keep, source);
    TopOfRecords(records, u, source, room);
  }

  lemma TopOfRecords(records: seq<Record>, u: set<Record>, source: string, room: nat)
    requires DistinctPassages(u, source) && OneOf(records, source) <= u && NoRepeats(records, source)
    ensures Image(RecordAt(records), Top(ByRecency(records), Ids(records, source), room)) ==
              Top(Newer(), OneOf(records, source), room)
  {
    PositionsEmbed(records, u, source);
    TopOfImage(RecordAt(records), ByRecency(records), Ids(records, source), Newer(), room);
  }

  lemma KeptOfSource(records: seq<Record>, source: string, cap: nat)
    requires |records| - |Ids(records, source)| <= cap
    ensures Keep(records, source, cap) * Ids(records, source)
            == Top(ByRecency(records), Ids(records, source), cap - (|records| - |Ids(records, source)|))
  {
    var ids := Ids(records, source);
    KeepSize(records, source, cap);
    BelowMeaning(|records|);
    RecencyOrders(records, ids);
    if |records| <= cap { TopIsAll(ByRecency(records), ids, cap - (|records| - |ids|)); }
  }

  lemma PickedOfSource(records: seq<Record>, keep: set<nat>, source: string)
    ensures OneOf(Pick(records, keep, |records|), source)
            == Image(RecordAt(records), keep * Ids(records, source))
  {
    var ids := Ids(records, source);
    PickMembers(records, keep, |records|);
    var image := Image(RecordAt(records), keep * ids);
    forall r | r in OneOf(Pick(records, keep, |records|), source) ensures r in image {
      var i: nat :| i < |records| && i in keep && records[i] == r;
      assert i in keep * ids && RecordAt(records)(i) == r;
    }
  }

  lemma {:induction false} PickNoRepeats(records: seq<Record>, keep: set<nat>, n: nat, source: string)
    requires n <= |records| && NoRepeats(records, source)
    ensures NoRepeats(Pick(records, keep, n), source)
  {
    if n > 0 {
      PickNoRepeats(records, keep, n - 1, source);
      PickMembers(records, keep, n - 1);
      var before := Pick(records, keep, n - 1);
      forall j | 0 <= j < |before| && before[j].origin == Some(source) ensures before[j] != records[n - 1] {
        assert before[j] in before;
      }
    }
  }

  function Room(s: Snapshot, source: string, cap: nat): nat {
    Over(cap, |Others(s.records, source)|)
  }

  /** One import leaves this source with the newest of its old and new passages together, as many as there is room for
      beside the other sources, and leaves that room unchanged. */
  lemma ImportIsTop(existing: Snapshot, part: Incoming, u: set<Record>, source: string, cap: nat)
    requires DistinctPassages(u, source) && Tidy(existing, u, source, cap) && TidyPart(part, u, source)
    ensures var after := Merged(existing, part, source, cap).snapshot;
            && OneOf(after.records, source) ==
              Top(Newer(), OneOf(existing.records, source) + Elements(Tagged(part.records, source)),
                                                   Room(existing, source, cap))
            && Tidy(after, u, source, cap) && Others(after.records, source) == Others(existing.records, source)
  {
    var all := Together(existing, part, source);
    MergeConserves(existing, part, source, cap);
    TogetherIsUnion(existing, part, u, source, cap);
    TogetherNoRepeats(existing, part, u, source, cap);
    RoomOfTogether(existing, part, source, cap);
    TrimIsTop(all, u, source, cap);
    PickNoRepeats(all, Keep(all, source, cap), |all|, source);
  }

  lemma RoomOfTogether(existing: Snapshot, part: Incoming, source: string, cap: nat)
    requires |existing.records| <= cap
    ensures var all := Together(existing, part, source);
            |all| - |Ids(all, source)| <= cap && Room(existing, source, cap) == cap - (|all| - |Ids(all, source)|)
  {
    NewRecordsAreTagged(existing, part, source);
    OthersConcat(existing.records, NewRecords(existing, part, source), source);
    OwnAndOthers(Together(existing, part, source), source);
    OwnAndOthers(existing.records, source);
  }

  function ImportAll(s: Snapshot, parts: seq<Incoming>, source: string, cap: nat): Snapshot {
    if parts == [] then s
    else Merged(ImportAll(s, parts[..|parts| - 1], source, cap), parts[|parts| - 1], source, cap).snapshot
  }

  function Union(parts: seq<Incoming>, source: string): set<Record> {
    if parts == [] then {}
    else Union(parts[..|parts| - 1], source) + Elements(Tagged(parts[|parts| - 1].records, source))
  }

  /** Importing parts one after another leaves the newest of everything together. */
  lemma {:induction false} ImportsAreTop(s: Snapshot, parts: seq<Incoming>, u: set<Record>, source: string, cap: nat)
    requires DistinctPassages(u, source) && Tidy(s, u, source, cap)
    requires forall p :: p in parts ==> TidyPart(p, u, source)
    ensures var after := ImportAll(s, parts, source, cap);
            && OneOf(after.records, source) ==
              Top(Newer(), OneOf(s.records, source) + Union(parts, source), Room(s, source, cap))
            && Tidy(after, u, source, cap) && Others(after.records, source) == Others(s.records, source)
            && Union(parts, source) <= u
  {
    var own, room := OneOf(s.records, source), Room(s, source, cap);
    if parts == [] {
      NewerOrders(u, source);
      OwnFits(s, u, source, cap);
      TopIsAll(Newer(), own, room);
      assert own + {} == own;
    } else {
      var fewer, last := parts[..|parts| - 1], parts[|parts| - 1];
      assert forall p :: p in fewer ==> p in parts;
      assert last in parts;
      ImportsAreTop(s, fewer, u, source, cap);
      var before := ImportAll(s, fewer, source, cap);
      ImportIsTop(before, last, u, source, cap);
      OneMorePart(own, Union(fewer, source), Elements(Tagged(last.records, source)), u, source, room);
    }
  }

  lemma OneMorePart(
      own: set<Record>, earlier: set<Record>, last: set<Record>, u: set<Record>, source: string, room: nat)
    requires DistinctPassages(u, source) && own + earlier + last <= u
    ensures Top(Newer(), Top(Newer(), own + earlier, room) + last, room) == Top(Newer(), own + (earlier + last), room)
  {
    NewerOrders(u, source);
    assert own + earlier + last == own + (earlier + last);
    TopOfTop(Newer(), own + earlier, last, room);
  }

  lemma OwnFits(s: Snapshot, u: set<Record>, source: string, cap: nat)
    requires DistinctPassages(u, source) && Tidy(s, u, source, cap)
    ensures |OneOf(s.records, source)| <= Room(s, source, cap)
  {
    PositionsEmbed(s.records, u, source);
    var own := Ids(s.records, source);
    ImageSize(RecordAt(s.records), own);
    OwnAndOthers(s.records, source);
  }

  /** The order and the grouping of the parts of a multi-file export do not matter: whatever is imported in the end, the
      source is left with the same passages, and the other sources with theirs. */
  lemma OrderDoesNotMatter(s: Snapshot, a: seq<Incoming>, b: seq<Incoming>, u: set<Record>, source: string, cap: nat)
    requires DistinctPassages(u, source) && Tidy(s, u, source, cap)
    requires forall p :: p in a || p in b ==> TidyPart(p, u, source)
    requires Union(a, source) == Union(b, source)
    ensures OneOf(ImportAll(s, a, source, cap).records, source) == OneOf(ImportAll(s, b, source, cap).records, source)
    ensures Others(ImportAll(s, a, source, cap).records, source) == Others(ImportAll(s, b, source, cap).records, source)
  {
    ImportsAreTop(s, a, u, source, cap);
    ImportsAreTop(s, b, u, source, cap);
  }
}
