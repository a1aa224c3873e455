/** Which passages of an import are new to a session, in terms of the passages' own fields (app.py, `_record_key`,
    `_not_already_present` and `merge_snapshot`). */
module SessionIdentity {
  import opened Wrappers
  import opened Collections
  import opened Ranking
  import opened SessionMerge
  import opened SessionImports

  // ---- identity by fields ----

  /** Two passages are one when they agree on source, kind, lower-case text and detail; rows of the usage source also
      on their date. */
  predicate SamePassage(a: Record, b: Record) {
    && a.origin == b.origin && a.source == b.source && a.folded == b.folded && a.detail == b.detail
    && (a.origin == Some("usage") ==> a.when == b.when)
  }

  /** How often the session or an import holds a passage. */
  function CopiesOf(x: Record, records: seq<Record>): nat {
    if records == [] then 0
    else CopiesOf(x, records[..|records| - 1]) + if SamePassage(records[|records| - 1], x) then 1 else 0
  }

  // The passage as the import brings it.
  function Brought(incoming: Incoming, source: string, i: nat): Record
    requires i < |incoming.records|
  {
    incoming.records[i].(origin := Some(source))
  }

  ghost predicate Holds(records: seq<Record>, x: Record) {
    exists r :: r in records && SamePassage(r, x)
  }

  function Most(a: nat, b: nat): nat {
    if a <= b then b else a
  }

  lemma KeysTellPassages(a: Record, b: Record)
    ensures RecordKey(a) == RecordKey(b) <==> SamePassage(a, b)
  {
  }

  lemma {:induction false} CopiesAreCounted(x: Record, records: seq<Record>, n: nat)
    requires n <= |records|
    ensures CopiesOf(x, records[..n]) == Count(records, RecordKey, RecordKey(x), n)
  {
    if n > 0 {
      CopiesAreCounted(x, records, n - 1);
      assert records[..n][..n - 1] == records[..n - 1];
      KeysTellPassages(records[n - 1], x);
    }
  }

  lemma CopiesAreAllCounted(x: Record, records: seq<Record>)
    ensures CopiesOf(x, records) == CountAll(records, RecordKey, RecordKey(x))
  {
    CopiesAreCounted(x, records, |records|);
    assert records[..|records|] == records;
  }

  lemma HeldExactlyWhen(x: Record, records: seq<Record>)
    ensures Holds(records, x) <==> CopiesOf(x, records) > 0
  {
    CopiesAreAllCounted(x, records);
    if CopiesOf(x, records) > 0 {
      var i := CountedMember(records, RecordKey, RecordKey(x), |records|);
      KeysTellPassages(records[i], x);
      assert records[i] in records;
    }
    if r :| r in records && SamePassage(r, x) {
      KeysTellPassages(r, x);
      MemberCounted(records, RecordKey, r);
    }
  }

  // ---- what an import adds ----

  /** Of every passage the import adds as many copies as it brings beyond those the session has: a repeat is absorbed,
      once for each copy already there. */
  lemma AddsTheExcess(existing: Snapshot, incoming: Incoming, source: string, x: Record)
    ensures var came, had := CopiesOf(x, Tagged(incoming.records, source)), CopiesOf(x, existing.records);
            CopiesOf(x, NewRecords(existing, incoming, source)) == if came <= had then 0 else came - had
  {
    var tagged := Tagged(incoming.records, source);
    AddedIsDifference(existing.records, tagged, RecordKey, RecordKey(x), |tagged|);
    CopiesAreAllCounted(x, tagged);
    CopiesAreAllCounted(x, existing.records);
    CopiesAreAllCounted(x, NewRecords(existing, incoming, source));
  }

  /** When everything fits, the session ends up with each passage as often as it had it or as the import brought it,
      whichever is more. */
  lemma RoomyMergeHoldsTheMost(existing: Snapshot, incoming: Incoming, source: string, cap: nat, x: Record)
    requires |existing.records| + |incoming.records| <= cap
    ensures CopiesOf(x, Merged(existing, incoming, source, cap).snapshot.records) ==
            Most(CopiesOf(x, existing.records), CopiesOf(x, Tagged(incoming.records, source)))
  {
    var all := Together(existing, incoming, source);
    NewRecordsAreTagged(existing, incoming, source);
    MergeConserves(existing, incoming, source, cap);
    BelowMeaning(|all|);
    PickAll(all, All(all), |all|);
    assert Merged(existing, incoming, source, cap).snapshot.records == all;
    AddsTheExcess(existing, incoming, source, x);
    CountConcat(existing.records, NewRecords(existing, incoming, source), RecordKey, RecordKey(x));
    CopiesAreAllCounted(x, all);
    CopiesAreAllCounted(x, existing.records);
    CopiesAreAllCounted(x, NewRecords(existing, incoming, source));
  }

  /** The numbers reported with the result: when everything fits, the session grows by what is added, the rest of the
      import is skipped and nothing is dropped; and whenever nothing is added, the passages stay as they were. */
  lemma ReportedNumbers(existing: Snapshot, incoming: Incoming, source: string, cap: nat)
    requires |existing.records| <= cap
    ensures var out := Merged(existing, incoming, source, cap);
            && (|existing.records| + |incoming.records| <= cap ==>
                  && |out.snapshot.records| == |existing.records| + out.added
                  && out.skipped == |incoming.records| - out.added && out.dropped == 0)
            && (out.added == 0 ==> out.snapshot.records == existing.records)
            && out.added + out.skipped <= |incoming.records|
  {
    var all, newKept := Together(existing, incoming, source), NewKept(existing, incoming, source, cap);
    MergeConserves(existing, incoming, source, cap);
    MergeFacts(existing, incoming, source, cap);
    NewRecordsAreTagged(existing, incoming, source);
    NewPlaces(existing, incoming, source, cap);
    if |existing.records| + |incoming.records| <= cap { KeepSize(all, source, cap); }
  }

  // The new passages that are kept, among all new ones.
  lemma NewPlaces(existing: Snapshot, incoming: Incoming, source: string, cap: nat)
    ensures |NewKept(existing, incoming, source, cap)| <= |NewRecords(existing, incoming, source)|
    ensures |Together(existing, incoming, source)| <= cap ==>
              |NewKept(existing, incoming, source, cap)| == |NewRecords(existing, incoming, source)|
  {
    var all, n := Together(existing, incoming, source), |existing.records|;
    var newKept := NewKept(existing, incoming, source, cap);
    BelowMeaning(|all|);
    BelowMeaning(n);
    KeepSize(all, source, cap);
    assert Below(n) <= Below(|all|) && |Below(|all|) - Below(n)| == |all| - n;
    SubsetSize(newKept, Below(|all|) - Below(n));
    if |all| <= cap { assert newKept == Below(|all|) - Below(n); }
  }

  lemma {:induction false} UncoveredIsAdded(existing: seq<Record>, incoming: seq<Record>, i: nat, n: nat)
    requires i < n <= |incoming| && CountAll(existing, RecordKey, RecordKey(incoming[i])) == 0
    ensures incoming[i] in Added(existing, incoming, RecordKey, n)
  {
    if i < n - 1 { UncoveredIsAdded(existing, incoming, i, n - 1); }
  }

  /** A passage of the import that differs from every passage of the session in some field ends up in the session,
      unless the session is full and none of the source's passages in it is older. */
  lemma NewPassageFindsItsPlace(existing: Snapshot, incoming: Incoming, source: string, cap: nat, i: nat)
    requires |existing.records| <= cap && i < |incoming.records|
    requires !Holds(existing.records, Brought(incoming, source, i))
    ensures var x := Brought(incoming, source, i);
            var after := Merged(existing, incoming, source, cap).snapshot.records;
            || x in after
            || (&& |after| == cap
                && forall y :: y in after && y.origin == Some(source) ==>
                     x.when.None? || (y.when.Some? && x.when.value <= y.when.value))
  {
    var x, all := Brought(incoming, source, i), Together(existing, incoming, source);
    var tagged, keep := Tagged(incoming.records, source), Keep(Together(existing, incoming, source), source, cap);
    HeldExactlyWhen(x, existing.records);
    CopiesAreAllCounted(x, existing.records);
    UncoveredIsAdded(existing.records, tagged, i, |tagged|);
    MergeConserves(existing, incoming, source, cap);
    MergeFacts(existing, incoming, source, cap);
    PickMembers(all, keep, |all|);
    assert x in all;
    var at: nat :| at < |all| && all[at] == x;
    if at !in keep { NoneOlderKept(all, source, cap, at); }
  }

  lemma NoneOlderKept(all: seq<Record>, source: string, cap: nat, at: nat)
    requires at < |all| && at !in Keep(all, source, cap) && all[at].origin == Some(source)
    ensures |all| > cap
    ensures forall y :: y in Pick(all, Keep(all, source, cap), |all|) && y.origin == Some(source) ==>
              !IsLater(all[at].when, y.when)
  {
    BelowMeaning(|all|);
    var keep := Keep(all, source, cap);
    PickMembers(all, keep, |all|);
    forall y | y in Pick(all, keep, |all|) && y.origin == Some(source)
      ensures !IsLater(all[at].when, y.when)
    {
      var j: nat :| j < |all| && j in keep && all[j] == y;
      if IsLater(all[at].when, y.when) { LaterIsAlsoKept(all, source, cap, at, j); }
    }
  }

  lemma NewIsBrought(existing: Snapshot, incoming: Incoming, source: string, r: Record) returns (i: nat)
    requires r in NewRecords(existing, incoming, source)
    ensures i < |incoming.records| && r == Brought(incoming, source, i)
  {
    NewAmongTagged(existing, incoming, source);
    assert r in Elements(Tagged(incoming.records, source));
    i :| i < |Tagged(incoming.records, source)| && Tagged(incoming.records, source)[i] == r;
  }

  // Among the records of the import's source, or of the session.
  ghost predicate CameFrom(existing: Snapshot, incoming: Incoming, source: string, r: Record) {
    r in existing.records || exists i: nat :: i < |incoming.records| && r == Brought(incoming, source, i)
  }

  /** Nothing else gets in: every passage of the result was in the session or is one the import brought, under the
      import's source and with its other fields unchanged. */
  lemma NothingElseGetsIn(existing: Snapshot, incoming: Incoming, source: string, cap: nat, r: Record)
    requires |existing.records| <= cap && r in Merged(existing, incoming, source, cap).snapshot.records
    ensures CameFrom(existing, incoming, source, r)
  {
    var all := Together(existing, incoming, source);
    MergeConserves(existing, incoming, source, cap);
    PickMembers(all, Keep(all, source, cap), |all|);
    assert r in all;
    if r in NewRecords(existing, incoming, source) {
      var i := NewIsBrought(existing, incoming, source, r);
    }
  }

  lemma {:induction false} TimesCounted(times: seq<int>, t: int, n: nat)
    requires n <= |times|
    ensures Count(times, Itself, t, n) == multiset(times[..n])[t]
  {
    if n > 0 {
      TimesCounted(times, t, n - 1);
      assert times[..n] == times[..n - 1] + [times[n - 1]];
    }
  }

  lemma AllTimesCounted(times: seq<int>, t: int)
    ensures CountAll(times, Itself, t) == multiset(times)[t]
  {
    TimesCounted(times, t, |times|);
    assert times[..|times|] == times;
  }

  /** After any import a watch time is there as often as the session had it or the import brought it, whichever is
      more, and the categories are those of both. */
  lemma WatchesAndCategories(existing: Snapshot, incoming: Incoming, source: string, cap: nat, t: int)
    ensures var after := Merged(existing, incoming, source, cap).snapshot;
            && multiset(after.watchTimes)[t] == Most(multiset(existing.watchTimes)[t], multiset(incoming.watchTimes)[t])
            && after.categories == existing.categories + incoming.categories
  {
    var added := NewWatches(existing, incoming);
    AddedIsDifference(existing.watchTimes, incoming.watchTimes, Itself, t, |incoming.watchTimes|);
    AllTimesCounted(existing.watchTimes, t);
    AllTimesCounted(incoming.watchTimes, t);
    AllTimesCounted(added, t);
    assert existing.watchTimes + [] == existing.watchTimes;
  }

  // ---- which passages stay ----

  // The passages of the source that come before passage i when the source is sorted: later ones, any dated one before
  // an undated, and among equal dates those that stand first in the file.
  function AheadOf(records: seq<Record>, source: string, i: nat): set<nat>
    requires i < |records|
  {
    set j: nat | && j < |records| && records[j].origin == Some(source)
                 && (|| (records[j].when.Some? && records[i].when.None?)
                     || (records[j].when.Some? && records[i].when.Some?
                         && records[j].when.value > records[i].when.value)
                     || (records[j].when == records[i].when && j < i))
  }

  /** Trimming keeps everything when it fits, and else other sources' passages and those of this source that have
      fewer passages ahead of them than there are places beside the other sources. */
  lemma KeptExactlyWhen(records: seq<Record>, source: string, cap: nat, i: nat)
    requires i < |records|
    ensures i in Keep(records, source, cap) <==>
            || |records| <= cap
            || records[i].origin != Some(source)
            || |AheadOf(records, source, i)| + |Others(records, source)| < cap
  {
    BelowMeaning(|records|);
    OwnAndOthers(records, source);
    if |records| > cap && records[i].origin == Some(source) {
      assert Above<nat>(ByRecency(records), Ids(records, source), i) == AheadOf(records, source, i);
    }
  }

  // Positions in increasing order, one for each passage kept.
  ghost predicate Places(records: seq<Record>, keep: set<nat>, n: nat, picked: seq<Record>, places: seq<nat>)
    requires n <= |records|
  {
    && |places| == |picked|
    && (forall k :: 0 <= k < |places| ==> places[k] < n && places[k] in keep && picked[k] == records[places[k]])
    && (forall k, l :: 0 <= k < l < |places| ==> places[k] < places[l])
    && (forall i: nat :: i < n && i in keep ==> i in places)
  }

  lemma PlaceKept(records: seq<Record>, keep: set<nat>, n: nat, picked: seq<Record>, places: seq<nat>)
    requires n < |records| && n in keep && Places(records, keep, n, picked, places)
    ensures Places(records, keep, n + 1, picked + [records[n]], places + [n])
  {
    forall i: nat | i < n + 1 && i in keep ensures i in places + [n] { assert i < n ==> i in places; }
  }

  lemma {:induction false} PickedInOrder(records: seq<Record>, keep: set<nat>, n: nat) returns (places: seq<nat>)
    requires n <= |records|
    ensures Places(records, keep, n, Pick(records, keep, n), places)
  {
    places := [];
    if n > 0 {
      places := PickedInOrder(records, keep, n - 1);
      if n - 1 in keep {
        PlaceKept(records, keep, n - 1, Pick(records, keep, n - 1), places);
        places := places + [n - 1];
      } else {
        PlaceDropped(records, keep, n - 1, Pick(records, keep, n - 1), places);
        assert Pick(records, keep, n - 1) + [] == Pick(records, keep, n - 1);
      }
    }
  }

  lemma PlaceDropped(records: seq<Record>, keep: set<nat>, n: nat, picked: seq<Record>, places: seq<nat>)
    requires n < |records| && n !in keep && Places(records, keep, n, picked, places)
    ensures Places(records, keep, n + 1, picked, places)
  {
  }

  /** The result lists the kept passages of the session and then the kept new ones, each in its old order. */
  lemma ResultInOrder(existing: Snapshot, incoming: Incoming, source: string, cap: nat) returns (places: seq<nat>)
    requires |existing.records| <= cap
    ensures var all := existing.records + NewRecords(existing, incoming, source);
            Places(all, Keep(all, source, cap), |all|, Merged(existing, incoming, source, cap).snapshot.records, places)
  {
    var all := Together(existing, incoming, source);
    MergeConserves(existing, incoming, source, cap);
    places := PickedInOrder(all, Keep(all, source, cap), |all|);
  }
}
