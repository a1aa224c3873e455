/** What each error of a verification means, by the events of the log themselves
    (remembrance-consent/app/consent/audit.py, `verify_chain`). */
module AuditFaults {
  import opened Wrappers
  import opened Digests
  import opened AuditChain

  // ---- one event and the one before it ----

  // No event of the profile comes before position i.
  ghost predicate IsFirst(events: seq<Event>, i: nat)
    requires i < |events|
  {
    forall j: nat :: j < i ==> events[j].material.profile != events[i].material.profile
  }

  // Event j is the last one of the same profile before position i.
  ghost predicate Precedes(events: seq<Event>, j: nat, i: nat)
    requires i < |events|
  {
    && j < i && events[j].material.profile == events[i].material.profile
    && forall m: nat :: j < m < i ==> events[m].material.profile != events[i].material.profile
  }

  /** How many of the first n events are of the profile. */
  function HowMany(events: seq<Event>, n: nat, p: Pid): nat
    requires n <= |events|
  {
    if n == 0 then 0 else HowMany(events, n - 1, p) + if events[n - 1].material.profile == p then 1 else 0
  }

  /** Whether the event at position i has the fault. */
  ghost predicate Faulty(hash: Hash, anchors: Anchors, events: seq<Event>, i: nat, kind: Kind)
    requires i < |events|
  {
    var e := events[i];
    var p := e.material.profile;
    match kind
    case BadGenesis => IsFirst(events, i) && e.material.previous != ZeroHash
    case BrokenLink => exists j: nat :: Precedes(events, j, i) && e.material.previous != events[j].hash
    case HashMismatch => hash(e.material) != e.hash
    case TimestampRegression =>
      exists j: nat :: Precedes(events, j, i) && e.material.createdAt < events[j].material.createdAt
    case AnchorMismatch =>
      p in anchors.at && anchors.at[p].length == HowMany(events, i + 1, p) && e.hash != anchors.at[p].head
    case AnchorMissing => false
  }

  // ---- the chains of the verifier are these events ----

  lemma {:induction false} ChainIsCounted(events: seq<Event>, n: nat, p: Pid)
    requires n <= |events|
    ensures |Chain(events, n, p)| == HowMany(events, n, p)
  {
    if n > 0 { ChainIsCounted(events, n - 1, p); }
  }

  lemma {:induction false} LastOfChain(events: seq<Event>, n: nat, p: Pid) returns (j: nat)
    requires n <= |events|
    ensures Chain(events, n, p) == [] ==> forall m: nat :: m < n ==> events[m].material.profile != p
    ensures Chain(events, n, p) != [] ==>
              && j < n && events[j].material.profile == p
              && Chain(events, n, p)[|Chain(events, n, p)| - 1] == events[j]
              && forall m: nat :: j < m < n ==> events[m].material.profile != p
  {
    j := 0;
    if n > 0 {
      if events[n - 1].material.profile == p { j := n - 1; } else { j := LastOfChain(events, n - 1, p); }
    }
  }

  lemma FaultsAt(hash: Hash, anchors: Anchors, events: seq<Event>, i: nat, x: ChainError)
    requires i < |events|
    ensures x in ErrorsAt(hash, anchors, events, i) <==>
            x == ChainError(events[i].material.profile, Some(events[i].id), x.kind)
            && Faulty(hash, anchors, events, i, x.kind)
  {
    var e, p := events[i], events[i].material.profile;
    var c := Chain(events, i, p);
    ChainIsCounted(events, i, p);
    var j := LastOfChain(events, i, p);
    if c == [] {
      assert IsFirst(events, i);
    } else {
      assert Precedes(events, j, i);
      OnePrecedes(events, j, i);
    }
    ErrorKinds(hash, AnchorOf(anchors, p), c, e, x);
  }

  lemma OnePrecedes(events: seq<Event>, j: nat, i: nat)
    requires i < |events| && Precedes(events, j, i)
    ensures !IsFirst(events, i) && forall k: nat :: Precedes(events, k, i) ==> k == j
  {
  }

  lemma ErrorKinds(hash: Hash, anchor: Option<Anchor>, c: seq<Event>, e: Event, x: ChainError)
    ensures x in EventErrors(hash, anchor, c, e) <==>
            && x == ChainError(e.material.profile, Some(e.id), x.kind)
            && match x.kind
               case BadGenesis => c == [] && e.material.previous != ZeroHash
               case BrokenLink => c != [] && e.material.previous != c[|c| - 1].hash
               case HashMismatch => hash(e.material) != e.hash
               case TimestampRegression => c != [] && e.material.createdAt < c[|c| - 1].material.createdAt
               case AnchorMismatch => anchor.Some? && |c| + 1 == anchor.value.length && e.hash != anchor.value.head
               case AnchorMissing => false
  {
  }

  // ---- the whole report ----

  lemma {:induction false} InFlattened(parts: seq<seq<ChainError>>, x: ChainError)
    ensures x in Flatten(parts) <==> exists i :: 0 <= i < |parts| && x in parts[i]
  {
    if parts != [] {
      var n := |parts| - 1;
      InFlattened(parts[..n], x);
      assert forall i :: 0 <= i < n ==> parts[..n][i] == parts[i];
    }
  }

  /** A report holds an error for an event exactly when that event has that fault, under its profile and id, and one
      without an event exactly for a profile whose log is shorter than its anchor. */
  lemma ErrorsExactly(hash: Hash, anchors: Anchors, events: seq<Event>, x: ChainError)
    requires anchors.Valid()
    ensures x in Errors(hash, anchors, events) <==>
            || (exists i: nat :: && i < |events| && Faulty(hash, anchors, events, i, x.kind)
                                 && x == ChainError(events[i].material.profile, Some(events[i].id), x.kind))
            || (&& x == ChainError(x.profile, None, AnchorMissing) && x.profile in anchors.at
                && HowMany(events, |events|, x.profile) < anchors.at[x.profile].length)
  {
    EventErrorsExactly(hash, anchors, events, x);
    MissingExactly(anchors, events, x);
  }

  lemma EventErrorsExactly(hash: Hash, anchors: Anchors, events: seq<Event>, x: ChainError)
    ensures x in Flatten(LogErrors(hash, anchors, events)) <==>
            exists i: nat :: && i < |events| && Faulty(hash, anchors, events, i, x.kind)
                             && x == ChainError(events[i].material.profile, Some(events[i].id), x.kind)
  {
    InFlattened(LogErrors(hash, anchors, events), x);
    forall i: nat | i < |events|
      ensures x in LogErrors(hash, anchors, events)[i] <==>
              x == ChainError(events[i].material.profile, Some(events[i].id), x.kind)
              && Faulty(hash, anchors, events, i, x.kind)
    {
      FaultsAt(hash, anchors, events, i, x);
    }
  }

  lemma MissingExactly(anchors: Anchors, events: seq<Event>, x: ChainError)
    requires anchors.Valid()
    ensures x in Flatten(MissingErrors(anchors, events)) <==>
            && x == ChainError(x.profile, None, AnchorMissing) && x.profile in anchors.at
            && HowMany(events, |events|, x.profile) < anchors.at[x.profile].length
  {
    InFlattened(MissingErrors(anchors, events), x);
    ChainIsCounted(events, |events|, x.profile);
    if x == ChainError(x.profile, None, AnchorMissing) && x.profile in anchors.at
       && HowMany(events, |events|, x.profile) < anchors.at[x.profile].length {
      var i :| 0 <= i < |anchors.order| && anchors.order[i] == x.profile;
      assert MissingErrors(anchors, events)[i] == [x];
    }
  }
}
