/** One worker running the cascade for one grant, with object-store outages and retries
    (remembrance-consent/app/consent/cascade.py, `_Cascade` and `run_cascade`). */
module CascadeWorker {
  import opened Wrappers
  import opened CascadeStore

  datatype CascadeError = UnknownGrant | NotRevoked | StorageFailed(key: Key) | Incomplete

  // ---- What the loops do, over all ids at once ----

  function CancelAll(db: Db, ids: seq<nat>): Db {
    if ids == [] then db else CancelTx(CancelAll(db, ids[..|ids| - 1]), ids[|ids| - 1])
  }

  function DeleteAll(db: Db, kind: Kind, ids: seq<nat>): Db {
    if ids == [] then db else TombstoneTx(DeleteAll(db, kind, ids[..|ids| - 1]), Ref(kind, ids[|ids| - 1]))
  }

  function KeyOf(db: Db, r: Ref): set<Key> {
    if r in db.artifacts && db.artifacts[r].key.Some? then {db.artifacts[r].key.value} else {}
  }

  function KeysOf(db: Db, kind: Kind, ids: seq<nat>): set<Key> {
    if ids == [] then {} else KeysOf(db, kind, ids[..|ids| - 1]) + KeyOf(db, Ref(kind, ids[|ids| - 1]))
  }

  function Elems(ids: seq<nat>): set<nat> {
    set id | id in ids
  }

  ghost predicate Distinct(ids: seq<nat>) {
    forall i, j :: 0 <= i < j < |ids| ==> ids[i] < ids[j]
  }

  ghost predicate Lists(ids: seq<nat>, all: set<nat>) {
    Distinct(ids) && |ids| == |all| && forall id :: id in ids <==> id in all
  }

  lemma {:induction false} CancelAllScope(db: Db, ids: seq<nat>, g: GrantId)
    ensures var db' := CancelAll(db, ids);
            && db' == db.(deliveries := db'.deliveries, events := db'.events)
            && db'.deliveries.Keys == db.deliveries.Keys
            && LiveTokens(db', g) == LiveTokens(db, g)
            && DueDeliveries(db', g) == DueDeliveries(db, g) - Elems(ids)
            && forall kind :: Live(db', g, kind) == Live(db, g, kind)
    ensures forall d :: d in db.deliveries ==>
              CancelAll(db, ids).deliveries[d] == if d in ids && db.deliveries[d].status.Scheduled?
                                                  then db.deliveries[d].(status := Cancelled) else db.deliveries[d]
  {
    if ids != [] {
      var front, last := ids[..|ids| - 1], ids[|ids| - 1];
      assert ids == front + [last];
      CancelAllScope(db, front, g);
      CancelScope(CancelAll(db, front), last, g);
    }
  }

  // The next listed delivery is untouched by the cancellations before it.
  lemma StillDue(db: Db, ids: seq<nat>, i: nat)
    requires Distinct(ids) && i < |ids| && ids[i] in db.deliveries && db.deliveries[ids[i]].status.Scheduled?
    ensures ids[i] in CancelAll(db, ids[..i]).deliveries && CancelAll(db, ids[..i]).deliveries[ids[i]].status.Scheduled?
  {
    CancelAllScope(db, ids[..i], 0);
    assert ids[i] !in ids[..i];
  }

  lemma {:induction false} CancelAllEvents(db: Db, ids: seq<nat>)
    requires Distinct(ids) && forall id :: id in ids ==> id in db.deliveries && db.deliveries[id].status.Scheduled?
    ensures CancelAll(db, ids).events == db.events + CancelEvents(ids)
  {
    if ids != [] {
      var front, last := ids[..|ids| - 1], ids[|ids| - 1];
      assert forall id :: id in front ==> id in ids;
      CancelAllEvents(db, front);
      StillDue(db, ids, |front|);
      assert CancelEvents(ids) == CancelEvents(front) + [DeliveryCancelled(last)];
    }
  }

  lemma {:induction false} DeleteAllRow(db: Db, kind: Kind, ids: seq<nat>, r: Ref)
    ensures var db' := DeleteAll(db, kind, ids);
            && db' == db.(artifacts := db'.artifacts, events := db'.events)
            && db'.artifacts.Keys == db.artifacts.Keys
            && (r in db.artifacts ==>
                  db'.artifacts[r] == if r.kind == kind && r.id in ids && !db.artifacts[r].deleted
                                      then db.artifacts[r].(key := None, deleted := true) else db.artifacts[r])
  {
    if ids != [] {
      assert r.id in ids <==> r.id in ids[..|ids| - 1] || r.id == ids[|ids| - 1];
      DeleteAllRow(db, kind, ids[..|ids| - 1], r);
    }
  }

  ghost predicate AllRows(db: Db, kind: Kind, ids: seq<nat>) {
    forall i :: 0 <= i < |ids| ==> Ref(kind, ids[i]) in db.artifacts && !db.artifacts[Ref(kind, ids[i])].deleted
  }

  lemma {:induction false} DeleteAllScope(db: Db, kind: Kind, ids: seq<nat>, g: GrantId)
    requires AllRows(db, kind, ids)
    ensures var db' := DeleteAll(db, kind, ids);
            && LiveTokens(db', g) == LiveTokens(db, g)
            && DueDeliveries(db', g) == DueDeliveries(db, g)
            && forall k :: Live(db', g, k) == if k == kind then Live(db, g, k) - Elems(ids) else Live(db, g, k)
  {
    if ids != [] {
      var front, last := ids[..|ids| - 1], ids[|ids| - 1];
      DeleteAllScope(db, kind, front, g);
      DeleteAllRow(db, kind, front, Ref(kind, last));
      TombstoneScope(DeleteAll(db, kind, front), Ref(kind, last), g);
      assert ids == front + [last];
      assert Elems(ids) == Elems(front) + {last};
    }
  }

  // Each live artifact is reported once, with the key it had.
  lemma {:induction false} DeleteAllEvents(db: Db, kind: Kind, ids: seq<nat>)
    requires Distinct(ids) && AllRows(db, kind, ids)
    ensures DeleteAll(db, kind, ids).events == db.events + DeleteEvents(db, kind, ids)
  {
    if ids != [] {
      var front, last := ids[..|ids| - 1], ids[|ids| - 1];
      DeleteAllEvents(db, kind, front);
      RowStillLive(db, kind, ids, |ids| - 1);
      assert DeleteEvents(db, kind, ids) == DeleteEvents(db, kind, front) + [DeleteEvent(db, Ref(kind, last))];
    }
  }

  function DeleteEvent(db: Db, r: Ref): Event {
    ModelDeleted(r, if r in db.artifacts then db.artifacts[r].key else None)
  }

  function DeleteEvents(db: Db, kind: Kind, ids: seq<nat>): seq<Event> {
    seq(|ids|, i requires 0 <= i < |ids| => DeleteEvent(db, Ref(kind, ids[i])))
  }

  // The next id's row is untouched by the deletions before it.
  lemma RowStillLive(db: Db, kind: Kind, ids: seq<nat>, i: nat)
    requires i < |ids| && Distinct(ids) && AllRows(db, kind, ids)
    ensures Ref(kind, ids[i]) in DeleteAll(db, kind, ids[..i]).artifacts
    ensures DeleteAll(db, kind, ids[..i]).artifacts[Ref(kind, ids[i])] == db.artifacts[Ref(kind, ids[i])]
    ensures ids[..i + 1][..i] == ids[..i]
  {
    DeleteAllRow(db, kind, ids[..i], Ref(kind, ids[i]));
    assert ids[i] !in ids[..i];
  }

  lemma LiveListed(db: Db, g: GrantId, kind: Kind, ids: seq<nat>)
    requires Lists(ids, Live(db, g, kind))
    ensures AllRows(db, kind, ids)
  {
    LiveMeaning(db, g, kind);
    assert forall i :: 0 <= i < |ids| ==> ids[i] in ids;
  }

  /** The objects of the in-scope artifacts that are still live. */
  function ScopeKeys(db: Db, g: GrantId): set<Key> {
    set r | r in db.artifacts && InScope(db, g, r) && !db.artifacts[r].deleted && db.artifacts[r].key.Some? ::
      db.artifacts[r].key.value
  }

  lemma ScopeKeyOf(db: Db, g: GrantId, kind: Kind, id: nat)
    requires id in Live(db, g, kind)
    ensures KeyOf(db, Ref(kind, id)) <= ScopeKeys(db, g)
  {
    LiveMeaning(db, g, kind);
  }

  lemma ScopeKeyFrom(db: Db, g: GrantId, k: Key) returns (kind: Kind, id: nat)
    requires k in ScopeKeys(db, g)
    ensures id in Live(db, g, kind) && KeyOf(db, Ref(kind, id)) == {k}
  {
    var r :| r in db.artifacts && InScope(db, g, r) && !db.artifacts[r].deleted && db.artifacts[r].key == Some(k);
    kind, id := r.kind, r.id;
    LiveMeaning(db, g, kind);
    assert Ref(kind, id) == r;
  }

  // Some live in-scope artifact's object cannot be deleted at the moment.
  ghost predicate Blocked(db: Db, g: GrantId, broken: set<Key>) {
    ScopeKeys(db, g) * broken != {}
  }

  lemma BlockedMeaning(db: Db, g: GrantId, broken: set<Key>)
    ensures Blocked(db, g, broken) <==> exists k :: k in broken && HasLiveObject(db, g, k)
  {
    forall r | r in db.artifacts ensures InScope(db, g, r) <==> ArtifactOf(db, g, r) { ScopeMeaning(db, g, r); }
    forall k ensures k in ScopeKeys(db, g) <==> HasLiveObject(db, g, k) {}
    if Blocked(db, g, broken) {
      var k :| k in ScopeKeys(db, g) * broken;
      assert HasLiveObject(db, g, k);
    }
    if k :| k in broken && HasLiveObject(db, g, k) { assert k in ScopeKeys(db, g) * broken; }
  }

  // Deleting the first `n` listed artifacts of one kind.
  lemma DeletedScope(db: Db, kind: Kind, ids: seq<nat>, n: nat, g: GrantId)
    requires Lists(ids, Live(db, g, kind)) && n <= |ids|
    ensures var db' := DeleteAll(db, kind, ids[..n]);
            && LiveTokens(db', g) == LiveTokens(db, g) && DueDeliveries(db', g) == DueDeliveries(db, g)
            && Live(db', g, kind) <= Live(db, g, kind) && |Live(db', g, kind)| == |ids| - n
            && (forall k :: k != kind ==> Live(db', g, k) == Live(db, g, k))
  {
    LiveListed(db, g, kind, ids);
    var front := ids[..n];
    DeleteAllScope(db, kind, front, g);
    ElemsSize(front);
    assert Elems(front) <= Live(db, g, kind) by { assert forall id :: id in front ==> id in ids; }
  }

  lemma DeletedShrinks(db: Db, kind: Kind, ids: seq<nat>, n: nat, g: GrantId)
    requires Lists(ids, Live(db, g, kind)) && n <= |ids|
    ensures Shrunk(db, DeleteAll(db, kind, ids[..n]), g)
  {
    var db' := DeleteAll(db, kind, ids[..n]);
    DeletedScope(db, kind, ids, n, g);
    forall k, id | id in Live(db', g, k)
      ensures id in Live(db, g, k) && KeyOf(db', Ref(k, id)) == KeyOf(db, Ref(k, id))
    {
      LiveMeaning(db', g, k);
      DeleteAllRow(db, kind, ids[..n], Ref(k, id));
    }
  }

  lemma DeletedTrail(start: Db, db: Db, kind: Kind, ids: seq<nat>, n: nat, g: GrantId, trail: seq<Event>)
    requires Lists(ids, Live(db, g, kind)) && n <= |ids| && db.events == start.events + trail
    requires forall id :: DeleteEvent(db, Ref(kind, id)) == DeleteEvent(start, Ref(kind, id))
    ensures DeleteAll(db, kind, ids[..n]).events == start.events + (trail + DeleteEvents(start, kind, ids[..n]))
  {
    LiveListed(db, g, kind, ids);
    DeleteAllEvents(db, kind, ids[..n]);
    SameDeleteEvents(db, start, kind, ids[..n]);
    assert start.events + trail + DeleteEvents(start, kind, ids[..n])
        == start.events + (trail + DeleteEvents(start, kind, ids[..n]));
  }

  lemma {:induction false} ElemsSize(ids: seq<nat>)
    requires Distinct(ids)
    ensures |Elems(ids)| == |ids|
  {
    if ids != [] {
      var front, last := ids[..|ids| - 1], ids[|ids| - 1];
      ElemsSize(front);
      assert last !in Elems(front);
      assert Elems(ids) == Elems(front) + {last} by { assert ids == front + [last]; }
    }
  }

  // After the claim, the tokens and the deliveries, only the artifacts are left, untouched.
  lemma Prepared(db: Db, g: GrantId, now: int, ids: seq<nat>)
    requires Lists(ids, DueDeliveries(RevokeTokensTx(ClaimTx(db, g, now), g), g))
    ensures DueDeliveries(RevokeTokensTx(ClaimTx(db, g, now), g), g) == DueDeliveries(db, g)
    ensures LiveTokens(ClaimTx(db, g, now), g) == LiveTokens(db, g)
    ensures var db' := CancelAll(RevokeTokensTx(ClaimTx(db, g, now), g), ids);
            && db'.artifacts == db.artifacts && db'.revoked == db.revoked
            && db'.requests == ClaimTx(db, g, now).requests
            && LiveTokens(db', g) == {} && DueDeliveries(db', g) == {}
            && (forall k :: Live(db', g, k) == Live(db, g, k))
            && db'.events == db.events + CancelEvents(ids)
  {
    var claimed := ClaimTx(db, g, now);
    RequestWriteScope(db, claimed, g);
    RevokeTokensScope(claimed, g, g);
    var ready := RevokeTokensTx(claimed, g);
    CancelAllScope(ready, ids, g);
    CancelAllEvents(ready, ids);
    assert DueDeliveries(ready, g) - Elems(ids) == {};
  }

  lemma PreparedRows(db: Db, g: GrantId, now: int, ids: seq<nat>)
    requires Lists(ids, DueDeliveries(db, g))
    ensures var db' := CancelAll(RevokeTokensTx(ClaimTx(db, g, now), g), ids);
            db'.tokens == RevokeTokensTx(db, g).tokens && db'.deliveries == CancelledIn(db, g)
  {
    CancelAllScope(RevokeTokensTx(ClaimTx(db, g, now), g), ids, g);
  }

  /** The deliveries once a grant's due ones are cancelled. */
  function CancelledIn(db: Db, g: GrantId): map<nat, Delivery> {
    map d | d in db.deliveries ::
      if d in DueDeliveries(db, g) then db.deliveries[d].(status := Cancelled) else db.deliveries[d]
  }

  function CancelEvents(ids: seq<nat>): seq<Event> {
    seq(|ids|, i requires 0 <= i < |ids| => DeliveryCancelled(ids[i]))
  }

  // What is left in a grant's scope was there before, with the same object.
  ghost predicate Shrunk(before: Db, after: Db, g: GrantId) {
    forall kind, id :: id in Live(after, g, kind) ==>
      id in Live(before, g, kind) && KeyOf(after, Ref(kind, id)) == KeyOf(before, Ref(kind, id))
  }

  method Ordered(ids: set<nat>) returns (s: seq<nat>)
    ensures Lists(s, ids)
  {
    s := [];
    var rest := ids;
    while rest != {}
      invariant Distinct(s) && rest <= ids && |s| + |rest| == |ids|
      invariant forall id :: id in ids <==> id in s || id in rest
      invariant forall id, i :: id in rest && 0 <= i < |s| ==> s[i] < id
      decreases rest
    {
      var least := Least(rest);
      s, rest := s + [least], rest - {least};
    }
  }

  method Least(ids: set<nat>) returns (least: nat)
    requires ids != {}
    ensures least in ids && forall id :: id in ids ==> least <= id
  {
    least :| least in ids;
    var rest := ids - {least};
    while rest != {}
      invariant rest <= ids && least in ids && forall id :: id in ids ==> id in rest || least <= id
      decreases rest
    {
      var x :| x in rest;
      if x < least { least := x; }
      rest := rest - {x};
    }
  }

  class Cascade {
    const grantId: GrantId
    var revoked: map<GrantId, bool>
    var requests: map<GrantId, Request>
    var tokens: map<nat, Token>
    var deliveries: map<nat, Delivery>
    var artifacts: map<Ref, Artifact>
    var events: seq<Event>
    var objects: set<Key>  // the object store, outside every transaction

    function Tables(): Db
      reads this
    {
      Db(revoked, requests, tokens, deliveries, artifacts, events)
    }

    constructor (grantId: GrantId, db: Db, objects: set<Key>)
      ensures this.grantId == grantId && Tables() == db && this.objects == objects
    {
      this.grantId, this.objects := grantId, objects;
      revoked, requests, tokens := db.revoked, db.requests, db.tokens;
      deliveries, artifacts, events := db.deliveries, db.artifacts, db.events;
    }

    /** False when the request is already complete. */
    method Claim(now: int) returns (r: Result<bool, CascadeError>)
      modifies this`requests
      ensures r.Err? ==> requests == old(requests)
      ensures requests - {grantId} == old(requests) - {grantId}
      ensures grantId !in revoked ==> r == Err(UnknownGrant)
      ensures grantId in revoked && !revoked[grantId] ==> r == Err(NotRevoked)
      ensures grantId in revoked && revoked[grantId] ==>
                && r == Ok(!(grantId in old(requests) && old(requests[grantId]).status.Complete?))
                && Tables() == ClaimTx(old(Tables()), grantId, now)
      ensures r == Ok(true) ==>
                && grantId in requests
                && var attempts := if grantId in old(requests) then old(requests)[grantId].attempts else 0;
                requests[grantId] == Request(Processing, attempts + 1, false, now)
      ensures r == Ok(false) ==> requests == old(requests)
    {
      if grantId !in revoked { return Err(UnknownGrant); }
      if !revoked[grantId] { return Err(NotRevoked); }
      if grantId !in requests { requests := requests[grantId := Request(Pending, 0, false, now)]; }
      var request := requests[grantId];
      if request.status.Complete? { return Ok(false); }
      requests := requests[grantId := Request(Processing, request.attempts + 1, false, now)];
      return Ok(true);
    }

    method RevokeGrantTokens() returns (n: nat)
      modifies this`tokens
      ensures Tables() == RevokeTokensTx(old(Tables()), grantId) && n == |LiveTokens(old(Tables()), grantId)|
    {
      n := |LiveTokens(Tables(), grantId)|;
      tokens := RevokeTokensTx(Tables(), grantId).tokens;
    }

    method CancelDeliveries() returns (cancelled: nat, ghost ids: seq<nat>)
      modifies this`deliveries, this`events
      ensures Lists(ids, DueDeliveries(old(Tables()), grantId))
      ensures Tables() == CancelAll(old(Tables()), ids) && cancelled == |ids|
    {
      ghost var before := Tables();
      var listed := Ordered(DueDeliveries(Tables(), grantId));
      ids := listed;
      cancelled := 0;
      for i := 0 to |listed|
        invariant Tables() == CancelAll(before, listed[..i]) && cancelled == i
      {
        assert listed[i] in listed;
        StillDue(before, listed, i);
        assert listed[..i + 1][..i] == listed[..i];
        var one := CancelOne(listed[i]);
        if one { cancelled := cancelled + 1; }
      }
      assert listed[..|listed|] == listed;
    }

    // One delivery's transaction. False when it was already settled.
    method CancelOne(d: nat) returns (done: bool)
      modifies this`deliveries, this`events
      ensures Tables() == CancelTx(old(Tables()), d)
      ensures done <==> d in old(deliveries) && old(deliveries[d]).status.Scheduled?
    {
      if d !in deliveries || !deliveries[d].status.Scheduled? { return false; }
      deliveries := deliveries[d := deliveries[d].(status := Cancelled)];
      events := events + [DeliveryCancelled(d)];
      return true;
    }

    // One artifact's transaction: delete the object, tombstone the row, audit. False when the row was already done.
    method DeleteOne(r: Ref, broken: set<Key>) returns (res: Result<bool, CascadeError>)
      modifies this`artifacts, this`events, this`objects
      ensures res.Err? ==>
                && res.error.StorageFailed? && res.error.key in broken && KeyOf(old(Tables()), r) == {res.error.key}
                && Tables() == old(Tables()) && objects == old(objects)
      ensures res.Ok? ==> Tables() == TombstoneTx(old(Tables()), r)
      ensures res.Ok? ==> res.value == (r in old(artifacts) && !old(artifacts[r]).deleted)
      ensures res.Ok? && res.value ==>
                objects == old(objects) - KeyOf(old(Tables()), r) && KeyOf(old(Tables()), r) !! broken
      ensures res.Ok? && !res.value ==> objects == old(objects)
    {
      if r !in artifacts || artifacts[r].deleted { return Ok(false); }
      var key := artifacts[r].key;
      if key.Some? {
        if key.value in broken { return Err(StorageFailed(key.value)); }
        objects := objects - {key.value};
      }
      artifacts := artifacts[r := artifacts[r].(key := None, deleted := true)];
      events := events + [ModelDeleted(r, key)];
      return Ok(true);
    }

    /** `broken` are the keys whose deletion fails during this run. The work done before a failure stays done. */
    method DeleteArtifacts(kind: Kind, broken: set<Key>)
      returns (r: Result<nat, CascadeError>, ghost ids: seq<nat>, ghost done: nat)
      modifies this`artifacts, this`events, this`objects
      ensures Lists(ids, Live(old(Tables()), grantId, kind)) && AllRows(old(Tables()), kind, ids) && done <= |ids|
      ensures Tables() == DeleteAll(old(Tables()), kind, ids[..done])
      ensures objects == old(objects) - KeysOf(old(Tables()), kind, ids[..done])
      ensures KeysOf(old(Tables()), kind, ids[..done]) !! broken
      ensures r.Ok? ==> done == |ids| && r.value == |ids|
      ensures r.Err? ==> done < |ids| && r.error.StorageFailed? && r.error.key in broken
      ensures r.Err? ==> KeyOf(old(Tables()), Ref(kind, ids[done])) == {r.error.key}
    {
      ghost var before := Tables();
      var listed := Ordered(Live(Tables(), grantId, kind));
      ids, done := listed, 0;
      LiveListed(before, grantId, kind, listed);
      var deleted := 0;
      for i := 0 to |listed|
        invariant done == i && deleted == i
        invariant Tables() == DeleteAll(before, kind, listed[..i])
        invariant objects == old(objects) - KeysOf(before, kind, listed[..i])
        invariant KeysOf(before, kind, listed[..i]) !! broken
      {
        RowStillLive(before, kind, listed, i);
        var one := DeleteOne(Ref(kind, listed[i]), broken);
        if one.Err? { return Err(one.error), ids, done; }
        if one.value { deleted := deleted + 1; }
        done := done + 1;
      }
      assert listed[..|listed|] == listed;
      return Ok(deleted), ids, done;
    }

    method Finish(report: Report, now: int) returns (r: Result<(), CascadeError>)
      requires grantId in requests
      modifies this`requests, this`events
      ensures NothingLive(old(Tables()), grantId) ==>
                r.Ok? && Tables() == CompleteTx(old(Tables()), grantId, report, now)
      ensures NothingLive(old(Tables()), grantId) ==>
                && requests == old(requests)[grantId := old(requests)[grantId].(status := Complete, updatedAt := now)]
                && events == old(events) + [CascadeCompleted(grantId, old(requests)[grantId].attempts, report)]
      ensures !NothingLive(old(Tables()), grantId) ==> r == Err(Incomplete) && Tables() == old(Tables())
    {
      NothingLeftMeaning(Tables(), grantId);
      if !NothingLeft(Tables(), grantId) { return Err(Incomplete); }
      requests := requests[grantId := requests[grantId].(status := Complete, updatedAt := now)];
      events := events + [CascadeCompleted(grantId, requests[grantId].attempts, report)];
      return Ok(());
    }

    method RecordFailure(now: int)
      modifies this`requests
      ensures grantId in old(requests) && !old(requests)[grantId].status.Complete? ==>
                requests == old(requests)[grantId := old(requests)[grantId].(failed := true, updatedAt := now)]
      ensures !(grantId in old(requests) && !old(requests)[grantId].status.Complete?) ==> requests == old(requests)
    {
      if grantId in requests && !requests[grantId].status.Complete? {
        requests := requests[grantId := requests[grantId].(failed := true, updatedAt := now)];
      }
    }

    method FailKeepingProgress(now: int, ghost start: Db, ghost trail: seq<Event>)
      requires Progress(start, Tables(), grantId, trail) && Open() && grantId in requests
      modifies this`requests
      ensures Progress(start, Tables(), grantId, trail) && Open()
      ensures grantId in requests && requests[grantId].failed && requests - {grantId} == old(requests) - {grantId}
    {
      ghost var after := Tables();
      RecordFailure(now);
      RequestWriteScope(after, Tables(), grantId);
      ProgressSame(start, after, Tables(), grantId, trail);
    }

    /** One delivery of the cascade job. Completed work is reported; a failed run keeps what it managed. */
    method Run(broken: set<Key>, now: int) returns (r: Result<Option<Report>, CascadeError>, ghost trail: seq<Event>)
      modifies this`requests, this`tokens, this`deliveries, this`artifacts, this`events, this`objects
      ensures !old(Open()) ==> Tables() == old(Tables()) && objects == old(objects)
      ensures !old(Open()) ==>
                r ==
                  if grantId !in revoked then Err(UnknownGrant) else if !revoked[grantId] then Err(NotRevoked)
                  else Ok(None)
      ensures requests - {grantId} == old(requests) - {grantId}
      ensures old(Open()) ==> tokens == RevokeTokensTx(old(Tables()), grantId).tokens
      ensures old(Open()) ==> deliveries == CancelledIn(old(Tables()), grantId)
      ensures old(Open()) && r.Ok? ==> Accomplished(old(Tables()), Tables(), old(objects), objects, grantId)
      ensures old(Open()) && r.Err? ==> objects == old(objects) - LostKeys(old(Tables()), artifacts)
      ensures old(Open()) ==> grantId in requests && (r.Err? <==> Blocked(old(Tables()), grantId, broken))
      ensures old(Open()) && r.Err? ==>
                Open() && requests[grantId].failed && r.error.StorageFailed? && r.error.key in broken
      ensures old(Open()) && r.Err? ==> Progress(old(Tables()), Tables(), grantId, trail)
      ensures old(Open()) && r.Ok? ==> requests[grantId].status.Complete? && NothingLeft(Tables(), grantId)
      ensures old(Open()) && r.Ok? ==>
                r.value == Some(FullReport(old(Tables()), grantId)) && Undone(old(Tables()), grantId, trail)
      ensures old(Open()) && r.Ok? ==>
                events == old(events) + trail + [CascadeCompleted(grantId, requests[grantId].attempts, r.value.value)]
    {
      ghost var start := Tables();
      trail := [];
      var claimed := Claim(now);
      if claimed.Err? { return Err(claimed.error), trail; }
      if !claimed.value { return Ok(None), trail; }
      var report;
      report, trail := RunClaimed(broken, now, start);
      r := if report.Err? then Err(report.error) else Ok(Some(report.value));
    }

    // A run whose request is claimed: everything up to the recorded failure or the completion.
    method RunClaimed(broken: set<Key>, now: int, ghost start: Db)
      returns (r: Result<Report, CascadeError>, ghost trail: seq<Event>)
      requires Tables() == ClaimTx(start, grantId, now) && Open() && grantId in requests
      modifies this`requests, this`tokens, this`deliveries, this`artifacts, this`events, this`objects
      ensures grantId in requests && (r.Err? <==> Blocked(start, grantId, broken))
      ensures tokens == RevokeTokensTx(start, grantId).tokens && deliveries == CancelledIn(start, grantId)
      ensures requests - {grantId} == old(requests) - {grantId}
      ensures r.Err? ==> objects == old(objects) - LostKeys(start, artifacts)
      ensures r.Ok? ==> Accomplished(start, Tables(), old(objects), objects, grantId)
      ensures r.Err? ==> Open() && requests[grantId].failed && r.error.StorageFailed? && r.error.key in broken
      ensures r.Err? ==> Progress(start, Tables(), grantId, trail)
      ensures r.Ok? ==> requests[grantId].status.Complete? && NothingLeft(Tables(), grantId)
      ensures r.Ok? ==> r.value == FullReport(start, grantId) && Undone(start, grantId, trail)
      ensures r.Ok? ==> Told(events, start, trail, CascadeCompleted(grantId, requests[grantId].attempts, r.value))
    {
      r, trail := Undo(broken, now, start);
      Close(r, now, start, trail);
      if r.Ok? { Accomplishes(start, Tables(), old(objects), objects, grantId); }
    }

    // The last transaction of a run: the recorded failure or the completion.
    method Close(undone: Result<Report, CascadeError>, now: int, ghost start: Db, ghost trail: seq<Event>)
      requires Open() && grantId in requests && Progress(start, Tables(), grantId, trail)
      requires undone.Ok? ==> NothingLeft(Tables(), grantId)
      modifies this`requests, this`events
      ensures grantId in requests && requests - {grantId} == old(requests) - {grantId}
      ensures undone.Err? ==> Open() && requests[grantId].failed && Progress(start, Tables(), grantId, trail)
      ensures undone.Ok? ==> requests[grantId].status.Complete? && NothingLeft(Tables(), grantId)
      ensures undone.Ok? ==>
                Told(events, start, trail, CascadeCompleted(grantId, requests[grantId].attempts, undone.value))
    {
      if undone.Err? {
        FailKeepingProgress(now, start, trail);
      } else {
        Conclude(undone.value, now, start, trail);
      }
    }

    // The completion.
    method Conclude(report: Report, now: int, ghost start: Db, ghost trail: seq<Event>)
      requires grantId in requests && NothingLeft(Tables(), grantId)
      requires events == start.events + trail
      modifies this`requests, this`events
      ensures grantId in requests && requests[grantId].status.Complete? && NothingLeft(Tables(), grantId)
      ensures requests - {grantId} == old(requests) - {grantId}
      ensures Told(events, start, trail, CascadeCompleted(grantId, requests[grantId].attempts, report))
    {
      ghost var before := Tables();
      NothingLeftMeaning(before, grantId);
      var finished := Finish(report, now);
      RequestWriteScope(before, Tables(), grantId);
    }

    /** Deliveries of the job under successive outages, until one succeeds. Remaining work never grows, and one
        delivery that is not blocked is enough to complete the request with nothing left in scope. */
    method Retry(outages: seq<set<Key>>, now: int, ghost start: Db) returns (done: bool)
      requires Trying(start)
      modifies this`requests, this`tokens, this`deliveries, this`artifacts, this`events, this`objects
      ensures !done ==> forall i :: 0 <= i < |outages| ==> Blocked(start, grantId, outages[i])
      ensures if done then Finished() else Trying(start)
      decreases |outages|
    {
      if outages == [] { return false; }
      done := Attempt(outages[0], now, start);
      if !done {
        done := Retry(outages[1..], now, start);
        assert forall i :: 0 < i < |outages| ==> outages[i] == outages[1..][i - 1];
      }
    }

    method Attempt(broken: set<Key>, now: int, ghost start: Db) returns (done: bool)
      requires Trying(start)
      modifies this`requests, this`tokens, this`deliveries, this`artifacts, this`events, this`objects
      ensures if done then Finished() else Trying(start) && Blocked(start, grantId, broken)
    {
      ghost var before := Tables();
      var r, trail := Run(broken, now);
      done := r.Ok?;
      if !done {
        BlockedBefore(start, before, grantId, broken);
        ShrunkFurther(start, before, Tables(), grantId);
      }
    }

    ghost predicate Finished()
      reads this
    {
      grantId in requests && requests[grantId].status.Complete? && NothingLeft(Tables(), grantId)
    }

    // Still open, with no more to do than at the start.
    ghost predicate Trying(start: Db)
      reads this
    {
      Open() && Shrunk(start, Tables(), grantId) && Work(Tables(), grantId) <= Work(start, grantId)
    }

    // A run on a revoked grant whose request is still open.
    ghost predicate Open()
      reads this
    {
      grantId in revoked && revoked[grantId] && (grantId in requests ==> !requests[grantId].status.Complete?)
    }

    /** Everything between the claim and the final check. */
    method Undo(broken: set<Key>, now: int, ghost start: Db)
      returns (r: Result<Report, CascadeError>, ghost trail: seq<Event>)
      requires Tables() == ClaimTx(start, grantId, now) && grantId in revoked
      modifies this`tokens, this`deliveries, this`artifacts, this`events, this`objects
      ensures r.Err? ==> objects == old(objects) - LostKeys(start, artifacts)
      ensures r.Ok? ==> artifacts == Cleared(start, grantId) && objects == old(objects) - ScopeKeys(start, grantId)
      ensures Progress(start, Tables(), grantId, trail)
      ensures tokens == RevokeTokensTx(start, grantId).tokens && deliveries == CancelledIn(start, grantId)
      ensures r.Err? <==> Blocked(start, grantId, broken)
      ensures r.Err? ==> r.error.StorageFailed? && r.error.key in broken
      ensures r.Ok? ==> NothingLeft(Tables(), grantId) && Undone(start, grantId, trail)
      ensures r.Ok? ==> r.value == FullReport(start, grantId)
    {
      var tokenCount, cancelled, ds := RevokeAndCancel(now, start);
      var audio, models, made := DeleteDerived(broken, start, ds);
      trail := made;
      if audio.Err? { return Err(audio.error), trail; }
      if models.Err? { return Err(models.error), trail; }
      AllSwept(start, Tables(), grantId);
      return Ok(Report(tokenCount, cancelled, audio.value, models.value)), trail;
    }

    method RevokeAndCancel(now: int, ghost start: Db) returns (tokenCount: nat, cancelled: nat, ghost ds: seq<nat>)
      requires Tables() == ClaimTx(start, grantId, now)
      modifies this`tokens, this`deliveries, this`events
      ensures tokenCount == |LiveTokens(start, grantId)| && cancelled == |DueDeliveries(start, grantId)|
      ensures artifacts == start.artifacts && (forall k :: Live(Tables(), grantId, k) == Live(start, grantId, k))
      ensures LiveTokens(Tables(), grantId) == {} && DueDeliveries(Tables(), grantId) == {}
      ensures tokens == RevokeTokensTx(start, grantId).tokens && deliveries == CancelledIn(start, grantId)
      ensures events == start.events + CancelEvents(ds) && Lists(ds, DueDeliveries(start, grantId))
    {
      tokenCount := RevokeGrantTokens();
      cancelled, ds := CancelDeliveries();
      Prepared(start, grantId, now, ds);
      PreparedRows(start, grantId, now, ds);
    }

    /** Audio artifacts first, then voice models, stopping at the first object that cannot be deleted. */
    method DeleteDerived(broken: set<Key>, ghost start: Db, ghost ds: seq<nat>)
      returns (audio: Result<nat, CascadeError>, models: Result<nat, CascadeError>, ghost trail: seq<Event>)
      requires artifacts == start.artifacts && (forall k :: Live(Tables(), grantId, k) == Live(start, grantId, k))
      requires LiveTokens(Tables(), grantId) == {} && DueDeliveries(Tables(), grantId) == {}
      requires events == start.events + CancelEvents(ds) && Lists(ds, DueDeliveries(start, grantId))
      modifies this`artifacts, this`events, this`objects
      ensures Progress(start, Tables(), grantId, trail)
      ensures Swept(start, artifacts, grantId) && objects == old(objects) - LostKeys(start, artifacts)
      ensures audio.Err? || models.Err? <==> Blocked(start, grantId, broken)
      ensures audio.Err? ==> audio.error.StorageFailed? && audio.error.key in broken
      ensures models.Err? ==> models.error.StorageFailed? && models.error.key in broken
      ensures audio.Ok? && models.Ok? ==> NothingLeft(Tables(), grantId) && Undone(start, grantId, trail)
      ensures audio.Ok? && models.Ok? ==> audio.value == |Live(start, grantId, AudioArtifact)|
      ensures audio.Ok? && models.Ok? ==> models.value == |Live(start, grantId, VoiceModel)|
    {
      ghost var ready := Tables();
      ghost var as_, n;
      NothingSwept(start, grantId);
      audio, as_, n, trail := DeleteAudio(broken, start, ds);
      SweptMore(start, ready, grantId, AudioArtifact, as_, n);
      if audio.Err? {
        models := audio;
        return;
      }
      models, trail := ThenModels(broken, start, ds, as_, trail, old(objects));
    }

    method ThenModels(
        broken: set<Key>, ghost start: Db, ghost ds: seq<nat>, ghost as_: seq<nat>, ghost made: seq<Event>,
                      ghost stored: set<Key>)
      returns (models: Result<nat, CascadeError>, ghost trail: seq<Event>)
      requires Lists(ds, DueDeliveries(start, grantId)) && Lists(as_, Live(start, grantId, AudioArtifact))
      requires KeysOf(start, AudioArtifact, as_) !! broken
               && made == CancelEvents(ds) + DeleteEvents(start, AudioArtifact, as_)
      requires Progress(start, Tables(), grantId, made) && ModelsIntact(start, Tables(), grantId)
      requires Swept(start, artifacts, grantId) && objects == stored - LostKeys(start, artifacts)
      modifies this`artifacts, this`events, this`objects
      ensures Progress(start, Tables(), grantId, trail)
      ensures Swept(start, artifacts, grantId) && objects == stored - LostKeys(start, artifacts)
      ensures models.Err? <==> Blocked(start, grantId, broken)
      ensures models.Err? ==> models.error.StorageFailed? && models.error.key in broken
      ensures models.Ok? ==> NothingLeft(Tables(), grantId) && Undone(start, grantId, trail)
      ensures models.Ok? ==> models.value == |Live(start, grantId, VoiceModel)|
    {
      ghost var silent := Tables();
      ghost var ms, m;
      ghost var held := objects;
      models, ms, m, trail := DeleteModels(broken, start, made);
      SweptStored(start, silent, grantId, VoiceModel, ms, m, stored, held);
      if models.Ok? { ModelsDone(start, grantId, ds, as_, ms, broken); }
    }

    method DeleteAudio(broken: set<Key>, ghost start: Db, ghost ds: seq<nat>)
      returns (audio: Result<nat, CascadeError>, ghost as_: seq<nat>, ghost n: nat, ghost trail: seq<Event>)
      requires artifacts == start.artifacts && (forall k :: Live(Tables(), grantId, k) == Live(start, grantId, k))
      requires LiveTokens(Tables(), grantId) == {} && DueDeliveries(Tables(), grantId) == {}
      requires events == start.events + CancelEvents(ds)
      modifies this`artifacts, this`events, this`objects
      ensures Lists(as_, Live(start, grantId, AudioArtifact)) && n <= |as_|
      ensures Tables() == DeleteAll(old(Tables()), AudioArtifact, as_[..n])
      ensures objects == old(objects) - KeysOf(old(Tables()), AudioArtifact, as_[..n])
      ensures Progress(start, Tables(), grantId, trail)
      ensures audio.Err? ==> audio.error.StorageFailed? && audio.error.key in broken && Blocked(start, grantId, broken)
      ensures audio.Ok? ==> audio.value == |as_| && trail == CancelEvents(ds) + DeleteEvents(start, AudioArtifact, as_)
      ensures audio.Ok? ==> KeysOf(start, AudioArtifact, as_) !! broken && ModelsIntact(start, Tables(), grantId)
    {
      ghost var ready := Tables();
      audio, as_, n := DeleteArtifacts(AudioArtifact, broken);
      AudioPart(start, ready, grantId, ds, as_, n);
      trail := CancelEvents(ds) + DeleteEvents(start, AudioArtifact, as_[..n]);
      if audio.Err? {
        StoppedIsBlocked(ready, start, grantId, AudioArtifact, as_, n, broken);
      } else {
        assert as_[..n] == as_;
        SameKeys(ready, start, AudioArtifact, as_);
        forall id { ModelsUntouched(start, ready, as_, id); }
      }
    }

    method DeleteModels(broken: set<Key>, ghost start: Db, ghost before: seq<Event>)
      returns (models: Result<nat, CascadeError>, ghost ms: seq<nat>, ghost m: nat, ghost trail: seq<Event>)
      requires Progress(start, Tables(), grantId, before) && ModelsIntact(start, Tables(), grantId)
      modifies this`artifacts, this`events, this`objects
      ensures Lists(ms, Live(start, grantId, VoiceModel)) && m <= |ms|
      ensures Tables() == DeleteAll(old(Tables()), VoiceModel, ms[..m])
      ensures objects == old(objects) - KeysOf(old(Tables()), VoiceModel, ms[..m])
      ensures Progress(start, Tables(), grantId, trail)
      ensures models.Err? ==>
                models.error.StorageFailed? && models.error.key in broken && Blocked(start, grantId, broken)
      ensures models.Ok? ==> models.value == |ms| && NothingLeft(Tables(), grantId)
      ensures models.Ok? ==> trail == before + DeleteEvents(start, VoiceModel, ms)
      ensures models.Ok? ==> KeysOf(start, VoiceModel, ms) !! broken
    {
      ghost var silent := Tables();
      models, ms, m := DeleteArtifacts(VoiceModel, broken);
      ModelPart(start, silent, grantId, before, ms, m);
      trail := before + DeleteEvents(start, VoiceModel, ms[..m]);
      if models.Err? {
        StoppedIsBlocked(silent, start, grantId, VoiceModel, ms, m, broken);
      } else {
        assert ms[..m] == ms;
        SameKeys(silent, start, VoiceModel, ms);
      }
    }
  }

  // The audio is gone and the voice models are as they were at the start.
  ghost predicate ModelsIntact(start: Db, now: Db, g: GrantId) {
    && Live(now, g, AudioArtifact) == {} && Live(now, g, VoiceModel) == Live(start, g, VoiceModel)
    && (forall id :: KeyOf(now, Ref(VoiceModel, id)) == KeyOf(start, Ref(VoiceModel, id)))
    && (forall id :: DeleteEvent(now, Ref(VoiceModel, id)) == DeleteEvent(start, Ref(VoiceModel, id)))
  }

  // ---- objects ----

  /** The keys of the rows that have been tombstoned since. */
  function LostKeys(start: Db, now: map<Ref, Artifact>): set<Key> {
    set r | && r in start.artifacts && r in now && !start.artifacts[r].deleted && now[r].deleted
            && start.artifacts[r].key.Some? ::
      start.artifacts[r].key.value
  }

  /** Only live artifacts in the grant's scope were touched, and those were tombstoned. */
  ghost predicate Swept(start: Db, now: map<Ref, Artifact>, g: GrantId) {
    && start.artifacts.Keys == now.Keys
    && forall r :: r in start.artifacts ==>
         || now[r] == start.artifacts[r]
         || (&& InScope(start, g, r) && !start.artifacts[r].deleted
             && now[r] == start.artifacts[r].(key := None, deleted := true))
  }

  // The audit log of a complete run: what it undid, then its completion.
  ghost predicate Told(events: seq<Event>, start: Db, trail: seq<Event>, e: Event) {
    events == start.events + trail + [e]
  }

  /** The artifact rows once everything in a grant's scope is tombstoned. */
  function Cleared(db: Db, g: GrantId): map<Ref, Artifact> {
    map r | r in db.artifacts ::
      if InScope(db, g, r) && !db.artifacts[r].deleted then db.artifacts[r].(key := None, deleted := true)
      else db.artifacts[r]
  }

  /** What a complete run leaves of the tables and the objects, column by column. */
  ghost predicate Accomplished(before: Db, after: Db, stored: set<Key>, left: set<Key>, g: GrantId) {
    NothingLive(after, g) && OnlyUndone(before, after, g) && OnlyTheirObjectsGone(before, stored, left, g)
  }

  lemma Accomplishes(before: Db, after: Db, stored: set<Key>, left: set<Key>, g: GrantId)
    requires after.tokens == RevokeTokensTx(before, g).tokens && after.deliveries == CancelledIn(before, g)
    requires after.artifacts == Cleared(before, g) && left == stored - ScopeKeys(before, g) && NothingLeft(after, g)
    ensures Accomplished(before, after, stored, left, g)
  {
    NothingLeftMeaning(after, g);
    ClearedMeaning(before, after, g);
    forall r | r in before.artifacts ensures InScope(before, g, r) <==> ArtifactOf(before, g, r) {
      ScopeMeaning(before, g, r);
    }
    forall k ensures k in ScopeKeys(before, g) <==> HasLiveObject(before, g, k) {}
  }

  lemma ClearedMeaning(before: Db, after: Db, g: GrantId)
    requires after.tokens == RevokeTokensTx(before, g).tokens && after.deliveries == CancelledIn(before, g)
    requires after.artifacts == Cleared(before, g)
    ensures OnlyUndone(before, after, g)
  {
    forall r | r in before.artifacts ensures InScope(before, g, r) <==> ArtifactOf(before, g, r) {
      ScopeMeaning(before, g, r);
    }
    forall d | d in before.deliveries ensures DeliveryInScope(before, g, d) <==> DeliveryOf(before, g, d) {
      DeliveryScopeMeaning(before, g, d);
    }
  }

  lemma NothingSwept(start: Db, g: GrantId)
    ensures Swept(start, start.artifacts, g) && LostKeys(start, start.artifacts) == {}
  {
  }

  lemma {:induction false} KeysOfMeaning(db: Db, kind: Kind, ids: seq<nat>, k: Key)
    ensures k in KeysOf(db, kind, ids) <==> exists id :: id in ids && k in KeyOf(db, Ref(kind, id))
  {
    if ids != [] {
      var front, last := ids[..|ids| - 1], ids[|ids| - 1];
      KeysOfMeaning(db, kind, front, k);
      assert forall id :: id in ids <==> id in front || id == last;
    }
  }

  // Deleting a prefix of the listed artifacts sweeps them and loses exactly their keys.
  lemma SweptMore(start: Db, db: Db, g: GrantId, kind: Kind, ids: seq<nat>, n: nat)
    requires Swept(start, db.artifacts, g) && Lists(ids, Live(db, g, kind)) && n <= |ids|
    ensures var db' := DeleteAll(db, kind, ids[..n]);
            Swept(start, db'.artifacts, g)
            && LostKeys(start, db'.artifacts) == LostKeys(start, db.artifacts) + KeysOf(db, kind, ids[..n])
  {
    var front, db' := ids[..n], DeleteAll(db, kind, ids[..n]);
    assert forall id :: id in front ==> id in ids;
    LiveMeaning(db, g, kind);
    SweptRows(start, db, g, kind, front);
    forall k
      ensures k in LostKeys(start, db'.artifacts) <==> k in LostKeys(start, db.artifacts) + KeysOf(db, kind, front)
    {
      SweptKey(start, db, g, kind, front, k);
    }
  }

  lemma SweptStored(start: Db, db: Db, g: GrantId, kind: Kind, ids: seq<nat>, n: nat, stored: set<Key>, held: set<Key>)
    requires Swept(start, db.artifacts, g) && Lists(ids, Live(db, g, kind)) && n <= |ids|
    requires held == stored - LostKeys(start, db.artifacts)
    ensures Swept(start, DeleteAll(db, kind, ids[..n]).artifacts, g)
    ensures held - KeysOf(db, kind, ids[..n]) == stored - LostKeys(start, DeleteAll(db, kind, ids[..n]).artifacts)
  {
    SweptMore(start, db, g, kind, ids, n);
  }

  lemma ModelsDone(start: Db, g: GrantId, ds: seq<nat>, as_: seq<nat>, ms: seq<nat>, broken: set<Key>)
    requires Lists(ds, DueDeliveries(start, g))
    requires Lists(as_, Live(start, g, AudioArtifact)) && KeysOf(start, AudioArtifact, as_) !! broken
    requires Lists(ms, Live(start, g, VoiceModel)) && KeysOf(start, VoiceModel, ms) !! broken
    ensures !Blocked(start, g, broken)
    ensures Undone(start, g,
                   CancelEvents(ds) + DeleteEvents(start, AudioArtifact, as_) + DeleteEvents(start, VoiceModel, ms))
  {
    NotBlocked(start, g, as_, ms, broken);
    UndoneBy(start, g, ds, as_, ms);
  }

  ghost predicate LiveIds(db: Db, g: GrantId, kind: Kind, ids: seq<nat>) {
    forall id :: id in ids ==>
      Ref(kind, id) in db.artifacts && InScope(db, g, Ref(kind, id)) && !db.artifacts[Ref(kind, id)].deleted
  }

  lemma SweptRows(start: Db, db: Db, g: GrantId, kind: Kind, ids: seq<nat>)
    requires Swept(start, db.artifacts, g) && LiveIds(db, g, kind, ids)
    ensures Swept(start, DeleteAll(db, kind, ids).artifacts, g)
  {
    var db' := DeleteAll(db, kind, ids);
    forall r ensures r in start.artifacts <==> r in db'.artifacts { DeleteAllRow(db, kind, ids, r); }
    assert SameLinks(start, db);
    forall r | r in start.artifacts && db'.artifacts[r] != start.artifacts[r]
      ensures InScope(start, g, r) && !start.artifacts[r].deleted
      ensures db'.artifacts[r] == start.artifacts[r].(key := None, deleted := true)
    {
      DeleteAllRow(db, kind, ids, r);
      ScopeFollowsLinks(start, db, g, r);
    }
  }

  lemma SweptKey(start: Db, db: Db, g: GrantId, kind: Kind, ids: seq<nat>, k: Key)
    requires Swept(start, db.artifacts, g) && LiveIds(db, g, kind, ids)
    ensures k in LostKeys(start, DeleteAll(db, kind, ids).artifacts) <==>
              k in LostKeys(start, db.artifacts) || k in KeysOf(db, kind, ids)
  {
    var db' := DeleteAll(db, kind, ids);
    KeysOfMeaning(db, kind, ids, k);
    forall r ensures r in db.artifacts ==> r in db'.artifacts && (db'.artifacts[r].deleted <==>
                       db.artifacts[r].deleted || (r.kind == kind && r.id in ids))
    {
      DeleteAllRow(db, kind, ids, r);
    }
    if k in KeysOf(db, kind, ids) {
      var id :| id in ids && k in KeyOf(db, Ref(kind, id));
      assert Ref(kind, id) in start.artifacts;
    }
    if r :| r in start.artifacts && !start.artifacts[r].deleted && r in db'.artifacts && db'.artifacts[r].deleted
            && start.artifacts[r].key == Some(k) {
      if !db.artifacts[r].deleted { assert r == Ref(kind, r.id) && k in KeyOf(db, r); }
    }
  }

  /** When nothing is left, every in-scope object is gone and no other. */
  lemma AllSwept(start: Db, now: Db, g: GrantId)
    requires Swept(start, now.artifacts, g) && NothingLeft(now, g)
    ensures LostKeys(start, now.artifacts) == ScopeKeys(start, g) && now.artifacts == Cleared(start, g)
  {
    forall r | r in start.artifacts && InScope(start, g, r) && !start.artifacts[r].deleted
      ensures now.artifacts[r].deleted
    {
      ScopeFollowsLinks(start, now, g, r);
      LiveMeaning(now, g, r.kind);
      assert r == Ref(r.kind, r.id);
      assert r.id !in Live(now, g, AudioArtifact) && r.id !in Live(now, g, VoiceModel);
    }
  }

  lemma {:induction false} SameKeys(a: Db, b: Db, kind: Kind, ids: seq<nat>)
    requires forall id :: KeyOf(a, Ref(kind, id)) == KeyOf(b, Ref(kind, id))
    ensures KeysOf(a, kind, ids) == KeysOf(b, kind, ids)
  {
    if ids != [] { SameKeys(a, b, kind, ids[..|ids| - 1]); }
  }

  lemma ProgressSame(start: Db, a: Db, b: Db, g: GrantId, trail: seq<Event>)
    requires Progress(start, a, g, trail) && b == a.(requests := b.requests)
    requires LiveTokens(b, g) == LiveTokens(a, g) && DueDeliveries(b, g) == DueDeliveries(a, g)
    requires forall k :: Live(b, g, k) == Live(a, g, k)
    ensures Progress(start, b, g, trail)
  {
  }

  lemma ShrunkFurther(a: Db, b: Db, c: Db, g: GrantId)
    requires (a == b || Shrunk(a, b, g)) && (b == c || Shrunk(b, c, g))
    ensures Shrunk(a, c, g)
  {
  }

  lemma BlockedBefore(start: Db, now: Db, g: GrantId, broken: set<Key>)
    requires Shrunk(start, now, g) && Blocked(now, g, broken)
    ensures Blocked(start, g, broken)
  {
    var k :| k in ScopeKeys(now, g) * broken;
    var kind, id := ScopeKeyFrom(now, g, k);
    ScopeKeyOf(start, g, kind, id);
    assert k in ScopeKeys(start, g) * broken;
  }

  function FullReport(db: Db, g: GrantId): Report {
    Report(|LiveTokens(db, g)|, |DueDeliveries(db, g)|, |Live(db, g, AudioArtifact)|, |Live(db, g, VoiceModel)|)
  }

  // How far a run got: never backwards, with every token and delivery done.
  ghost predicate Progress(start: Db, now: Db, g: GrantId, trail: seq<Event>) {
    && now.events == start.events + trail && Shrunk(start, now, g)
    && LiveTokens(now, g) == {} && DueDeliveries(now, g) == {}
    && Work(now, g) <= Work(start, g)
    && (LiveTokens(start, g) != {} || DueDeliveries(start, g) != {} ==> Work(now, g) < Work(start, g))
  }

  // A complete run's audit trail: one event per due delivery, live audio artifact and live model, in id order.
  ghost predicate Undone(start: Db, g: GrantId, trail: seq<Event>) {
    exists ds, as_, ms {:trigger CancelEvents(ds), DeleteEvents(start, AudioArtifact, as_),
                        DeleteEvents(start, VoiceModel, ms)} ::
      && Lists(ds, DueDeliveries(start, g)) && Lists(as_, Live(start, g, AudioArtifact))
      && Lists(ms, Live(start, g, VoiceModel))
      && trail == CancelEvents(ds) + DeleteEvents(start, AudioArtifact, as_) + DeleteEvents(start, VoiceModel, ms)
  }

  lemma UndoneBy(start: Db, g: GrantId, ds: seq<nat>, as_: seq<nat>, ms: seq<nat>)
    requires Lists(ds, DueDeliveries(start, g)) && Lists(as_, Live(start, g, AudioArtifact))
             && Lists(ms, Live(start, g, VoiceModel))
    ensures Undone(start, g,
                   CancelEvents(ds) + DeleteEvents(start, AudioArtifact, as_) + DeleteEvents(start, VoiceModel, ms))
  {
  }

  lemma ProgressBy(start: Db, now: Db, g: GrantId, trail: seq<Event>)
    requires now.events == start.events + trail && Shrunk(start, now, g)
    requires LiveTokens(now, g) == {} && DueDeliveries(now, g) == {}
    requires forall k :: |Live(now, g, k)| <= |Live(start, g, k)|
    ensures Progress(start, now, g, trail)
  {
  }

  // A prefix of one kind's deletions keeps a run's progress.
  lemma DeletedProgress(start: Db, db: Db, g: GrantId, trail: seq<Event>, kind: Kind, ids: seq<nat>, n: nat)
    requires Progress(start, db, g, trail) && (forall k :: |Live(db, g, k)| <= |Live(start, g, k)|)
    requires Lists(ids, Live(db, g, kind)) && n <= |ids|
    requires forall id :: DeleteEvent(db, Ref(kind, id)) == DeleteEvent(start, Ref(kind, id))
    ensures Progress(start, DeleteAll(db, kind, ids[..n]), g, trail + DeleteEvents(start, kind, ids[..n]))
  {
    var db' := DeleteAll(db, kind, ids[..n]);
    DeletedScope(db, kind, ids, n, g);
    DeletedShrinks(db, kind, ids, n, g);
    DeletedTrail(start, db, kind, ids, n, g, trail);
    ShrunkFurther(start, db, db', g);
    forall k ensures |Live(db', g, k)| <= |Live(start, g, k)| {
      assert k == kind ==> |Live(db', g, k)| == |ids| - n;
    }
    ProgressBy(start, db', g, trail + DeleteEvents(start, kind, ids[..n]));
  }

  lemma AudioPart(start: Db, ready: Db, g: GrantId, ds: seq<nat>, ids: seq<nat>, n: nat)
    requires ready.artifacts == start.artifacts && (forall k :: Live(ready, g, k) == Live(start, g, k))
    requires LiveTokens(ready, g) == {} && DueDeliveries(ready, g) == {}
             && ready.events == start.events + CancelEvents(ds)
    requires Lists(ids, Live(ready, g, AudioArtifact)) && n <= |ids|
    ensures Shrunk(start, ready, g)
    ensures var db' := DeleteAll(ready, AudioArtifact, ids[..n]);
            && Progress(start, db', g, CancelEvents(ds) + DeleteEvents(start, AudioArtifact, ids[..n]))
            && (n == |ids| ==> Live(db', g, AudioArtifact) == {})
            && Live(db', g, VoiceModel) == Live(start, g, VoiceModel)
  {
    ProgressBy(start, ready, g, CancelEvents(ds));
    DeletedProgress(start, ready, g, CancelEvents(ds), AudioArtifact, ids, n);
    DeletedScope(ready, AudioArtifact, ids, n, g);
  }

  // Deleting audio leaves the models' rows alone.
  lemma ModelsUntouched(start: Db, ready: Db, ids: seq<nat>, id: nat)
    requires ready.artifacts == start.artifacts
    ensures var db', r := DeleteAll(ready, AudioArtifact, ids), Ref(VoiceModel, id);
            KeyOf(db', r) == KeyOf(start, r) && DeleteEvent(db', r) == DeleteEvent(start, r)
  {
  }

  lemma SameDeleteEvents(a: Db, b: Db, kind: Kind, ids: seq<nat>)
    requires forall id :: id in ids ==> DeleteEvent(a, Ref(kind, id)) == DeleteEvent(b, Ref(kind, id))
    ensures DeleteEvents(a, kind, ids) == DeleteEvents(b, kind, ids)
  {
  }

  lemma ModelPart(start: Db, silent: Db, g: GrantId, trail: seq<Event>, ids: seq<nat>, n: nat)
    requires Progress(start, silent, g, trail) && Live(silent, g, AudioArtifact) == {}
             && Live(silent, g, VoiceModel) == Live(start, g, VoiceModel)
    requires Lists(ids, Live(silent, g, VoiceModel)) && n <= |ids|
    requires forall id :: DeleteEvent(silent, Ref(VoiceModel, id)) == DeleteEvent(start, Ref(VoiceModel, id))
    ensures Progress(start, DeleteAll(silent, VoiceModel, ids[..n]), g,
                     trail + DeleteEvents(start, VoiceModel, ids[..n]))
    ensures n == |ids| ==> NothingLeft(DeleteAll(silent, VoiceModel, ids[..n]), g)
  {
    forall k ensures |Live(silent, g, k)| <= |Live(start, g, k)| { assert k == AudioArtifact || k == VoiceModel; }
    DeletedProgress(start, silent, g, trail, VoiceModel, ids, n);
    DeletedScope(silent, VoiceModel, ids, n, g);
  }

  lemma StoppedIsBlocked(db: Db, start: Db, g: GrantId, kind: Kind, ids: seq<nat>, n: nat, broken: set<Key>)
    requires Lists(ids, Live(db, g, kind)) && n < |ids| && KeyOf(db, Ref(kind, ids[n])) * broken != {}
    requires Shrunk(start, db, g)
    ensures Blocked(start, g, broken)
  {
    assert ids[n] in ids;
    ScopeKeyOf(start, g, kind, ids[n]);
    var k :| k in KeyOf(db, Ref(kind, ids[n])) * broken;
    assert k in ScopeKeys(start, g) * broken;
  }

  lemma NotBlocked(start: Db, g: GrantId, as_: seq<nat>, ms: seq<nat>, broken: set<Key>)
    requires Lists(as_, Live(start, g, AudioArtifact)) && KeysOf(start, AudioArtifact, as_) !! broken
    requires Lists(ms, Live(start, g, VoiceModel)) && KeysOf(start, VoiceModel, ms) !! broken
    ensures !Blocked(start, g, broken)
  {
    forall k | k in ScopeKeys(start, g) ensures k !in broken {
      var kind, id := ScopeKeyFrom(start, g, k);
      KeysInclude(start, kind, if kind == AudioArtifact then as_ else ms, id);
    }
  }

  lemma {:induction false} KeysInclude(db: Db, kind: Kind, ids: seq<nat>, id: nat)
    requires id in ids
    ensures KeyOf(db, Ref(kind, id)) <= KeysOf(db, kind, ids)
  {
    if id != ids[|ids| - 1] { KeysInclude(db, kind, ids[..|ids| - 1], id); }
  }
}
