/** The tables a revocation cascade works on, what is in a grant's scope, and the cascade's transactions
    (remembrance-consent/app/consent/cascade.py). */
module CascadeStore {
  import opened Wrappers

  type GrantId = nat
  type Key = nat

  datatype Kind = AudioArtifact | VoiceModel

  datatype Ref = Ref(kind: Kind, id: nat)

  // `model` is the voice model an audio artifact was made from; a tombstoned row has no key.
  datatype Artifact = Artifact(grant: GrantId, model: Option<nat>, key: Option<Key>, deleted: bool)

  datatype DeliveryStatus = Scheduled | Sent | Cancelled | Failed

  datatype Delivery = Delivery(grant: GrantId, audio: Option<nat>, status: DeliveryStatus)

  datatype Token = Token(grant: Option<GrantId>, revoked: bool)

  datatype RequestStatus = Pending | Processing | Complete

  datatype Request = Request(status: RequestStatus, attempts: nat, failed: bool, updatedAt: int)

  datatype Report = Report(tokens: nat, deliveries: nat, audio: nat, models: nat)

  datatype Event =
    | ModelDeleted(ref: Ref, key: Option<Key>)
    | DeliveryCancelled(id: nat)
    | CascadeCompleted(grant: GrantId, attempts: nat, report: Report)

  // `revoked` holds one entry per consent grant.
  datatype Db = Db(
    revoked: map<GrantId, bool>, requests: map<GrantId, Request>, tokens: map<nat, Token>,
    deliveries: map<nat, Delivery>, artifacts: map<Ref, Artifact>, events: seq<Event>)

  // ---- Scope: what a grant's revocation must undo ----

  predicate InScope(db: Db, g: GrantId, r: Ref)
    requires r in db.artifacts
  {
    || db.artifacts[r].grant == g
    || (r.kind.AudioArtifact? && db.artifacts[r].model.Some?
        && var m := Ref(VoiceModel, db.artifacts[r].model.value); m in db.artifacts && db.artifacts[m].grant == g)
  }

  predicate DeliveryInScope(db: Db, g: GrantId, d: nat)
    requires d in db.deliveries
  {
    || db.deliveries[d].grant == g
    || (db.deliveries[d].audio.Some?
        && var a := Ref(AudioArtifact, db.deliveries[d].audio.value); a in db.artifacts && InScope(db, g, a))
  }

  function LiveTokens(db: Db, g: GrantId): set<nat> {
    set t | t in db.tokens && db.tokens[t].grant == Some(g) && !db.tokens[t].revoked
  }

  function DueDeliveries(db: Db, g: GrantId): set<nat> {
    set d | d in db.deliveries && DeliveryInScope(db, g, d) && db.deliveries[d].status.Scheduled?
  }

  function Live(db: Db, g: GrantId, kind: Kind): set<nat> {
    set r | r in db.artifacts && r.kind == kind && InScope(db, g, r) && !db.artifacts[r].deleted :: r.id
  }

  predicate NothingLeft(db: Db, g: GrantId) {
    LiveTokens(db, g) == {} && DueDeliveries(db, g) == {} && Live(db, g, AudioArtifact) == {}
    && Live(db, g, VoiceModel) == {}
  }

  function Work(db: Db, g: GrantId): nat {
    |LiveTokens(db, g)| + |DueDeliveries(db, g)| + |Live(db, g, AudioArtifact)| + |Live(db, g, VoiceModel)|
  }

  // ---- The same by the tables' columns alone ----

  /** An audio artifact made from a voice model of the grant, whatever grant it is tagged with. */
  ghost predicate MadeFromModelOf(db: Db, g: GrantId, r: Ref)
    requires r in db.artifacts
  {
    && r.kind == AudioArtifact
    && exists m: nat :: && db.artifacts[r].model == Some(m) && Ref(VoiceModel, m) in db.artifacts
                        && db.artifacts[Ref(VoiceModel, m)].grant == g
  }

  ghost predicate ArtifactOf(db: Db, g: GrantId, r: Ref) {
    r in db.artifacts && (db.artifacts[r].grant == g || MadeFromModelOf(db, g, r))
  }

  ghost predicate DeliveryOf(db: Db, g: GrantId, d: nat) {
    && d in db.deliveries
    && (|| db.deliveries[d].grant == g
        || exists a: nat :: db.deliveries[d].audio == Some(a) && ArtifactOf(db, g, Ref(AudioArtifact, a)))
  }

  ghost predicate TokenOf(db: Db, g: GrantId, t: nat) {
    t in db.tokens && db.tokens[t].grant == Some(g)
  }

  /** No token, delivery or artifact of the grant is live. */
  ghost predicate NothingLive(db: Db, g: GrantId) {
    && (forall t :: TokenOf(db, g, t) ==> db.tokens[t].revoked)
    && (forall d :: DeliveryOf(db, g, d) ==> db.deliveries[d].status != Scheduled)
    && (forall r :: ArtifactOf(db, g, r) ==> db.artifacts[r].deleted)
  }

  /** Tokens, deliveries and artifacts after a grant's live ones are undone, all others being as they were. */
  ghost predicate OnlyUndone(before: Db, after: Db, g: GrantId) {
    && after.tokens.Keys == before.tokens.Keys && after.deliveries.Keys == before.deliveries.Keys
    && after.artifacts.Keys == before.artifacts.Keys
    && (forall t :: t in before.tokens ==>
          after.tokens[t] == if TokenOf(before, g, t) then before.tokens[t].(revoked := true) else before.tokens[t])
    && (forall d :: d in before.deliveries ==>
          after.deliveries[d] == if DeliveryOf(before, g, d) && before.deliveries[d].status == Scheduled
                                 then before.deliveries[d].(status := Cancelled) else before.deliveries[d])
    && (forall r :: r in before.artifacts ==>
          after.artifacts[r] == if ArtifactOf(before, g, r) && !before.artifacts[r].deleted
                                then before.artifacts[r].(key := None, deleted := true) else before.artifacts[r])
  }

  /** Of the stored objects exactly those of the grant's live artifacts are gone. */
  ghost predicate OnlyTheirObjectsGone(before: Db, stored: set<Key>, left: set<Key>, g: GrantId) {
    forall k :: k in left <==> k in stored && !HasLiveObject(before, g, k)
  }

  ghost predicate HasLiveObject(db: Db, g: GrantId, k: Key) {
    exists r :: ArtifactOf(db, g, r) && !db.artifacts[r].deleted && db.artifacts[r].key == Some(k)
  }

  lemma ScopeMeaning(db: Db, g: GrantId, r: Ref)
    requires r in db.artifacts
    ensures InScope(db, g, r) <==> ArtifactOf(db, g, r)
  {
  }

  lemma DeliveryScopeMeaning(db: Db, g: GrantId, d: nat)
    requires d in db.deliveries
    ensures DeliveryInScope(db, g, d) <==> DeliveryOf(db, g, d)
  {
    if db.deliveries[d].audio.Some? && Ref(AudioArtifact, db.deliveries[d].audio.value) in db.artifacts {
      ScopeMeaning(db, g, Ref(AudioArtifact, db.deliveries[d].audio.value));
    }
  }

  lemma NothingLeftMeaning(db: Db, g: GrantId)
    ensures NothingLeft(db, g) <==> NothingLive(db, g)
  {
    LiveMeaning(db, g, AudioArtifact);
    LiveMeaning(db, g, VoiceModel);
    forall r | r in db.artifacts
      ensures InScope(db, g, r) <==> ArtifactOf(db, g, r)
      ensures r == Ref(r.kind, r.id)
    {
      ScopeMeaning(db, g, r);
    }
    forall d | d in db.deliveries ensures DeliveryInScope(db, g, d) <==> DeliveryOf(db, g, d) {
      DeliveryScopeMeaning(db, g, d);
    }
    if NothingLeft(db, g) { LeftMakesLive(db, g); }
    if NothingLive(db, g) { LiveMakesLeft(db, g); }
  }

  lemma LeftMakesLive(db: Db, g: GrantId)
    requires NothingLeft(db, g)
    requires forall r :: r in db.artifacts ==> (InScope(db, g, r) <==> ArtifactOf(db, g, r))
    requires forall d :: d in db.deliveries ==> (DeliveryInScope(db, g, d) <==> DeliveryOf(db, g, d))
    ensures NothingLive(db, g)
  {
    forall r | ArtifactOf(db, g, r)
      ensures db.artifacts[r].deleted
    {
      assert r.id !in Live(db, g, r.kind) && r == Ref(r.kind, r.id);
    }
    forall d | DeliveryOf(db, g, d) ensures db.deliveries[d].status != Scheduled { assert d !in DueDeliveries(db, g); }
    forall t | TokenOf(db, g, t) ensures db.tokens[t].revoked { assert t !in LiveTokens(db, g); }
  }

  lemma LiveMakesLeft(db: Db, g: GrantId)
    requires NothingLive(db, g)
    requires forall r :: r in db.artifacts ==> (InScope(db, g, r) <==> ArtifactOf(db, g, r))
    requires forall d :: d in db.deliveries ==> (DeliveryInScope(db, g, d) <==> DeliveryOf(db, g, d))
    ensures NothingLeft(db, g)
  {
    LiveMeaning(db, g, AudioArtifact);
    LiveMeaning(db, g, VoiceModel);
    assert forall t :: t in LiveTokens(db, g) ==> TokenOf(db, g, t);
    assert forall d :: d in DueDeliveries(db, g) ==> DeliveryOf(db, g, d);
    assert forall id :: id in Live(db, g, AudioArtifact) ==> ArtifactOf(db, g, Ref(AudioArtifact, id));
    assert forall id :: id in Live(db, g, VoiceModel) ==> ArtifactOf(db, g, Ref(VoiceModel, id));
  }

  // ---- Transactions ----

  function ClaimTx(db: Db, g: GrantId, now: int): Db {
    var request := if g in db.requests then db.requests[g] else Request(Pending, 0, false, now);
    db.(requests := db.requests[g := if request.status.Complete? then request
                                     else Request(Processing, request.attempts + 1, false, now)])
  }

  function RevokeTokensTx(db: Db, g: GrantId): Db {
    db.(tokens := map t | t in db.tokens ::
        if t in LiveTokens(db, g) then db.tokens[t].(revoked := true) else db.tokens[t])
  }

  function CancelTx(db: Db, d: nat): Db {
    if d in db.deliveries && db.deliveries[d].status.Scheduled? then
      db.(deliveries := db.deliveries[d := db.deliveries[d].(status := Cancelled)],
          events := db.events + [DeliveryCancelled(d)])
    else db
  }

  function TombstoneTx(db: Db, r: Ref): Db {
    if r in db.artifacts && !db.artifacts[r].deleted then
      db.(artifacts := db.artifacts[r := db.artifacts[r].(key := None, deleted := true)],
          events := db.events + [ModelDeleted(r, db.artifacts[r].key)])
    else db
  }

  function CompleteTx(db: Db, g: GrantId, report: Report, now: int): Db
    requires g in db.requests
  {
    var request := db.requests[g];
    db.(requests := db.requests[g := request.(status := Complete, updatedAt := now)],
        events := db.events + [CascadeCompleted(g, request.attempts, report)])
  }

  function FailureTx(db: Db, g: GrantId, now: int): Db {
    if g in db.requests && !db.requests[g].status.Complete? then
      db.(requests := db.requests[g := db.requests[g].(failed := true, updatedAt := now)])
    else db
  }

  // ---- What the transactions do to the remaining work ----

  // Tombstoning, cancelling and revoking change neither grants nor the links between rows.
  ghost predicate SameLinks(a: Db, b: Db) {
    && a.artifacts.Keys == b.artifacts.Keys
    && forall r :: r in a.artifacts ==>
      a.artifacts[r].grant == b.artifacts[r].grant && a.artifacts[r].model == b.artifacts[r].model
  }

  lemma ScopeFollowsLinks(a: Db, b: Db, g: GrantId, r: Ref)
    requires SameLinks(a, b) && r in a.artifacts
    ensures InScope(a, g, r) == InScope(b, g, r)
  {
  }

  lemma DueFollowsLinks(a: Db, b: Db, g: GrantId)
    requires SameLinks(a, b) && a.deliveries == b.deliveries
    ensures DueDeliveries(a, g) == DueDeliveries(b, g)
  {
  }

  lemma TombstoneLive(db: Db, r: Ref, g: GrantId, kind: Kind)
    requires r in db.artifacts
    ensures Live(TombstoneTx(db, r), g, kind) ==
              if kind == r.kind then Live(db, g, kind) - {r.id} else Live(db, g, kind)
  {
    forall id ensures id in Live(TombstoneTx(db, r), g, kind) <==> id in Live(db, g, kind) && Ref(kind, id) != r {
      TombstoneLiveAt(db, r, g, kind, id);
    }
  }

  lemma TombstoneLiveAt(db: Db, r: Ref, g: GrantId, kind: Kind, id: nat)
    requires r in db.artifacts
    ensures id in Live(TombstoneTx(db, r), g, kind) <==> id in Live(db, g, kind) && Ref(kind, id) != r
  {
    LiveMeaning(db, g, kind);
    LiveMeaning(TombstoneTx(db, r), g, kind);
    if Ref(kind, id) in db.artifacts { ScopeFollowsLinks(db, TombstoneTx(db, r), g, Ref(kind, id)); }
  }

  lemma TombstoneScope(db: Db, r: Ref, g: GrantId)
    requires r in db.artifacts
    ensures var db' := TombstoneTx(db, r);
            && SameLinks(db, db')
            && DueDeliveries(db', g) == DueDeliveries(db, g)
            && LiveTokens(db', g) == LiveTokens(db, g)
            && (forall kind ::
                Live(db', g, kind) == if kind == r.kind then Live(db, g, kind) - {r.id} else Live(db, g, kind))
  {
    DueFollowsLinks(db, TombstoneTx(db, r), g);
    forall kind { TombstoneLive(db, r, g, kind); }
  }

  lemma LiveMeaning(db: Db, g: GrantId, kind: Kind)
    ensures forall id :: id in Live(db, g, kind) <==>
      Ref(kind, id) in db.artifacts && InScope(db, g, Ref(kind, id)) && !db.artifacts[Ref(kind, id)].deleted
  {
  }

  lemma CancelScope(db: Db, d: nat, g: GrantId)
    ensures var db' := CancelTx(db, d);
            && DueDeliveries(db', g) == DueDeliveries(db, g) - {d}
            && LiveTokens(db', g) == LiveTokens(db, g)
            && forall kind :: Live(db', g, kind) == Live(db, g, kind)
  {
  }

  lemma SameArtifacts(a: Db, b: Db, g: GrantId, kind: Kind)
    requires a.artifacts == b.artifacts
    ensures Live(a, g, kind) == Live(b, g, kind)
  {
  }

  lemma RequestWriteScope(db: Db, db': Db, g: GrantId)
    requires db' == db.(requests := db'.requests, events := db'.events)
    ensures LiveTokens(db', g) == LiveTokens(db, g) && DueDeliveries(db', g) == DueDeliveries(db, g)
    ensures forall kind :: Live(db', g, kind) == Live(db, g, kind)
  {
  }

  lemma RevokeTokensScope(db: Db, g: GrantId, h: GrantId)
    ensures var db' := RevokeTokensTx(db, g);
            && LiveTokens(db', h) == (if g == h then {} else LiveTokens(db, h))
            && DueDeliveries(db', h) == DueDeliveries(db, h)
            && forall kind :: Live(db', h, kind) == Live(db, h, kind)
  {
  }
}
