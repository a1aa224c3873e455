/** Any number of cascade runs, for any grants, interleaved with each other and with the writers that add tokens,
    deliveries and artifacts. A run moves through the statements of cascade.py one at a time; it can stop at any
    point, also between deleting an object and committing its row. */
module CascadeRuns {
  import opened Wrappers
  import opened CascadeStore

  type RunId = nat

  // The ids each table held when `finish` counted it; the four counts are separate statements.
  datatype Counted = Counted(tokens: Option<set<nat>>, deliveries: Option<set<nat>>, audio: Option<set<nat>>,
      models: Option<set<nat>>)

  datatype Pc =
    | Claimed
    | TokensRevoked
    | Cancelling(todo: seq<nat>)
    | Deleting(kind: Kind, todo: seq<nat>)
    | Holding(kind: Kind, id: nat, todo: seq<nat>, gone: bool)  // the row is locked; `gone` once its object is
    | Counting(counted: Counted)

  datatype Run = Run(grant: GrantId, report: Report, pc: Pc)

  // `used` are the object keys ever handed out.
  datatype State = State(db: Db, objects: set<Key>, used: set<Key>, runs: map<RunId, Run>)

  const INIT := State(Db(map[], map[], map[], map[], map[], []), {}, {}, map[])

  const NOT_COUNTED := Counted(None, None, None, None)

  datatype Step =
    // the rest of the platform
    | AddGrant(grant: GrantId)
    | Revoke(grant: GrantId, now: int)
    | AddToken(id: nat, under: Option<GrantId>)
    | AddDelivery(id: nat, grant: GrantId, audio: Option<nat>)
    | SettleDelivery(id: nat, status: DeliveryStatus)
    | Upload(key: Key)
    | AddArtifact(ref: Ref, grant: GrantId, model: Option<nat>, stored: Option<Key>)
    // a cascade run
    | Claim(run: RunId, grant: GrantId, now: int)
    | RevokeTokens(run: RunId)
    | ListDeliveries(run: RunId, todo: seq<nat>)
    | CancelNext(run: RunId)
    | ListArtifacts(run: RunId, todo: seq<nat>)
    | LockNext(run: RunId)
    | DeleteObject(run: RunId)
    | CommitTombstone(run: RunId)
    | CountNext(run: RunId)
    | Finish(run: RunId, now: int)
    | Fail(run: RunId, now: int)
    | Crash(run: RunId)

  predicate Locked(s: State, r: Ref) {
    exists u :: u in s.runs && s.runs[u].pc.Holding? && Ref(s.runs[u].pc.kind, s.runs[u].pc.id) == r
  }

  // A key is attached to at most one row, ever.
  predicate Attached(db: Db, k: Key) {
    || (exists r :: r in db.artifacts && db.artifacts[r].key == Some(k))
    || (exists i :: 0 <= i < |db.events| && db.events[i].ModelDeleted? && db.events[i].key == Some(k))
  }

  predicate At(s: State, u: RunId, pc: Pc -> bool) {
    u in s.runs && pc(s.runs[u].pc)
  }

  function NextKind(pc: Pc): Kind {
    if pc.Cancelling? then AudioArtifact else VoiceModel
  }

  // The ids a SELECT returned; a run handles them in that order.
  predicate Listing(todo: seq<nat>, ids: set<nat>) {
    |todo| == |ids| && forall id :: id in ids ==> id in todo
  }

  predicate Enabled(s: State, step: Step) {
    match step
    case AddGrant(g) => g !in s.db.revoked
    case Revoke(g, now) => g in s.db.revoked && !s.db.revoked[g]
    case AddToken(t, g) => t !in s.db.tokens
    case AddDelivery(d, g, audio) =>
      d !in s.db.deliveries && (audio.Some? ==> Ref(AudioArtifact, audio.value) in s.db.artifacts)
    case SettleDelivery(d, status) =>
      d in s.db.deliveries && s.db.deliveries[d].status.Scheduled? && (status.Sent? || status.Failed?)
    case Upload(k) => k !in s.used
    case AddArtifact(r, g, model, key) =>
      && r !in s.db.artifacts && (key.Some? ==> key.value in s.used && !Attached(s.db, key.value))
      && (model.Some? ==> r.kind.AudioArtifact? && Ref(VoiceModel, model.value) in s.db.artifacts)
    case Claim(u, g, now) =>
      && u !in s.runs && g in s.db.revoked && s.db.revoked[g]
      && (g in s.db.requests ==> !s.db.requests[g].status.Complete?)
    case RevokeTokens(u) => At(s, u, (pc: Pc) => pc.Claimed?)
    case ListDeliveries(u, todo) =>
      At(s, u, (pc: Pc) => pc.TokensRevoked?) && Listing(todo, DueDeliveries(s.db, s.runs[u].grant))
    case CancelNext(u) => At(s, u, (pc: Pc) => pc.Cancelling? && pc.todo != [])
    case ListArtifacts(u, todo) =>
      && At(s, u, (pc: Pc) => (pc.Cancelling? && pc.todo == [])
            || (pc.Deleting? && pc.kind.AudioArtifact? && pc.todo == []))
      && Listing(todo, Live(s.db, s.runs[u].grant, NextKind(s.runs[u].pc)))
    case LockNext(u) =>
      At(s, u, (pc: Pc) => pc.Deleting? && pc.todo != []) && !Locked(s, Ref(s.runs[u].pc.kind, s.runs[u].pc.todo[0]))
    case DeleteObject(u) => At(s, u, (pc: Pc) => pc.Holding? && !pc.gone)
    case CommitTombstone(u) => At(s, u, (pc: Pc) => pc.Holding? && pc.gone)
    case CountNext(u) =>
      || At(s, u, (pc: Pc) => pc.Deleting? && pc.kind.VoiceModel? && pc.todo == [] )
      || (At(s, u, (pc: Pc) => pc.Counting? && pc.counted.models.None?)
          && NextCountIsZero(s.db, s.runs[u].grant, s.runs[u].pc.counted))
    case Finish(u, now) =>
      At(s, u, (pc: Pc) => pc.Counting? && pc.counted.models.Some?) && s.runs[u].grant in s.db.requests
    case Fail(u, now) => u in s.runs
    case Crash(u) => u in s.runs
  }

  predicate NextCountIsZero(db: Db, g: GrantId, c: Counted) {
    if c.tokens.None? then LiveTokens(db, g) == {}
    else if c.deliveries.None? then DueDeliveries(db, g) == {}
    else if c.audio.None? then Live(db, g, AudioArtifact) == {}
    else Live(db, g, VoiceModel) == {}
  }

  function Ids(db: Db, kind: Kind): set<nat> {
    set r | r in db.artifacts && r.kind == kind :: r.id
  }

  function AfterCount(db: Db, c: Counted): Counted {
    if c.tokens.None? then c.(tokens := Some(db.tokens.Keys))
    else if c.deliveries.None? then c.(deliveries := Some(db.deliveries.Keys))
    else if c.audio.None? then c.(audio := Some(Ids(db, AudioArtifact)))
    else c.(models := Some(Ids(db, VoiceModel)))
  }

  function WithPc(s: State, u: RunId, pc: Pc): State
    requires u in s.runs
  {
    s.(runs := s.runs[u := s.runs[u].(pc := pc)])
  }

  function Do(s: State, step: Step): State
    requires Enabled(s, step)
  {
    match step
    case AddGrant(g) => s.(db := s.db.(revoked := s.db.revoked[g := false]))
    case Revoke(g, now) =>
      s.(db := RevokeTokensTx(s.db, g).(revoked := s.db.revoked[g := true],
                                       requests := if g in s.db.requests then s.db.requests
                                                   else s.db.requests[g := Request(Pending, 0, false, now)]))
    case AddToken(t, g) => s.(db := s.db.(tokens := s.db.tokens[t := Token(g, false)]))
    case AddDelivery(d, g, audio) => s.(db := s.db.(deliveries := s.db.deliveries[d := Delivery(g, audio, Scheduled)]))
    case SettleDelivery(d, status) =>
      s.(db := s.db.(deliveries := s.db.deliveries[d := s.db.deliveries[d].(status := status)]))
    case Upload(k) => s.(objects := s.objects + {k}, used := s.used + {k})
    case AddArtifact(r, g, model, key) =>
      s.(db := s.db.(artifacts := s.db.artifacts[r := Artifact(g, model, key, false)]))
    case Claim(u, g, now) => s.(db := ClaimTx(s.db, g, now), runs := s.runs[u := Run(g, Report(0, 0, 0, 0), Claimed)])
    case RevokeTokens(u) =>
      var run := s.runs[u];
      s.(db := RevokeTokensTx(s.db, run.grant),
         runs := s.runs[u := run.(pc := TokensRevoked, report := run.report.(tokens := |LiveTokens(s.db, run.grant)|))])
    case ListDeliveries(u, todo) => WithPc(s, u, Cancelling(todo))
    case CancelNext(u) =>
      var run := s.runs[u];
      var d := run.pc.todo[0];
      var cancelled := if d in s.db.deliveries && s.db.deliveries[d].status.Scheduled? then 1 else 0;
      s.(db := CancelTx(s.db, d),
         runs := s.runs[u := run.(pc := Cancelling(run.pc.todo[1..]),
                                  report := run.report.(deliveries := run.report.deliveries + cancelled))])
    case ListArtifacts(u, todo) => WithPc(s, u, Deleting(NextKind(s.runs[u].pc), todo))
    case LockNext(u) =>
      var pc := s.runs[u].pc;
      var r := Ref(pc.kind, pc.todo[0]);
      WithPc(s, u, if r in s.db.artifacts && !s.db.artifacts[r].deleted
                   then Holding(pc.kind, pc.todo[0], pc.todo[1..], s.db.artifacts[r].key.None?)
                   else Deleting(pc.kind, pc.todo[1..]))
    case DeleteObject(u) =>
      var pc := s.runs[u].pc;
      var r := Ref(pc.kind, pc.id);
      var lost := if r in s.db.artifacts && s.db.artifacts[r].key.Some? then {s.db.artifacts[r].key.value} else {};
      WithPc(s, u, pc.(gone := true)).(objects := s.objects - lost)
    case CommitTombstone(u) =>
      var run := s.runs[u];
      var report := if run.pc.kind.AudioArtifact? then run.report.(audio := run.report.audio + 1)
                    else run.report.(models := run.report.models + 1);
      s.(db := TombstoneTx(s.db, Ref(run.pc.kind, run.pc.id)),
         runs := s.runs[u := run.(pc := Deleting(run.pc.kind, run.pc.todo), report := report)])
    case CountNext(u) =>
      WithPc(s, u, Counting(if s.runs[u].pc.Counting? then AfterCount(s.db, s.runs[u].pc.counted) else NOT_COUNTED))
    case Finish(u, now) => s.(db := CompleteTx(s.db, s.runs[u].grant, s.runs[u].report, now), runs := s.runs - {u})
    case Fail(u, now) => s.(db := FailureTx(s.db, s.runs[u].grant, now), runs := s.runs - {u})
    case Crash(u) => s.(runs := s.runs - {u})
  }

  function Replay(steps: seq<Step>): Option<State> {
    if steps == [] then Some(INIT)
    else
      var before := Replay(steps[..|steps| - 1]);
      if before.Some? && Enabled(before.value, steps[|steps| - 1]) then Some(Do(before.value, steps[|steps| - 1]))
      else None
  }

  function DeletedCount(events: seq<Event>, r: Ref): nat {
    if events == [] then 0
    else
      var last := events[|events| - 1];
      DeletedCount(events[..|events| - 1], r) + if last.ModelDeleted? && last.ref == r then 1 else 0
  }

  // ---- The invariant ----

  ghost predicate CountsOk(db: Db) {
    forall r :: DeletedCount(db.events, r) == if r in db.artifacts && db.artifacts[r].deleted then 1 else 0
  }

  ghost predicate RowsOk(s: State) {
    forall r :: r in s.db.artifacts ==> RowOk(s, r)
  }

  ghost predicate RowOk(s: State, r: Ref)
    requires r in s.db.artifacts
  {
    var row := s.db.artifacts[r];
    && (row.deleted ==> row.key.None?)
    && (row.key.Some? ==> row.key.value in s.used)
    && (row.model.Some? ==> r.kind.AudioArtifact? && Ref(VoiceModel, row.model.value) in s.db.artifacts)
    && (forall q :: q in s.db.artifacts && q != r && row.key.Some? ==> s.db.artifacts[q].key != row.key)
  }

  // Every deletion event's object is gone for good, and no row points at it.
  ghost predicate EventOk(s: State, e: Event) {
    e.ModelDeleted? && e.key.Some? ==>
      && e.key.value in s.used && e.key.value !in s.objects
      && forall r :: r in s.db.artifacts ==> s.db.artifacts[r].key != e.key
  }

  ghost predicate DeliveriesOk(db: Db) {
    forall d :: d in db.deliveries && db.deliveries[d].audio.Some? ==>
      Ref(AudioArtifact, db.deliveries[d].audio.value) in db.artifacts
  }

  ghost predicate HoldOk(s: State, pc: Pc) {
    pc.Holding? ==>
      var r := Ref(pc.kind, pc.id);
      && r in s.db.artifacts && !s.db.artifacts[r].deleted
      && (pc.gone && s.db.artifacts[r].key.Some? ==> s.db.artifacts[r].key.value !in s.objects)
  }

  ghost predicate LocksOk(runs: map<RunId, Run>) {
    forall a, b :: a in runs && b in runs && a != b && runs[a].pc.Holding? && runs[b].pc.Holding? ==>
      Ref(runs[a].pc.kind, runs[a].pc.id) != Ref(runs[b].pc.kind, runs[b].pc.id)
  }

  // Whatever was counted had nothing left, so what is left now arrived since.
  ghost predicate CountedOk(db: Db, g: GrantId, c: Counted) {
    && (c.tokens.Some? ==> c.tokens.value <= db.tokens.Keys && c.tokens.value !! LiveTokens(db, g))
    && (c.deliveries.Some? ==> c.deliveries.value <= db.deliveries.Keys && c.deliveries.value !! DueDeliveries(db, g))
    && (c.audio.Some? ==> c.audio.value <= Ids(db, AudioArtifact) && c.audio.value !! Live(db, g, AudioArtifact))
    && (c.models.Some? ==> c.models.value <= Ids(db, VoiceModel) && c.models.value !! Live(db, g, VoiceModel))
    && (c.models.Some? ==> c.audio.Some?) && (c.audio.Some? ==> c.deliveries.Some?)
    && (c.deliveries.Some? ==> c.tokens.Some?)
  }

  ghost predicate RunOk(s: State, run: Run) {
    HoldOk(s, run.pc) && (run.pc.Counting? ==> CountedOk(s.db, run.grant, run.pc.counted))
  }

  ghost predicate Inv(s: State) {
    && CountsOk(s.db) && RowsOk(s) && DeliveriesOk(s.db) && LocksOk(s.runs)
    && (forall i :: 0 <= i < |s.db.events| ==> EventOk(s, s.db.events[i]))
    && s.objects <= s.used
    && (forall u :: u in s.runs ==> RunOk(s, s.runs[u]))
  }

  // ---- Work never comes back to life ----

  // Rows that were there before are live in `g`'s scope only if they already were.
  ghost predicate NoRevival(db: Db, db': Db, g: GrantId) {
    && db.tokens.Keys <= db'.tokens.Keys && LiveTokens(db', g) * db.tokens.Keys <= LiveTokens(db, g)
    && db.deliveries.Keys <= db'.deliveries.Keys && DueDeliveries(db', g) * db.deliveries.Keys <= DueDeliveries(db, g)
    && (forall k :: Ids(db, k) <= Ids(db', k) && Live(db', g, k) * Ids(db, k) <= Live(db, g, k))
  }

  // A step that leaves `g`'s artifacts and deliveries no more live than they were.
  lemma ShrinkingStep(db: Db, db': Db, g: GrantId)
    requires db.artifacts.Keys == db'.artifacts.Keys && db.deliveries.Keys == db'.deliveries.Keys
             && db.tokens.Keys <= db'.tokens.Keys
    requires LiveTokens(db', g) * db.tokens.Keys <= LiveTokens(db, g) && DueDeliveries(db', g) <= DueDeliveries(db, g)
    requires forall k :: Live(db', g, k) <= Live(db, g, k)
    ensures NoRevival(db, db', g)
  {
  }

  // A new artifact cannot bring an existing row into scope: the rows that row refers to were there first.
  lemma NewArtifactScope(s: State, r: Ref, row: Artifact, g: GrantId)
    requires RowsOk(s) && DeliveriesOk(s.db) && r !in s.db.artifacts
    ensures NoRevival(s.db, s.db.(artifacts := s.db.artifacts[r := row]), g)
  {
  }

  lemma NewDeliveryScope(db: Db, d: nat, row: Delivery, g: GrantId)
    requires d !in db.deliveries
             || (row.grant == db.deliveries[d].grant && row.audio == db.deliveries[d].audio && !row.status.Scheduled?)
    ensures NoRevival(db, db.(deliveries := db.deliveries[d := row]), g)
  {
  }

  // ---- Keeping the invariant ----

  // Runs survive a step that touches neither their locked row, nor their object, nor revives counted work.
  lemma RunStays(s: State, s': State, run: Run)
    requires RunOk(s, run) && NoRevival(s.db, s'.db, run.grant)
    requires run.pc.Holding? ==>
      var r := Ref(run.pc.kind, run.pc.id);
      r in s'.db.artifacts && s'.db.artifacts[r] == s.db.artifacts[r]
      && (s.db.artifacts[r].key.Some? && s.db.artifacts[r].key.value !in s.objects ==>
          s.db.artifacts[r].key.value !in s'.objects)
    ensures RunOk(s', run)
  {
  }

  ghost predicate SameHold(s: State, s': State, u: RunId)
    requires u in s'.runs
  {
    s'.runs[u].pc.Holding? ==>
      if u in s.runs && s.runs[u].pc.Holding? then
        Ref(s'.runs[u].pc.kind, s'.runs[u].pc.id) == Ref(s.runs[u].pc.kind, s.runs[u].pc.id)
      else !Locked(s, Ref(s'.runs[u].pc.kind, s'.runs[u].pc.id))
  }

  lemma LocksStay(s: State, s': State, u: RunId)
    requires LocksOk(s.runs) && s'.runs - {u} == s.runs - {u} && (u in s'.runs ==> SameHold(s, s', u))
    ensures LocksOk(s'.runs)
  {
    forall a, b | a in s'.runs && b in s'.runs && a != b && s'.runs[a].pc.Holding? && s'.runs[b].pc.Holding?
      ensures Ref(s'.runs[a].pc.kind, s'.runs[a].pc.id) != Ref(s'.runs[b].pc.kind, s'.runs[b].pc.id) {
      assert a != u ==> a in s'.runs - {u} && s'.runs[a] == s.runs[a];
      assert b != u ==> b in s'.runs - {u} && s'.runs[b] == s.runs[b];
    }
  }

  // Steps that leave artifacts and objects alone and audit no deletion.
  lemma QuietStep(s: State, s': State, u: RunId)
    requires Inv(s) && s'.db.artifacts == s.db.artifacts && s'.objects == s.objects && s'.used == s.used
             && DeliveriesOk(s'.db)
    requires s'.db.events == s.db.events || exists e: Event :: !e.ModelDeleted? && s'.db.events == s.db.events + [e]
    requires forall g :: NoRevival(s.db, s'.db, g)
    requires s'.runs - {u} == s.runs - {u}
    requires u in s'.runs ==> RunOk(s', s'.runs[u]) && SameHold(s, s', u)
    ensures Inv(s')
  {
    LocksStay(s, s', u);
    forall r | r in s'.db.artifacts ensures RowOk(s', r) { assert RowOk(s, r); }
    forall i | 0 <= i < |s'.db.events| ensures EventOk(s', s'.db.events[i]) {
      if i < |s.db.events| { assert EventOk(s, s.db.events[i]); }
    }
    if s'.db.events != s.db.events {
      var e: Event :| !e.ModelDeleted? && s'.db.events == s.db.events + [e];
      forall r ensures DeletedCount(s'.db.events, r) == DeletedCount(s.db.events, r) { CountAppend(s.db.events, e, r); }
    }
    forall v | v in s'.runs ensures RunOk(s', s'.runs[v]) {
      if v != u {
        assert v in s'.runs - {u} && s'.runs[v] == s.runs[v];
        RunStays(s, s', s.runs[v]);
      }
    }
  }

  lemma CountAppend(events: seq<Event>, e: Event, r: Ref)
    ensures DeletedCount(events + [e], r) == DeletedCount(events, r) + if e.ModelDeleted? && e.ref == r then 1 else 0
  {
  }

  lemma NothingRevived(db: Db, db': Db)
    requires db' == db.(requests := db'.requests, events := db'.events, revoked := db'.revoked)
    ensures forall g :: NoRevival(db, db', g)
  {
  }

  lemma RunPcStep(s: State, step: Step)
    requires Inv(s) && Enabled(s, step)
    requires step.ListDeliveries? || step.ListArtifacts? || step.LockNext? || step.Crash? || step.Fail? || step.Claim?
             || step.AddGrant?
    ensures Inv(Do(s, step))
  {
    var s' := Do(s, step);
    NothingRevived(s.db, s'.db);
    QuietStep(s, s', if step.AddGrant? then 0 else step.run);
  }

  lemma CountStep(s: State, u: RunId)
    requires Inv(s) && Enabled(s, CountNext(u))
    ensures Inv(Do(s, CountNext(u)))
  {
    var s' := Do(s, CountNext(u));
    var g := s.runs[u].grant;
    NothingRevived(s.db, s'.db);
    forall k ensures Live(s.db, g, k) <= Ids(s.db, k) {}
    assert RunOk(s, s.runs[u]);
    QuietStep(s, s', u);
  }

  lemma TokenStep(s: State, step: Step)
    requires Inv(s) && Enabled(s, step) && (step.RevokeTokens? || step.AddToken? || step.Revoke?)
    ensures Inv(Do(s, step))
  {
    var s' := Do(s, step);
    forall g ensures NoRevival(s.db, s'.db, g) {
      forall k { SameArtifacts(s.db, s'.db, g, k); }
      DueFollowsLinks(s.db, s'.db, g);
      ShrinkingStep(s.db, s'.db, g);
    }
    QuietStep(s, s', if step.RevokeTokens? then step.run else 0);
  }

  lemma DeliveryStep(s: State, step: Step)
    requires Inv(s) && Enabled(s, step) && (step.AddDelivery? || step.SettleDelivery?)
    ensures Inv(Do(s, step))
  {
    var s' := Do(s, step);
    forall g ensures NoRevival(s.db, s'.db, g) { NewDeliveryScope(s.db, step.id, s'.db.deliveries[step.id], g); }
    QuietStep(s, s', 0);
  }

  lemma CancelStep(s: State, u: RunId)
    requires Inv(s) && Enabled(s, CancelNext(u))
    ensures Inv(Do(s, CancelNext(u)))
  {
    var s' := Do(s, CancelNext(u));
    var d := s.runs[u].pc.todo[0];
    forall g ensures NoRevival(s.db, s'.db, g) {
      CancelScope(s.db, d, g);
      ShrinkingStep(s.db, s'.db, g);
    }
    assert s'.db.events == s.db.events || s'.db.events == s.db.events + [DeliveryCancelled(d)];
    QuietStep(s, s', u);
  }

  lemma FinishStep(s: State, u: RunId, now: int)
    requires Inv(s) && Enabled(s, Finish(u, now))
    ensures Inv(Do(s, Finish(u, now)))
  {
    var s' := Do(s, Finish(u, now));
    NothingRevived(s.db, s'.db);
    var g := s.runs[u].grant;
    assert s'.db.events == s.db.events + [CascadeCompleted(g, s.db.requests[g].attempts, s.runs[u].report)];
    QuietStep(s, s', u);
  }

  lemma UploadStep(s: State, k: Key)
    requires Inv(s) && Enabled(s, Upload(k))
    ensures Inv(Do(s, Upload(k)))
  {
    var s' := Do(s, Upload(k));
    NothingRevived(s.db, s'.db);
    forall r | r in s'.db.artifacts ensures RowOk(s', r) { assert RowOk(s, r); }
    forall i | 0 <= i < |s'.db.events| ensures EventOk(s', s'.db.events[i]) { assert EventOk(s, s.db.events[i]); }
    forall v | v in s'.runs ensures RunOk(s', s'.runs[v]) {
      if s.runs[v].pc.Holding? { assert RowOk(s, Ref(s.runs[v].pc.kind, s.runs[v].pc.id)); }
      RunStays(s, s', s.runs[v]);
    }
  }

  lemma AddArtifactStep(s: State, step: Step)
    requires Inv(s) && Enabled(s, step) && step.AddArtifact?
    ensures Inv(Do(s, step))
  {
    var s' := Do(s, step);
    var r := step.ref;
    forall q | q in s'.db.artifacts ensures RowOk(s', q) {
      if q != r {
        assert RowOk(s, q);
        assert step.stored.Some? ==> s.db.artifacts[q].key != step.stored;
      }
    }
    forall i | 0 <= i < |s'.db.events| ensures EventOk(s', s'.db.events[i]) { assert EventOk(s, s.db.events[i]); }
    NoDeletionBefore(s, r);
    forall v | v in s'.runs ensures RunOk(s', s'.runs[v]) {
      NewArtifactScope(s, r, s'.db.artifacts[r], s.runs[v].grant);
      RunStays(s, s', s.runs[v]);
    }
  }

  lemma NoDeletionBefore(s: State, r: Ref)
    requires Inv(s) && r !in s.db.artifacts
    ensures DeletedCount(s.db.events, r) == 0
  {
  }

  lemma DeleteObjectStep(s: State, u: RunId)
    requires Inv(s) && Enabled(s, DeleteObject(u))
    ensures Inv(Do(s, DeleteObject(u)))
  {
    var s' := Do(s, DeleteObject(u));
    NothingRevived(s.db, s'.db);
    LocksStay(s, s', u);
    forall r | r in s'.db.artifacts ensures RowOk(s', r) { assert RowOk(s, r); }
    forall i | 0 <= i < |s'.db.events| ensures EventOk(s', s'.db.events[i]) { assert EventOk(s, s.db.events[i]); }
    forall v | v in s'.runs ensures RunOk(s', s'.runs[v]) {
      assert RunOk(s, s.runs[v]);
      if v != u { RunStays(s, s', s.runs[v]); }
    }
  }

  lemma TombstoneStep(s: State, u: RunId)
    requires Inv(s) && Enabled(s, CommitTombstone(u))
    ensures Inv(Do(s, CommitTombstone(u)))
  {
    var s' := Do(s, CommitTombstone(u));
    var r := Ref(s.runs[u].pc.kind, s.runs[u].pc.id);
    assert RunOk(s, s.runs[u]);
    assert RowOk(s, r);
    var e := ModelDeleted(r, s.db.artifacts[r].key);
    assert s'.db.events == s.db.events + [e];
    LocksStay(s, s', u);
    forall q | q in s'.db.artifacts ensures RowOk(s', q) { assert RowOk(s, q); }
    forall i | 0 <= i < |s'.db.events| ensures EventOk(s', s'.db.events[i]) {
      if i < |s.db.events| { assert EventOk(s, s.db.events[i]); }
    }
    forall q
      ensures DeletedCount(s'.db.events, q) == if q in s'.db.artifacts && s'.db.artifacts[q].deleted then 1 else 0
    {
      CountAppend(s.db.events, e, q);
    }
    forall v | v in s'.runs ensures RunOk(s', s'.runs[v]) {
      assert RunOk(s, s.runs[v]);
      if v != u {
        TombstoneScope(s.db, r, s.runs[v].grant);
        ShrinkingStep(s.db, s'.db, s.runs[v].grant);
        RunStays(s, s', s.runs[v]);
      }
    }
  }

  lemma StepKeepsInv(s: State, step: Step)
    requires Inv(s) && Enabled(s, step)
    ensures Inv(Do(s, step))
  {
    match step
    case RevokeTokens(_) => TokenStep(s, step);
    case AddToken(_, _) => TokenStep(s, step);
    case Revoke(_, _) => TokenStep(s, step);
    case AddDelivery(_, _, _) => DeliveryStep(s, step);
    case SettleDelivery(_, _) => DeliveryStep(s, step);
    case Upload(k) => UploadStep(s, k);
    case AddArtifact(_, _, _, _) => AddArtifactStep(s, step);
    case CancelNext(u) => CancelStep(s, u);
    case DeleteObject(u) => DeleteObjectStep(s, u);
    case CommitTombstone(u) => TombstoneStep(s, u);
    case CountNext(u) => CountStep(s, u);
    case Finish(u, now) => FinishStep(s, u, now);
    case _ => RunPcStep(s, step);
  }

  lemma {:induction false} RunKeepsInv(steps: seq<Step>)
    requires Replay(steps).Some?
    ensures Inv(Replay(steps).value)
  {
    if steps != [] {
      RunKeepsInv(steps[..|steps| - 1]);
      StepKeepsInv(Replay(steps[..|steps| - 1]).value, steps[|steps| - 1]);
    }
  }

  // ---- Main results ----

  /** Whatever the interleaving, retries and crashes: an artifact has one MODEL_DELETED event if its row is
      tombstoned and none otherwise; the object that event names is gone, and so is the row's key with it. */
  lemma DeletedExactlyOnce(steps: seq<Step>, r: Ref)
    requires Replay(steps).Some?
    ensures var s := Replay(steps).value;
            && DeletedCount(s.db.events, r) == (if r in s.db.artifacts && s.db.artifacts[r].deleted then 1 else 0)
            && (r in s.db.artifacts && s.db.artifacts[r].deleted ==> s.db.artifacts[r].key.None?)
            && forall i :: 0 <= i < |s.db.events| && s.db.events[i].ModelDeleted? && s.db.events[i].key.Some? ==>
                 s.db.events[i].key.value !in s.objects
  {
    RunKeepsInv(steps);
    var s := Replay(steps).value;
    if r in s.db.artifacts { assert RowOk(s, r); }
    forall i | 0 <= i < |s.db.events| && s.db.events[i].ModelDeleted? && s.db.events[i].key.Some?
      ensures s.db.events[i].key.value !in s.objects { assert EventOk(s, s.db.events[i]); }
  }

  ghost predicate TurnsComplete(s: State, step: Step, g: GrantId)
    requires Enabled(s, step)
  {
    && (g in s.db.requests ==> !s.db.requests[g].status.Complete?)
    && g in Do(s, step).db.requests && Do(s, step).db.requests[g].status.Complete?
  }

  /** A request turns COMPLETE only in the `Finish` step of a run for its grant that has counted all four tables, and
      no row it counted is left. */
  lemma CompleteOnlyInFinish(steps: seq<Step>, step: Step, g: GrantId)
    requires Replay(steps).Some? && Enabled(Replay(steps).value, step) && TurnsComplete(Replay(steps).value, step, g)
    ensures step.Finish?
    ensures var s := Replay(steps).value;
            var run := s.runs[step.run];
            && run.grant == g && run.pc.Counting? && run.pc.counted.models.Some? && CountedOk(s.db, g, run.pc.counted)
  {
    RunKeepsInv(steps);
    assert RunOk(Replay(steps).value, Replay(steps).value.runs[step.run]);
  }

  /** COMPLETE is absorbing. */
  lemma CompleteStays(s: State, step: Step, g: GrantId)
    requires Enabled(s, step) && g in s.db.requests && s.db.requests[g].status.Complete?
    ensures g in Do(s, step).db.requests && Do(s, step).db.requests[g].status.Complete?
  {
  }

  lemma ReplayOneMore(steps: seq<Step>, step: Step)
    requires Replay(steps).Some? && Enabled(Replay(steps).value, step)
    ensures Replay(steps + [step]) == Some(Do(Replay(steps).value, step))
  {
  }

  // One revoked grant with an open request and nothing in scope, and one run at `pc`.
  function Idle(pc: Pc): State {
    State(Db(map[1 := true], map[1 := Request(Processing, 1, false, 0)], map[], map[], map[], []), {}, {},
          map[0 := Run(1, Report(0, 0, 0, 0), pc)])
  }

  lemma IdleIsEmpty()
    ensures var db := Idle(Claimed).db; NothingLeft(db, 1) && db.tokens.Keys == {} && db.deliveries.Keys == {}
    ensures forall k :: Ids(Idle(Claimed).db, k) == {}
  {
  }

  lemma ReachClaimed() returns (steps: seq<Step>)
    ensures Replay(steps) == Some(Idle(Claimed))
  {
    var s := INIT;
    steps := [];
    s, steps := Take(s, steps, AddGrant(1));
    s, steps := Take(s, steps, Revoke(1, 0));
    assert s.db.tokens == map[];
    s, steps := Take(s, steps, Claim(0, 1, 0));
    assert s == Idle(Claimed);
  }

  lemma ReachCancelling() returns (steps: seq<Step>)
    ensures Replay(steps) == Some(Idle(Cancelling([])))
  {
    IdleIsEmpty();
    steps := ReachClaimed();
    var s := Idle(Claimed);
    s, steps := Take(s, steps, RevokeTokens(0));
    assert s == Idle(TokensRevoked);
    s, steps := Take(s, steps, ListDeliveries(0, []));
    assert s == Idle(Cancelling([]));
  }

  lemma ReachListed() returns (steps: seq<Step>)
    ensures Replay(steps) == Some(Idle(Deleting(VoiceModel, [])))
  {
    IdleIsEmpty();
    steps := ReachCancelling();
    var s := Idle(Cancelling([]));
    s, steps := Take(s, steps, ListArtifacts(0, []));
    assert s == Idle(Deleting(AudioArtifact, []));
    s, steps := Take(s, steps, ListArtifacts(0, []));
    assert s == Idle(Deleting(VoiceModel, []));
  }

  lemma ReachCounted() returns (steps: seq<Step>)
    ensures Replay(steps) == Some(Idle(Counting(Counted(Some({}), Some({}), Some({}), Some({})))))
  {
    IdleIsEmpty();
    steps := ReachListed();
    var s := Idle(Deleting(VoiceModel, []));
    s, steps := Take(s, steps, CountNext(0));
    assert s == Idle(Counting(NOT_COUNTED));
    steps := CountOnce(steps, NOT_COUNTED);
    steps := CountOnce(steps, Counted(Some({}), None, None, None));
    steps := CountOnce(steps, Counted(Some({}), Some({}), None, None));
    steps := CountOnce(steps, Counted(Some({}), Some({}), Some({}), None));
  }

  lemma CountOnce(steps: seq<Step>, c: Counted) returns (steps': seq<Step>)
    requires Replay(steps) == Some(Idle(Counting(c))) && c.models.None?
    ensures Replay(steps') == Some(Idle(Counting(
              if c.tokens.None? then c.(tokens := Some({})) else if c.deliveries.None? then c.(deliveries := Some({}))
              else if c.audio.None? then c.(audio := Some({})) else c.(models := Some({})))))
  {
    IdleIsEmpty();
    var s;
    s, steps' := Take(Idle(Counting(c)), steps, CountNext(0));
    var counted := AfterCount(Idle(Claimed).db, c);
    assert s.runs == Idle(Counting(counted)).runs;
    assert s == Idle(Counting(counted));
  }

  /** The arrivals are real: a model inserted between the last count and the commit is left under a COMPLETE request. */
  lemma ArrivalSurvivesCompletion() returns (steps: seq<Step>)
    ensures Replay(steps).Some?
    ensures var db := Replay(steps).value.db;
            1 in db.requests && db.requests[1].status.Complete? && 7 in Live(db, 1, VoiceModel) && !NothingLeft(db, 1)
  {
    steps := ReachCounted();
    var s := Idle(Counting(Counted(Some({}), Some({}), Some({}), Some({}))));
    s, steps := Take(s, steps, AddArtifact(Ref(VoiceModel, 7), 1, None, None));
    s, steps := Take(s, steps, Finish(0, 0));
    LiveMeaning(s.db, 1, VoiceModel);
  }

  lemma Take(s: State, steps: seq<Step>, step: Step) returns (s': State, steps': seq<Step>)
    requires Replay(steps) == Some(s) && Enabled(s, step)
    ensures Replay(steps') == Some(s') && s' == Do(s, step) && steps' == steps + [step]
  {
    ReplayOneMore(steps, step);
    s', steps' := Do(s, step), steps + [step];
  }
}
