/** Concurrent runs of the consent service. Each transaction is broken at the points where another one can
    slip in: `authorize` reads the profile, share-locks and reads the grants one row at a time, reads the
    successors and commits; `revoke` and `verify_authority` take a grant's exclusive lock first; `create_grant`
    and `acknowledge` check without a lock and commit later; any transaction can abort and release its locks. */
module ConsentRuns {
  import opened Wrappers
  import opened Kernel
  import opened Tokens
  import opened ConsentPolicy
  import opened ConsentStore

  type TxId = nat

  datatype Phase =
    | Started
    | ProfileRead(death: Option<int>)
    | Scanning(death: Option<int>, todo: seq<GrantId>, read: seq<Grant>)
    | FactsRead(facts: Option<ProfileFacts>)

  datatype Tx =
    | Authorizing(action: Action, declared: Option<Purpose>, actor: Actor, profile: ProfileId, phase: Phase)
    | Revoking(grant: GrantId, marked: Option<set<Jti>>)
    | Verifying(grant: GrantId)
    | Acknowledging(grant: GrantId, email: Email)
    | Creating(profile: ProfileId, row: Grant)

  // `signed` remembers every claims set the issuer ever signed, committed or not.
  datatype State = State(db: Db, signed: map<Jti, Claims>, txs: map<TxId, Tx>)

  const INIT := State(EMPTY, map[], map[])

  datatype Step =
    | CreateWithProfile(actor: Actor, profile: ProfileId, death: Option<int>, body: GrantBody, gid: GrantId, pos: nat,
        today: int)
    | BeginCreate(tx: TxId, actor: Actor, profile: ProfileId, body: GrantBody, gid: GrantId, today: int)
    | CommitCreate(tx: TxId, pos: nat)
    | BeginVerify(tx: TxId, actor: Actor, grant: GrantId)
    | CommitVerify(tx: TxId)
    | BeginAcknowledge(tx: TxId, actor: Actor, grant: GrantId)
    | CommitAcknowledge(tx: TxId)
    | RecordDeath(profile: ProfileId, day: int)
    | DesignateSuccessor(profile: ProfileId, user: UserId)
    | BeginAuthorize(tx: TxId, action: Action, declared: Option<Purpose>, actor: Actor, profile: ProfileId)
    | ReadProfile(tx: TxId)
    | StartScan(tx: TxId)
    | LockNextGrant(tx: TxId)
    | ReadSuccessors(tx: TxId)
    | CommitAuthorize(tx: TxId, jti: Jti, now: real, ttl: int, durable: bool)  // not durable: signed, then rolled back
    | BeginRevoke(tx: TxId, actor: Actor, grant: GrantId)
    | MarkTokens(tx: TxId)
    | CommitRevoke(tx: TxId)
    | CascadeRevokesTokens(grant: GrantId)
    | Abort(tx: TxId)

  // ---- Locks ----

  function Ids(grants: seq<Grant>): set<GrantId> {
    set i | 0 <= i < |grants| :: grants[i].id
  }

  function Shared(tx: Tx): set<GrantId> {
    if tx.Authorizing? && tx.phase.Scanning? then Ids(tx.phase.read)
    else if tx.Authorizing? && tx.phase.FactsRead? && tx.phase.facts.Some? then Ids(tx.phase.facts.value.grants)
    else {}
  }

  function Exclusive(tx: Tx): set<GrantId> {
    if tx.Revoking? || tx.Verifying? then {tx.grant} else {}
  }

  predicate MayShare(s: State, g: GrantId) {
    forall t :: t in s.txs ==> g !in Exclusive(s.txs[t])
  }

  predicate MayExclude(s: State, g: GrantId) {
    MayShare(s, g) && forall t :: t in s.txs ==> g !in Shared(s.txs[t])
  }

  // ---- Steps ----

  function RowsOf(db: Db, p: ProfileId, ids: seq<GrantId>): seq<GrantId> {
    if ids == [] then []
    else (if ids[0] in db.grants && db.grants[ids[0]].profile == p then [ids[0]] else []) + RowsOf(db, p, ids[1..])
  }

  predicate InPhase(s: State, t: TxId, phase: Phase -> bool) {
    t in s.txs && s.txs[t].Authorizing? && phase(s.txs[t].phase)
  }

  predicate Enabled(s: State, step: Step) {
    match step
    case CreateWithProfile(actor, p, death, body, gid, pos, today) =>
      && CreateError(s.db, actor, NewProfile(p, death), body.grantorType, today).None?
      && p !in s.db.deaths && gid !in s.db.grants && pos <= |s.db.order|
    case BeginCreate(t, actor, p, body, gid, today) =>
      t !in s.txs && CreateError(s.db, actor, ExistingProfile(p), body.grantorType, today).None?
    case CommitCreate(t, pos) =>
      t in s.txs && s.txs[t].Creating? && s.txs[t].row.id !in s.db.grants && pos <= |s.db.order|
    case BeginVerify(t, actor, g) => t !in s.txs && MayExclude(s, g) && VerifyError(s.db, actor, g).None?
    case CommitVerify(t) => t in s.txs && s.txs[t].Verifying?  && s.txs[t].grant in s.db.grants
    case BeginAcknowledge(t, actor, g) => t !in s.txs && actor.email.Some? && AcknowledgeError(s.db, actor, g).None?
    case CommitAcknowledge(t) => t in s.txs && s.txs[t].Acknowledging? && s.txs[t].grant in s.db.grants
    case RecordDeath(p, day) => p in s.db.deaths && s.db.deaths[p].None?
    case DesignateSuccessor(p, user) => p in s.db.deaths
    case BeginAuthorize(t, action, declared, actor, p) => t !in s.txs
    case ReadProfile(t) => InPhase(s, t, (p: Phase) => p.Started?)
    case StartScan(t) => InPhase(s, t, (p: Phase) => p.ProfileRead?)
    case LockNextGrant(t) =>
      && InPhase(s, t, (p: Phase) => p.Scanning? && p.todo != [])
      && s.txs[t].phase.todo[0] in s.db.grants && MayShare(s, s.txs[t].phase.todo[0])
    case ReadSuccessors(t) => InPhase(s, t, (p: Phase) => p.Scanning? && p.todo == [])
    case CommitAuthorize(t, jti, now, ttl, durable) =>
      InPhase(s, t, (p: Phase) => p.FactsRead?) && jti !in s.signed && 1 <= ttl <= MAX_TOKEN_TTL_SECONDS
    case BeginRevoke(t, actor, g) =>
      t !in s.txs && MayExclude(s, g) && RequireError(s.db, actor, g, {Owner, Beneficiary, Successor, Admin}).None?
    case MarkTokens(t) => t in s.txs && s.txs[t].Revoking? && s.txs[t].marked.None?
    case CommitRevoke(t) => t in s.txs && s.txs[t].Revoking? && s.txs[t].marked.Some? && s.txs[t].grant in s.db.grants
    case CascadeRevokesTokens(g) => g in s.db.grants && s.db.grants[g].facts.revoked
    case Abort(t) => t in s.txs
  }

  function Decided(tx: Tx): Decision
    requires tx.Authorizing? && tx.phase.FactsRead?
  {
    Decide(tx.action, tx.declared, tx.actor, tx.phase.facts)
  }

  function ClaimsFor(tx: Tx, jti: Jti, now: real, ttl: int): Claims
    requires tx.Authorizing? && tx.phase.FactsRead?
  {
    Issue(jti, tx.actor.userId, tx.action, tx.profile, Decided(tx).grantId, ActionPurpose(tx.action), now, ttl)
  }

  function InPhaseNow(s: State, t: TxId, phase: Phase): State
    requires t in s.txs && s.txs[t].Authorizing?
  {
    s.(txs := s.txs[t := s.txs[t].(phase := phase)])
  }

  function Do(s: State, step: Step): State
    requires Enabled(s, step)
  {
    match step
    case CreateWithProfile(actor, p, death, body, gid, pos, today) =>
      s.(db := AfterCreate(s.db, NewProfile(p, death), NewGrant(gid, actor, body), pos))
    case BeginCreate(t, actor, p, body, gid, today) => s.(txs := s.txs[t := Creating(p, NewGrant(gid, actor, body))])
    case CommitCreate(t, pos) =>
      s.(db := AfterCreate(s.db, ExistingProfile(s.txs[t].profile), s.txs[t].row, pos), txs := s.txs - {t})
    case BeginVerify(t, actor, g) => s.(txs := s.txs[t := Verifying(g)])
    case CommitVerify(t) => s.(db := AfterVerify(s.db, s.txs[t].grant), txs := s.txs - {t})
    case BeginAcknowledge(t, actor, g) => s.(txs := s.txs[t := Acknowledging(g, actor.email.value)])
    case CommitAcknowledge(t) => s.(db := AfterAcknowledge(s.db, s.txs[t].grant, s.txs[t].email), txs := s.txs - {t})
    case RecordDeath(p, day) => s.(db := s.db.(deaths := s.db.deaths[p := Some(day)]))
    case DesignateSuccessor(p, user) =>
      s.(db := s.db.(successors := s.db.successors[p := SuccessorsOf(s.db, p) + {user}]))
    case BeginAuthorize(t, action, declared, actor, p) =>
      s.(txs := s.txs[t := Authorizing(action, declared, actor, p, Started)])
    case ReadProfile(t) =>
      var p := s.txs[t].profile;
      InPhaseNow(s, t, if p in s.db.deaths then ProfileRead(s.db.deaths[p]) else FactsRead(None))
    case StartScan(t) =>
      InPhaseNow(s, t, Scanning(s.txs[t].phase.death, RowsOf(s.db, s.txs[t].profile, s.db.order), []))
    case LockNextGrant(t) =>
      var ph := s.txs[t].phase;
      InPhaseNow(s, t, Scanning(ph.death, ph.todo[1..], ph.read + [s.db.grants[ph.todo[0]].facts]))
    case ReadSuccessors(t) =>
      var ph := s.txs[t].phase;
      InPhaseNow(s, t, FactsRead(Some(ProfileFacts(ph.death, SuccessorsOf(s.db, s.txs[t].profile), ph.read))))
    case CommitAuthorize(t, jti, now, ttl, durable) =>
      if !Decided(s.txs[t]).allowed then s.(txs := s.txs - {t})
      else
        var c := ClaimsFor(s.txs[t], jti, now, ttl);
        State(if durable then AfterIssue(s.db, c) else s.db, s.signed[jti := c], s.txs - {t})
    case BeginRevoke(t, actor, g) => s.(txs := s.txs[t := Revoking(g, None)])
    case MarkTokens(t) => s.(txs := s.txs[t := Revoking(s.txs[t].grant, Some(TokensUnder(s.db, s.txs[t].grant)))])
    case CommitRevoke(t) => s.(db := AfterRevoke(s.db, s.txs[t].grant, s.txs[t].marked.value), txs := s.txs - {t})
    case CascadeRevokesTokens(g) => s.(db := s.db.(tokens := RevokeTokens(s.db.tokens, TokensUnder(s.db, g))))
    case Abort(t) => s.(txs := s.txs - {t})
  }

  // The state a run of steps reaches, None when some step was not enabled.
  function Replay(steps: seq<Step>): Option<State> {
    if steps == [] then Some(INIT)
    else
      var before := Replay(steps[..|steps| - 1]);
      if before.Some? && Enabled(before.value, steps[|steps| - 1]) then Some(Do(before.value, steps[|steps| - 1]))
      else None
  }

  // ---- The invariant ----

  // A row read under a share lock is still current, except that more acknowledgments may have arrived.
  ghost predicate ReadOk(db: Db, p: ProfileId, f: Grant) {
    && f.id in db.grants && db.grants[f.id].profile == p
    && var now := db.grants[f.id].facts;
    && now == f.(acknowledged := now.acknowledged) && f.acknowledged <= now.acknowledged
  }

  // Every pre-need account of the profile shows up in the grants read so far or still to read.
  ghost predicate PreNeedCovered(db: Db, p: ProfileId, todo: seq<GrantId>, read: seq<Grant>) {
    forall u :: u in PreNeedGrantors(db, p) ==> HoldsPreNeed(u, read) || HoldsPreNeedAmong(db, u, todo)
  }

  ghost predicate HoldsPreNeed(u: UserId, read: seq<Grant>) {
    exists i :: 0 <= i < |read| && read[i].grantorType.SelfPreNeed? && read[i].grantor == u
  }

  ghost predicate HoldsPreNeedAmong(db: Db, u: UserId, todo: seq<GrantId>) {
    exists g ::
      g in todo && g in db.grants && db.grants[g].facts.grantorType.SelfPreNeed? && db.grants[g].facts.grantor == u
  }

  ghost predicate DeathOk(db: Db, p: ProfileId, death: Option<int>) {
    p in db.deaths && (death.Some? ==> db.deaths[p] == death)
  }

  ghost predicate PhaseOk(db: Db, p: ProfileId, phase: Phase) {
    match phase
    case Started => true
    case ProfileRead(death) => DeathOk(db, p, death)
    case Scanning(death, todo, read) =>
      && DeathOk(db, p, death) && PreNeedCovered(db, p, todo, read)
      && (forall i :: 0 <= i < |todo| ==> todo[i] in db.grants && db.grants[todo[i]].profile == p)
      && (forall i :: 0 <= i < |read| ==> ReadOk(db, p, read[i]))
    case FactsRead(None) => true
    case FactsRead(Some(facts)) =>
      && DeathOk(db, p, facts.dateOfDeath) && PreNeedCovered(db, p, [], facts.grants)
      && facts.successors <= SuccessorsOf(db, p)
      && (forall i :: 0 <= i < |facts.grants| ==> ReadOk(db, p, facts.grants[i]))
  }

  ghost predicate TxOk(db: Db, tx: Tx) {
    match tx
    case Authorizing(_, _, _, p, phase) => PhaseOk(db, p, phase)
    case Revoking(g, marked) => g in db.grants && (marked.Some? ==> TokensUnder(db, g) <= marked.value)
    case Verifying(g) => g in db.grants
    case Acknowledging(g, _) => g in db.grants
    case Creating(p, row) =>
      && p in db.deaths && row.isActive && !row.revoked
      && (row.grantorType.SelfPreNeed? ==> row.grantor in PreNeedGrantors(db, p))
  }

  ghost predicate LocksOk(txs: map<TxId, Tx>) {
    forall a, b :: a in txs && b in txs && a != b ==> Exclusive(txs[a]) !! Exclusive(txs[b]) + Shared(txs[b])
  }

  ghost predicate SignedOk(db: Db, signed: map<Jti, Claims>) {
    && (forall j :: j in signed ==> signed[j].jti == j && 1 <= signed[j].exp - signed[j].iat <= MAX_TOKEN_TTL_SECONDS)
    && (forall j :: j in db.tokens ==>
        j in signed && db.tokens[j] == RowOf(signed[j]).(revoked := db.tokens[j].revoked))
  }

  ghost predicate Inv(s: State) {
    && Sound(s.db) && SignedOk(s.db, s.signed) && LocksOk(s.txs)
    && forall t :: t in s.txs ==> TxOk(s.db, s.txs[t])
  }

  // ---- Other transactions survive a commit ----

  // Only the grants in `changed` had their verification or revocation written.
  ghost predicate QuietExcept(db: Db, db': Db, changed: set<GrantId>) {
    && Evolves(db, db')
    && forall g :: g in db.grants && g !in changed ==>
         db'.grants[g].facts == db.grants[g].facts.(acknowledged := db'.grants[g].facts.acknowledged)
  }

  lemma ReadStays(db: Db, db': Db, changed: set<GrantId>, p: ProfileId, f: Grant)
    requires QuietExcept(db, db', changed) && ReadOk(db, p, f) && f.id !in changed
    ensures ReadOk(db', p, f)
  {
  }

  lemma CoverStays(db: Db, db': Db, p: ProfileId, todo: seq<GrantId>, read: seq<Grant>)
    requires Evolves(db, db') && p in db.deaths && PreNeedCovered(db, p, todo, read)
    ensures PreNeedCovered(db', p, todo, read)
  {
  }

  lemma PhaseStays(db: Db, db': Db, changed: set<GrantId>, tx: Tx)
    requires QuietExcept(db, db', changed) && tx.Authorizing? && PhaseOk(db, tx.profile, tx.phase)
    requires Shared(tx) !! changed
    ensures PhaseOk(db', tx.profile, tx.phase)
  {
    var p := tx.profile;
    if p in db.deaths { assert ProfileEvolves(db, db', p); }
    match tx.phase
    case Scanning(death, todo, read) =>
      CoverStays(db, db', p, todo, read);
      forall i | 0 <= i < |read| ensures ReadOk(db', p, read[i]) {
        assert read[i].id in Shared(tx);
        ReadStays(db, db', changed, p, read[i]);
      }
      forall i | 0 <= i < |todo| ensures todo[i] in db'.grants && db'.grants[todo[i]].profile == p {
        assert GrantEvolves(db, db', todo[i]);
      }
    case FactsRead(Some(facts)) =>
      CoverStays(db, db', p, [], facts.grants);
      forall i | 0 <= i < |facts.grants| ensures ReadOk(db', p, facts.grants[i]) {
        assert facts.grants[i].id in Shared(tx);
        ReadStays(db, db', changed, p, facts.grants[i]);
      }
    case _ =>
  }

  lemma TxStays(db: Db, db': Db, changed: set<GrantId>, tx: Tx)
    requires QuietExcept(db, db', changed) && TxOk(db, tx) && Shared(tx) !! changed
    requires tx.Revoking? ==> TokensUnder(db', tx.grant) <= TokensUnder(db, tx.grant)
    ensures TxOk(db', tx)
  {
    match tx
    case Authorizing(_, _, _, _, _) => PhaseStays(db, db', changed, tx);
    case Creating(p, _) => assert ProfileEvolves(db, db', p);
    case _ => assert GrantEvolves(db, db', tx.grant);
  }

  // A commit by transaction `t` that changes no token list keeps the invariant once its own write is sound.
  lemma CommitKeepsInv(s: State, db': Db, changed: set<GrantId>, t: TxId)
    requires Inv(s) && QuietExcept(s.db, db', changed) && Sound(db') && db'.tokens == s.db.tokens
    requires changed == {} || (t in s.txs && changed <= Exclusive(s.txs[t]))
    ensures Inv(s.(db := db', txs := s.txs - {t}))
  {
    OthersStay(s, db', changed, t);
  }

  lemma OthersStay(s: State, db': Db, changed: set<GrantId>, t: TxId)
    requires Inv(s) && QuietExcept(s.db, db', changed)
    requires changed == {} || (t in s.txs && changed <= Exclusive(s.txs[t]))
    requires forall g :: TokensUnder(db', g) <= TokensUnder(s.db, g)
    ensures forall u :: u in s.txs - {t} ==> TxOk(db', s.txs[u])
  {
    forall u | u in s.txs - {t} ensures TxOk(db', s.txs[u]) {
      assert t in s.txs ==> Exclusive(s.txs[t]) !! Exclusive(s.txs[u]) + Shared(s.txs[u]);
      TxStays(s.db, db', changed, s.txs[u]);
    }
  }

  // ---- Beginning transactions and moving them along ----

  lemma BeginKeepsInv(s: State, t: TxId, tx: Tx)
    requires Inv(s) && TxOk(s.db, tx)
    requires forall u :: u in s.txs && u != t ==>
               && Exclusive(tx) !! Exclusive(s.txs[u]) + Shared(s.txs[u])
               && Exclusive(s.txs[u]) !! Exclusive(tx) + Shared(tx)
    ensures Inv(s.(txs := s.txs[t := tx]))
  {
  }

  lemma BeginCreateOk(s: State, actor: Actor, p: ProfileId, body: GrantBody, gid: GrantId, today: int)
    requires Inv(s) && CreateError(s.db, actor, ExistingProfile(p), body.grantorType, today).None?
    ensures TxOk(s.db, Creating(p, NewGrant(gid, actor, body)))
  {
    assert PreNeedOk(s.db, p);
  }

  lemma {:induction false} RowsMeaning(db: Db, p: ProfileId, ids: seq<GrantId>, g: GrantId)
    ensures g in RowsOf(db, p, ids) <==> g in ids && g in db.grants && db.grants[g].profile == p
  {
    if ids != [] {
      RowsMeaning(db, p, ids[1..], g);
      assert g in ids <==> g == ids[0] || g in ids[1..];
    }
  }

  lemma StartScanOk(db: Db, p: ProfileId, death: Option<int>)
    requires WellFormed(db) && DeathOk(db, p, death)
    ensures PhaseOk(db, p, Scanning(death, RowsOf(db, p, db.order), []))
  {
    var todo := RowsOf(db, p, db.order);
    forall u | u in PreNeedGrantors(db, p) ensures HoldsPreNeedAmong(db, u, todo) {
      var g :|
        g in db.grants && db.grants[g].profile == p && db.grants[g].facts.grantorType.SelfPreNeed?
        && db.grants[g].facts.grantor == u;
      RowsMeaning(db, p, db.order, g);
    }
    forall i | 0 <= i < |todo| ensures todo[i] in db.grants && db.grants[todo[i]].profile == p {
      RowsMeaning(db, p, db.order, todo[i]);
    }
  }

  lemma LockNextOk(db: Db, p: ProfileId, phase: Phase)
    requires WellFormed(db) && phase.Scanning? && phase.todo != [] && PhaseOk(db, p, phase)
    ensures PhaseOk(db, p, Scanning(phase.death, phase.todo[1..], phase.read + [db.grants[phase.todo[0]].facts]))
  {
    var todo, read := phase.todo[1..], phase.read + [db.grants[phase.todo[0]].facts];
    assert RowOk(db, phase.todo[0]);
    forall u | u in PreNeedGrantors(db, p) ensures HoldsPreNeed(u, read) || HoldsPreNeedAmong(db, u, todo) {
      if HoldsPreNeed(u, phase.read) {
        var i :| 0 <= i < |phase.read| && phase.read[i].grantorType.SelfPreNeed? && phase.read[i].grantor == u;
        assert read[i] == phase.read[i];
      } else {
        var g :|
          g in phase.todo && g in db.grants && db.grants[g].facts.grantorType.SelfPreNeed?
          && db.grants[g].facts.grantor == u;
        if g == phase.todo[0] { assert read[|phase.read|] == db.grants[g].facts; } else { assert g in todo; }
      }
    }
  }

  /** What a committing authorization read is enough: an allowed use action has a justified token. */
  lemma AllowedIsEarned(db: Db, tx: Tx, c: Claims)
    requires Sound(db) && tx.Authorizing? && tx.phase.FactsRead? && PhaseOk(db, tx.profile, tx.phase)
    requires Decided(tx).allowed && IsUse(tx.action)
    requires c.user == tx.actor.userId && c.action == tx.action && c.profile == tx.profile
    requires c.grant == Decided(tx).grantId && c.purpose == ActionPurpose(tx.action)
    ensures TokenOk(db, RowOf(c)) && c.grant.Some? && c.grant.value in Shared(tx)
  {
    var user := tx.actor.userId;
    AllowedExactlyWhen(tx.action, tx.declared, tx.actor, tx.phase.facts);
    var facts := tx.phase.facts.value;
    assert facts.grants != [];
    UseDecision(tx.action, tx.declared, tx.actor, facts);
    var i :| Passes(tx.action, tx.actor.userId, facts, i) && c.grant == Some(facts.grants[i].id);
    var f := facts.grants[i];
    assert ReadOk(db, tx.profile, f);
    QuorumGrows(f, db.grants[f.id].facts);
    assert !HoldsPreNeed(user, facts.grants);
  }

  lemma RightsGrantIsRead(tx: Tx)
    requires tx.Authorizing? && tx.phase.FactsRead? && Decided(tx).allowed && Decided(tx).grantId.Some?
             && !IsUse(tx.action)
    ensures Decided(tx).grantId.value in Shared(tx)
  {
    FirstOwnedIn(tx.actor.userId, tx.phase.facts.value.grants, 0);
  }

  lemma {:induction false} FirstOwnedIn(user: UserId, grants: seq<Grant>, from: nat)
    requires from <= |grants| && FirstOwned(user, grants, from).Some?
    ensures FirstOwned(user, grants, from).value in Ids(grants)
    decreases |grants| - from
  {
    if !OwnsVerified(user, grants[from]) { FirstOwnedIn(user, grants, from + 1); }
  }

  lemma CommitAuthorizeKeepsInv(s: State, t: TxId, jti: Jti, now: real, ttl: int, durable: bool)
    requires Inv(s) && Enabled(s, CommitAuthorize(t, jti, now, ttl, durable)) && Decided(s.txs[t]).allowed
    ensures Inv(Do(s, CommitAuthorize(t, jti, now, ttl, durable)))
  {
    var tx := s.txs[t];
    var c := ClaimsFor(tx, jti, now, ttl);
    if IsUse(tx.action) { AllowedIsEarned(s.db, tx, c); }
    else if c.grant.Some? { RightsGrantIsRead(tx); }
    if durable { IssueKeepsSound(s.db, c); } else { SameTablesEvolve(s.db, s.db); }
    IssueKeepsTxs(s, t, c, if durable then AfterIssue(s.db, c) else s.db);
  }

  // A token names a grant its transaction still share-locks, so no revocation of that grant has marked tokens.
  lemma IssueKeepsTxs(s: State, t: TxId, c: Claims, db': Db)
    requires Inv(s) && t in s.txs && c.jti !in s.signed && 1 <= c.exp - c.iat <= MAX_TOKEN_TTL_SECONDS
    requires c.grant.Some? ==> c.grant.value in Shared(s.txs[t])
    requires db' == s.db || db' == AfterIssue(s.db, c)
    requires Sound(db') && Evolves(s.db, db')
    ensures Inv(State(db', s.signed[c.jti := c], s.txs - {t}))
  {
    forall u | u in s.txs - {t} ensures TxOk(db', s.txs[u]) {
      IssueKeepsTx(s, t, c, db', u);
    }
    IssuedStaySigned(s, c, db');
  }

  lemma IssuedStaySigned(s: State, c: Claims, db': Db)
    requires SignedOk(s.db, s.signed) && c.jti !in s.signed && 1 <= c.exp - c.iat <= MAX_TOKEN_TTL_SECONDS
    requires db' == s.db || db' == AfterIssue(s.db, c)
    ensures SignedOk(db', s.signed[c.jti := c])
  {
  }

  lemma IssueKeepsTx(s: State, t: TxId, c: Claims, db': Db, u: TxId)
    requires Inv(s) && t in s.txs && u in s.txs && u != t && (c.grant.Some? ==> c.grant.value in Shared(s.txs[t]))
    requires (db' == s.db || db' == AfterIssue(s.db, c)) && Evolves(s.db, db')
    ensures TxOk(db', s.txs[u])
  {
    if s.txs[u].Revoking? {
      assert Exclusive(s.txs[u]) !! Exclusive(s.txs[t]) + Shared(s.txs[t]);
      assert s.txs[u].grant in Exclusive(s.txs[u]);
      NoNewTokenUnder(s.db, db', c, s.txs[u].grant);
    }
    TxStays(s.db, db', {}, s.txs[u]);
  }

  lemma NoNewTokenUnder(db: Db, db': Db, c: Claims, g: GrantId)
    requires db' == db || db' == AfterIssue(db, c)
    requires c.grant != Some(g)
    ensures TokensUnder(db', g) <= TokensUnder(db, g)
  {
  }

  lemma RevokedTokensKeepInv(s: State, db': Db, marked: set<Jti>, changed: set<GrantId>, t: TxId)
    requires Inv(s) && QuietExcept(s.db, db', changed) && Sound(db') && db'.tokens == RevokeTokens(s.db.tokens, marked)
    requires changed == {} || (t in s.txs && changed <= Exclusive(s.txs[t]))
    ensures Inv(s.(db := db', txs := s.txs - {t}))
  {
    OthersStay(s, db', changed, t);
    RevokedStaySigned(s.db, db', s.signed);
  }

  lemma RevokedStaySigned(db: Db, db': Db, signed: map<Jti, Claims>)
    requires SignedOk(db, signed) && db'.tokens.Keys == db.tokens.Keys
    requires forall j :: j in db.tokens ==> db'.tokens[j] == db.tokens[j].(revoked := db'.tokens[j].revoked)
    ensures SignedOk(db', signed)
  {
  }

  lemma CascadeKeepsInv(s: State, g: GrantId)
    requires Inv(s) && Enabled(s, CascadeRevokesTokens(g))
    ensures Inv(Do(s, CascadeRevokesTokens(g)))
  {
    var db' := Do(s, CascadeRevokesTokens(g)).db;
    CascadeKeepsSound(s.db, g);
    RevokedStaySigned(s.db, db', s.signed);
    forall u | u in s.txs ensures TxOk(db', s.txs[u]) { TxStays(s.db, db', {}, s.txs[u]); }
  }

  lemma CascadeKeepsSound(db: Db, g: GrantId)
    requires Sound(db)
    ensures var db' := db.(tokens := RevokeTokens(db.tokens, TokensUnder(db, g))); Evolves(db, db') && Sound(db')
  {
    var db' := db.(tokens := RevokeTokens(db.tokens, TokensUnder(db, g)));
    forall j | j in db'.tokens ensures TokenOk(db, db'.tokens[j]) { assert TokenOk(db, db.tokens[j]); }
    SameTablesEvolve(db, db');
  }

  lemma DeathKeepsSound(db: Db, p: ProfileId, day: int)
    requires Sound(db) && p in db.deaths && db.deaths[p].None?
    ensures var db' := db.(deaths := db.deaths[p := Some(day)]); QuietExcept(db, db', {}) && Sound(db')
  {
    var db' := db.(deaths := db.deaths[p := Some(day)]);
    ProfileWrite(db, db');
  }

  lemma DesignateKeepsSound(db: Db, p: ProfileId, user: UserId)
    requires Sound(db) && p in db.deaths
    ensures var db' := db.(successors := db.successors[p := SuccessorsOf(db, p) + {user}]);
            QuietExcept(db, db', {}) && Sound(db')
  {
    ProfileWrite(db, db.(successors := db.successors[p := SuccessorsOf(db, p) + {user}]));
  }

  // A write to profile rows and successors only.
  lemma ProfileWrite(db: Db, db': Db)
    requires Sound(db) && db' == db.(deaths := db'.deaths, successors := db'.successors)
    requires db'.deaths.Keys == db.deaths.Keys
    requires forall p :: p in db.deaths ==>
      (db.deaths[p].Some? ==> db'.deaths[p] == db.deaths[p]) && (db.deaths[p].None? || db'.deaths[p].Some?)
      && SuccessorsOf(db, p) <= SuccessorsOf(db', p)
    ensures QuietExcept(db, db', {}) && Sound(db')
  {
    assert forall p :: PreNeedGrantors(db', p) == PreNeedGrantors(db, p);
    forall g | g in db.grants ensures RowOk(db', g) && GrantEvolves(db, db', g) { assert RowOk(db, g); }
    forall p | p in db.deaths ensures PreNeedOk(db', p) && ProfileEvolves(db, db', p) { assert PreNeedOk(db, p); }
    TokensStaySound(db, db');
  }

  // ---- Every step, every run ----

  lemma PhaseKeepsInv(s: State, t: TxId, phase: Phase)
    requires Inv(s) && t in s.txs && s.txs[t].Authorizing? && PhaseOk(s.db, s.txs[t].profile, phase)
    requires forall g :: g in Shared(s.txs[t].(phase := phase)) ==> g in Shared(s.txs[t]) || MayShare(s, g)
    ensures Inv(InPhaseNow(s, t, phase))
  {
    var tx := s.txs[t].(phase := phase);
    forall u | u in s.txs && u != t ensures Exclusive(s.txs[u]) !! Exclusive(tx) + Shared(tx) {
      assert Exclusive(s.txs[u]) !! Exclusive(s.txs[t]) + Shared(s.txs[t]);
    }
    BeginKeepsInv(s, t, tx);
  }

  lemma ReadingKeepsInv(s: State, step: Step)
    requires Inv(s) && Enabled(s, step)
    requires step.ReadProfile? || step.StartScan? || step.ReadSuccessors?
    ensures Inv(Do(s, step))
  {
    var t := step.tx;
    assert TxOk(s.db, s.txs[t]);
    if step.StartScan? { StartScanOk(s.db, s.txs[t].profile, s.txs[t].phase.death); }
    PhaseKeepsInv(s, t, Do(s, step).txs[t].phase);
  }

  lemma LockNextKeepsInv(s: State, t: TxId)
    requires Inv(s) && Enabled(s, LockNextGrant(t))
    ensures Inv(Do(s, LockNextGrant(t)))
  {
    var tx := s.txs[t];
    assert TxOk(s.db, tx);
    LockNextOk(s.db, tx.profile, tx.phase);
    var g := tx.phase.todo[0];
    assert RowOk(s.db, g);
    SharesOneMore(tx.phase.read, s.db.grants[g].facts);
    PhaseKeepsInv(s, t, Do(s, LockNextGrant(t)).txs[t].phase);
  }

  lemma SharesOneMore(read: seq<Grant>, f: Grant)
    ensures Ids(read + [f]) == Ids(read) + {f.id}
  {
    var more := read + [f];
    assert more[|read|] == f;
    forall i | 0 <= i < |read| ensures more[i] == read[i] {}
    forall g | g in Ids(read) ensures g in Ids(more) {
      var i :| 0 <= i < |read| && read[i].id == g;
      assert more[i].id == g;
    }
  }

  lemma CreateStepKeepsInv(s: State, step: Step)
    requires Inv(s) && Enabled(s, step) && (step.CreateWithProfile? || step.CommitCreate?)
    ensures Inv(Do(s, step))
  {
    match step
    case CreateWithProfile(actor, p, death, body, gid, pos, today) =>
      var db' := Do(s, step).db;
      CreateKeepsSound(s.db, NewProfile(p, death), NewGrant(gid, actor, body), pos);
      forall u | u in s.txs ensures TxOk(db', s.txs[u]) { TxStays(s.db, db', {}, s.txs[u]); }
    case CommitCreate(t, pos) =>
      assert TxOk(s.db, s.txs[t]);
      CreateKeepsSound(s.db, ExistingProfile(s.txs[t].profile), s.txs[t].row, pos);
      CommitKeepsInv(s, Do(s, step).db, {}, t);
  }

  lemma CommitVerifyKeepsInv(s: State, step: Step)
    requires Inv(s) && Enabled(s, step) && step.CommitVerify?
    ensures Inv(Do(s, step))
  {
    var g := s.txs[step.tx].grant;
    VerifyKeepsSound(s.db, g);
    CommitKeepsInv(s, AfterVerify(s.db, g), {g}, step.tx);
  }

  lemma CommitAcknowledgeKeepsInv(s: State, step: Step)
    requires Inv(s) && Enabled(s, step) && step.CommitAcknowledge?
    ensures Inv(Do(s, step))
  {
    var tx := s.txs[step.tx];
    AcknowledgeKeepsSound(s.db, tx.grant, tx.email);
    CommitKeepsInv(s, AfterAcknowledge(s.db, tx.grant, tx.email), {}, step.tx);
  }

  lemma CommitRevokeKeepsInv(s: State, step: Step)
    requires Inv(s) && Enabled(s, step) && step.CommitRevoke?
    ensures Inv(Do(s, step))
  {
    var tx := s.txs[step.tx];
    assert TxOk(s.db, tx);
    RevokeKeepsSound(s.db, tx.grant, tx.marked.value);
    RevokedTokensKeepInv(s, AfterRevoke(s.db, tx.grant, tx.marked.value), tx.marked.value, {tx.grant}, step.tx);
  }

  lemma UnlockedWriteKeepsInv(s: State, step: Step)
    requires Inv(s) && Enabled(s, step) && (step.RecordDeath? || step.DesignateSuccessor?)
    ensures Inv(Do(s, step))
  {
    var db' := Do(s, step).db;
    match step {
      case RecordDeath(p, day) => DeathKeepsSound(s.db, p, day);
      case DesignateSuccessor(p, user) => DesignateKeepsSound(s.db, p, user);
    }
    forall u | u in s.txs ensures TxOk(db', s.txs[u]) { TxStays(s.db, db', {}, s.txs[u]); }
  }

  lemma BeginStepKeepsInv(s: State, step: Step)
    requires Inv(s) && Enabled(s, step)
    requires step.BeginCreate? || step.BeginAcknowledge? || step.BeginAuthorize?
    ensures Inv(Do(s, step))
  {
    if step.BeginCreate? {
      BeginCreateOk(s, step.actor, step.profile, step.body, step.gid, step.today);
    }
    BeginKeepsInv(s, step.tx, Do(s, step).txs[step.tx]);
  }

  // Taking a grant's exclusive lock, or keeping it.
  lemma LockStepKeepsInv(s: State, step: Step)
    requires Inv(s) && Enabled(s, step)
    requires step.BeginVerify? || step.BeginRevoke? || step.MarkTokens?
    ensures Inv(Do(s, step))
  {
    if step.MarkTokens? { assert TxOk(s.db, s.txs[step.tx]); }
    BeginKeepsInv(s, step.tx, Do(s, step).txs[step.tx]);
  }

  lemma StepKeepsInv(s: State, step: Step)
    requires Inv(s) && Enabled(s, step)
    ensures Inv(Do(s, step))
  {
    match step
    case CreateWithProfile(_, _, _, _, _, _, _) => CreateStepKeepsInv(s, step);
    case CommitCreate(_, _) => CreateStepKeepsInv(s, step);
    case CommitVerify(_) => CommitVerifyKeepsInv(s, step);
    case CommitAcknowledge(_) => CommitAcknowledgeKeepsInv(s, step);
    case CommitRevoke(_) => CommitRevokeKeepsInv(s, step);
    case RecordDeath(_, _) => UnlockedWriteKeepsInv(s, step);
    case DesignateSuccessor(_, _) => UnlockedWriteKeepsInv(s, step);
    case ReadProfile(_) => ReadingKeepsInv(s, step);
    case StartScan(_) => ReadingKeepsInv(s, step);
    case ReadSuccessors(_) => ReadingKeepsInv(s, step);
    case LockNextGrant(t) => LockNextKeepsInv(s, t);
    case CommitAuthorize(t, jti, now, ttl, durable) => AuthorizeStepKeepsInv(s, step);
    case CascadeRevokesTokens(g) => CascadeKeepsInv(s, g);
    case Abort(t) => AbortKeepsInv(s, t);
    case BeginVerify(_, _, _) => LockStepKeepsInv(s, step);
    case BeginRevoke(_, _, _) => LockStepKeepsInv(s, step);
    case MarkTokens(_) => LockStepKeepsInv(s, step);
    case _ => BeginStepKeepsInv(s, step);
  }

  lemma AuthorizeStepKeepsInv(s: State, step: Step)
    requires Inv(s) && Enabled(s, step) && step.CommitAuthorize?
    ensures Inv(Do(s, step))
  {
    if Decided(s.txs[step.tx]).allowed {
      CommitAuthorizeKeepsInv(s, step.tx, step.jti, step.now, step.ttl, step.durable);
    } else {
      AbortKeepsInv(s, step.tx);
    }
  }

  lemma AbortKeepsInv(s: State, t: TxId)
    requires Inv(s) && t in s.txs
    ensures Inv(s.(txs := s.txs - {t}))
  {
  }

  lemma {:induction false} RunKeepsInv(steps: seq<Step>)
    requires Replay(steps).Some?
    ensures Inv(Replay(steps).value)
  {
    if steps != [] {
      RunKeepsInv(steps[..|steps| - 1]);
      StepKeepsInv(Replay(steps[..|steps| - 1]).value, steps[|steps| - 1]);
    }
  }

  /** Whichever of `authorize` and `revoke` took the lock first: once a revocation is committed, no use-action
      token under that grant is live, in any reachable state. */
  lemma NoLiveUseTokenUnderRevokedGrant(steps: seq<Step>, j: Jti)
    requires Replay(steps).Some?
    ensures var db := Replay(steps).value.db;
            j in db.tokens && IsUse(db.tokens[j].action) ==>
              && db.tokens[j].grant.Some? && db.tokens[j].grant.value in db.grants
              && (db.grants[db.tokens[j].grant.value].facts.revoked ==> db.tokens[j].revoked)
  {
    RunKeepsInv(steps);
    var db := Replay(steps).value.db;
    assert j in db.tokens ==> TokenOk(db, db.tokens[j]);
  }

  // The ideal signature: whatever verifies was signed by the issuer.
  ghost predicate Authentic(cred: Credential, s: State) {
    cred.Credential? && cred.signed && cred.claims.Some? ==>
      cred.claims.value.jti in s.signed && s.signed[cred.claims.value.jti] == cred.claims.value
  }

  /** In every run, at every moment: when `validate` accepts a use-action token, the death is recorded, the grant the
      token names meets all six conditions for that person (unrevoked, active, verified, in scope and endorsed by its
      beneficiaries among them), and `decide` on the current facts allows that person that action. */
  lemma AcceptedUseTokenIsStillAllowed(
      steps: seq<Step>, cred: Credential, now: real, action: Action, profile: ProfileId, actor: Actor)
    requires Replay(steps).Some? && Authentic(cred, Replay(steps).value)
    requires Validate(cred, Replay(steps).value.db.tokens, now, action, profile).Ok? && IsUse(action)
    requires actor.userId == Validate(cred, Replay(steps).value.db.tokens, now, action, profile).value.user
             && actor.kind.Human?
    ensures var db := Replay(steps).value.db;
            var c := Validate(cred, db.tokens, now, action, profile).value;
            && c.grant.Some? && c.grant.value in db.grants && db.grants[c.grant.value].profile == profile
            && var f := db.grants[c.grant.value].facts;
            && ServedBy(c.purpose, action)
            && Meets(f, 6, action, c.purpose, actor.userId, SuccessorsOf(db, profile))
            && profile in db.deaths && db.deaths[profile].Some?
            && Decide(action, Some(c.purpose), actor, LoadFacts(db, profile)).allowed
  {
    RunKeepsInv(steps);
    var s := Replay(steps).value;
    var c := Validate(cred, s.db.tokens, now, action, profile).value;
    assert s.db.tokens[c.jti] == RowOf(c);
    assert TokenOk(s.db, s.db.tokens[c.jti]);
    LiveTokenIsStillAllowed(s.db, c.jti, actor);
    PurposesAgree(action, c.purpose);
    EndorsedExactlyWhen(s.db.grants[c.grant.value].facts);
  }
}
