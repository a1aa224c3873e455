/** The consent tables and the transactions that change them
    (remembrance-consent/app/consent/router.py and the writing half of kernel.authorize). */
module ConsentStore {
  import opened Wrappers
  import opened Kernel
  import opened Tokens

  datatype GrantRow = GrantRow(profile: ProfileId, facts: Grant)

  // `deaths` holds one entry per deceased_profile row. `order` lists the grant ids by (granted_at, id);
  // clocks may disagree, so a new grant can sort anywhere in it. `requests` are the revocation_request rows.
  datatype Db = Db(
    deaths: map<ProfileId, Option<int>>, successors: map<ProfileId, set<UserId>>,
    order: seq<GrantId>, grants: map<GrantId, GrantRow>,
    tokens: map<Jti, TokenRow>, requests: set<GrantId>)

  datatype ApiError =
    | NonHuman | DateOfDeathInFuture | NotFound | PreNeedAfterDeath | EstateBeforeDeath | Deceased
    | PreNeedSubjectConflict | AdminRequired | SelfVerification | GrantIsRevoked | AlreadyVerified | AlreadyAcknowledged

  // Where a new grant belongs: a profile created with it, or one that exists.
  datatype ProfileChoice = NewProfile(id: ProfileId, death: Option<int>) | ExistingProfile(id: ProfileId)

  datatype GrantBody = GrantBody(grantorType: GrantorType, scope: set<Purpose>, named: set<Email>,
      required: Option<nat>)

  const EMPTY := Db(map[], map[], [], map[], map[], {})

  // ---- Reading ----

  function SuccessorsOf(db: Db, p: ProfileId): set<UserId> {
    if p in db.successors then db.successors[p] else {}
  }

  function GrantsAmong(db: Db, p: ProfileId, ids: seq<GrantId>): seq<Grant> {
    if ids == [] then []
    else (if ids[0] in db.grants && db.grants[ids[0]].profile == p then [db.grants[ids[0]].facts] else [])
         + GrantsAmong(db, p, ids[1..])
  }

  function LoadFacts(db: Db, p: ProfileId): Option<ProfileFacts> {
    if p in db.deaths then Some(ProfileFacts(db.deaths[p], SuccessorsOf(db, p), GrantsAmong(db, p, db.order))) else None
  }

  function PreNeedGrantors(db: Db, p: ProfileId): set<UserId> {
    set g | g in db.grants && db.grants[g].profile == p && db.grants[g].facts.grantorType.SelfPreNeed? ::
      db.grants[g].facts.grantor
  }

  function TokensUnder(db: Db, g: GrantId): set<Jti> {
    set j | j in db.tokens && db.tokens[j].grant == Some(g) && !db.tokens[j].revoked
  }

  // ---- Checks, first failure first ----

  function CreateError(
      db: Db, actor: Actor, where: ProfileChoice, grantorType: GrantorType, today: int): Option<ApiError> {
    if !actor.kind.Human? then Some(NonHuman)
    else if where.NewProfile? && where.death.Some? && where.death.value > today then Some(DateOfDeathInFuture)
    else if where.ExistingProfile? && where.id !in db.deaths then Some(NotFound)
    else
      var death := if where.NewProfile? then where.death else db.deaths[where.id];
      if grantorType.SelfPreNeed? && death.Some? then Some(PreNeedAfterDeath)
      else if !grantorType.SelfPreNeed? && death.None? then Some(EstateBeforeDeath)
      else if where.ExistingProfile? && IsDeceasedActor(actor.userId, LoadFacts(db, where.id).value) then Some(Deceased)
      else if where.ExistingProfile? && grantorType.SelfPreNeed? && !(PreNeedGrantors(db, where.id) <= {actor.userId})
        then Some(PreNeedSubjectConflict)
      else None
  }

  function VerifyError(db: Db, actor: Actor, g: GrantId): Option<ApiError> {
    if !actor.isAdmin then Some(AdminRequired)
    else if !actor.kind.Human? then Some(NonHuman)
    else if g !in db.grants then Some(NotFound)
    else if db.grants[g].facts.grantor == actor.userId then Some(SelfVerification)
    else if db.grants[g].facts.revoked then Some(GrantIsRevoked)
    else if db.grants[g].facts.verified then Some(AlreadyVerified)
    else None
  }

  // Role and liveness checks on one grant, for an actor needing one of `allowed`.
  function RequireError(db: Db, actor: Actor, g: GrantId, allowed: set<Role>): Option<ApiError> {
    if !actor.kind.Human? then Some(NonHuman)
    else if g !in db.grants || db.grants[g].profile !in db.deaths then Some(NotFound)
    else
      var facts := LoadFacts(db, db.grants[g].profile).value;
      if RolesFor(actor, facts, [db.grants[g].facts]) * allowed == {} then Some(NotFound)
      else if IsDeceasedActor(actor.userId, facts) then Some(Deceased)
      else None
  }

  function AcknowledgeError(db: Db, actor: Actor, g: GrantId): Option<ApiError> {
    var e := RequireError(db, actor, g, {Beneficiary});
    if e.Some? then e
    else if db.grants[g].facts.revoked then Some(GrantIsRevoked)
    else if actor.email.Some? && actor.email.value in db.grants[g].facts.acknowledged then Some(AlreadyAcknowledged)
    else None
  }

  // ---- Writes ----

  function NewGrant(gid: GrantId, actor: Actor, body: GrantBody): Grant {
    Grant(gid, body.grantorType, actor.userId, body.scope, true, false, false, body.named, {}, body.required)
  }

  function AfterCreate(db: Db, where: ProfileChoice, grant: Grant, pos: nat): Db
    requires pos <= |db.order|
  {
    db.(deaths := if where.NewProfile? then db.deaths[where.id := where.death] else db.deaths,
        order := db.order[..pos] + [grant.id] + db.order[pos..],
        grants := db.grants[grant.id := GrantRow(where.id, grant)])
  }

  function Updated(db: Db, g: GrantId, facts: Grant): Db
    requires g in db.grants
  {
    db.(grants := db.grants[g := db.grants[g].(facts := facts)])
  }

  function AfterVerify(db: Db, g: GrantId): Db
    requires g in db.grants
  {
    Updated(db, g, db.grants[g].facts.(verified := true))
  }

  function AfterAcknowledge(db: Db, g: GrantId, email: Email): Db
    requires g in db.grants
  {
    Updated(db, g, db.grants[g].facts.(acknowledged := db.grants[g].facts.acknowledged + {email}))
  }

  function RevokeTokens(tokens: map<Jti, TokenRow>, marked: set<Jti>): map<Jti, TokenRow> {
    map j | j in tokens :: if j in marked then tokens[j].(revoked := true) else tokens[j]
  }

  function AfterRevoke(db: Db, g: GrantId, marked: set<Jti>): Db
    requires g in db.grants
  {
    Updated(db, g, db.grants[g].facts.(revoked := true, isActive := false))
    .(tokens := RevokeTokens(db.tokens, marked), requests := db.requests + {g})
  }

  function AfterIssue(db: Db, c: Claims): Db {
    db.(tokens := db.tokens[c.jti := RowOf(c)])
  }

  // ---- What every committed database satisfies ----

  ghost predicate WellFormed(db: Db) {
    && (forall g :: g in db.order <==> g in db.grants)
    && (forall g :: g in db.grants ==> RowOk(db, g))
  }

  ghost predicate RowOk(db: Db, g: GrantId)
    requires g in db.grants
  {
    var row := db.grants[g];
    row.facts.id == g && row.profile in db.deaths && (row.facts.revoked <==> !row.facts.isActive)
  }

  // One account holds all pre-need consent on a profile, and a living profile has some.
  ghost predicate PreNeedOk(db: Db, p: ProfileId)
    requires p in db.deaths
  {
    && (forall u, v :: u in PreNeedGrantors(db, p) && v in PreNeedGrantors(db, p) ==> u == v)
    && (db.deaths[p].None? ==> PreNeedGrantors(db, p) != {})
  }

  // What an issued use token rests on, whatever happened to the token since.
  ghost predicate Earned(db: Db, t: TokenRow) {
    && t.grant.Some? && t.grant.value in db.grants
    && var row := db.grants[t.grant.value];
    && row.profile == t.profile && t.profile in db.deaths && db.deaths[t.profile].Some?
    && row.facts.verified && ActionPurpose(t.action) in row.facts.scope && QuorumMet(row.facts)
    && MayUse(t.action, t.user, row.facts, SuccessorsOf(db, t.profile))
    && t.user !in PreNeedGrantors(db, t.profile)
  }

  ghost predicate TokenOk(db: Db, t: TokenRow) {
    && t.purpose == ActionPurpose(t.action)
    && (IsUse(t.action) ==> Earned(db, t) && (!t.revoked ==> !db.grants[t.grant.value].facts.revoked))
  }

  ghost predicate Sound(db: Db) {
    && WellFormed(db)
    && (forall p :: p in db.deaths ==> PreNeedOk(db, p))
    && (forall j :: j in db.tokens ==> TokenOk(db, db.tokens[j]))
  }

  // ---- Facts about reading ----

  lemma {:induction false} AmongMeaning(db: Db, p: ProfileId, ids: seq<GrantId>, f: Grant)
    ensures f in GrantsAmong(db, p, ids) <==>
              exists g :: g in ids && g in db.grants && db.grants[g].profile == p && db.grants[g].facts == f
  {
    if ids != [] {
      AmongMeaning(db, p, ids[1..], f);
      assert forall g :: g in ids <==> g == ids[0] || g in ids[1..];
    }
  }

  lemma LoadedMeaning(db: Db, p: ProfileId, f: Grant)
    requires WellFormed(db) && p in db.deaths
    ensures f in LoadFacts(db, p).value.grants <==> f.id in db.grants && db.grants[f.id] == GrantRow(p, f)
  {
    AmongMeaning(db, p, db.order, f);
    if g :| g in db.order && g in db.grants && db.grants[g].profile == p && db.grants[g].facts == f {
      assert RowOk(db, g);
    }
  }

  lemma PreNeedMeaning(db: Db, p: ProfileId, user: UserId)
    requires WellFormed(db) && p in db.deaths
    ensures var loaded := LoadFacts(db, p).value.grants;
            user in PreNeedGrantors(db, p) <==>
              exists i :: 0 <= i < |loaded| && loaded[i].grantorType.SelfPreNeed? && loaded[i].grantor == user
  {
    var loaded := LoadFacts(db, p).value.grants;
    if i :| 0 <= i < |loaded| && loaded[i].grantorType.SelfPreNeed? && loaded[i].grantor == user {
      LoadedMeaning(db, p, loaded[i]);
    }
    if user in PreNeedGrantors(db, p) {
      var g :|
        g in db.grants && db.grants[g].profile == p && db.grants[g].facts.grantorType.SelfPreNeed?
        && db.grants[g].facts.grantor == user;
      assert RowOk(db, g);
      LoadedMeaning(db, p, db.grants[g].facts);
    }
  }

  lemma DeceasedMeaning(db: Db, p: ProfileId, user: UserId)
    requires WellFormed(db) && p in db.deaths
    ensures IsDeceasedActor(user, LoadFacts(db, p).value) <==> db.deaths[p].Some? && user in PreNeedGrantors(db, p)
  {
    PreNeedMeaning(db, p, user);
  }

  // ---- Who may write, by the rows alone ----

  /** Estate consent comes after the death, and not from the account of the dead; pre-need consent comes before it, and
      only from the one account that holds any. */
  predicate MayCreate(db: Db, actor: Actor, where: ProfileChoice, grantorType: GrantorType, today: int) {
    && actor.kind.Human?
    && (where.NewProfile? && grantorType.SelfPreNeed? ==> where.death.None?)
    && (where.NewProfile? && !grantorType.SelfPreNeed? ==> where.death.Some? && where.death.value <= today)
    && (where.ExistingProfile? ==> where.id in db.deaths)
    && (where.ExistingProfile? && grantorType.SelfPreNeed? ==>
          db.deaths[where.id].None? && PreNeedGrantors(db, where.id) <= {actor.userId})
    && (where.ExistingProfile? && !grantorType.SelfPreNeed? ==>
          db.deaths[where.id].Some? && actor.userId !in PreNeedGrantors(db, where.id))
  }

  predicate MayVerify(db: Db, actor: Actor, g: GrantId) {
    && actor.isAdmin && actor.kind.Human?
    && g in db.grants && db.grants[g].facts.grantor != actor.userId
    && !db.grants[g].facts.revoked && !db.grants[g].facts.verified
  }

  predicate IsTied(db: Db, actor: Actor, g: GrantId, allowed: set<Role>)
    requires g in db.grants
  {
    || Public in allowed
    || (Admin in allowed && actor.isAdmin)
    || (Successor in allowed && actor.userId in SuccessorsOf(db, db.grants[g].profile))
    || (Owner in allowed && actor.userId == db.grants[g].facts.grantor)
    || (Beneficiary in allowed && actor.email.Some? && actor.email.value in db.grants[g].facts.named)
  }

  /** A living person that one of the allowed roles ties to the grant. */
  predicate MayAct(db: Db, actor: Actor, g: GrantId, allowed: set<Role>) {
    && actor.kind.Human? && g in db.grants && db.grants[g].profile in db.deaths
    && IsTied(db, actor, g, allowed)
    && !(db.deaths[db.grants[g].profile].Some? && actor.userId in PreNeedGrantors(db, db.grants[g].profile))
  }

  predicate MayAcknowledge(db: Db, actor: Actor, g: GrantId) {
    && MayAct(db, actor, g, {Beneficiary})
    && !db.grants[g].facts.revoked && actor.email.value !in db.grants[g].facts.acknowledged
  }

  lemma RolesMeaning(actor: Actor, facts: ProfileFacts, grant: Grant, allowed: set<Role>)
    ensures RolesFor(actor, facts, [grant]) * allowed != {} <==>
      || Public in allowed
      || (Admin in allowed && actor.isAdmin)
      || (Successor in allowed && actor.userId in facts.successors)
      || (Owner in allowed && actor.userId == grant.grantor)
      || (Beneficiary in allowed && actor.email.Some? && actor.email.value in grant.named)
  {
    var roles := RolesFor(actor, facts, [grant]);
    assert [grant][0] == grant;
    assert roles * allowed != {} <==>
      Public in allowed || (Admin in roles && Admin in allowed) || (Successor in roles && Successor in allowed)
      || (Owner in roles && Owner in allowed) || (Beneficiary in roles && Beneficiary in allowed) by {
      assert Public in roles;
      if roles * allowed != {} {
        var r :| r in roles * allowed;
      }
    }
  }

  lemma RequireErrorMeaning(db: Db, actor: Actor, g: GrantId, allowed: set<Role>)
    requires WellFormed(db)
    ensures RequireError(db, actor, g, allowed).None? <==> MayAct(db, actor, g, allowed)
  {
    if g in db.grants && db.grants[g].profile in db.deaths {
      var p := db.grants[g].profile;
      DeceasedMeaning(db, p, actor.userId);
      RolesMeaning(actor, LoadFacts(db, p).value, db.grants[g].facts, allowed);
    }
  }

  /** A refused creation is told the first of its reasons. */
  lemma CreateReasons(db: Db, actor: Actor, where: ProfileChoice, grantorType: GrantorType, today: int)
    requires WellFormed(db)
    ensures var e := CreateError(db, actor, where, grantorType, today);
            var human := actor.kind.Human?;
            var dated := human && !(where.NewProfile? && where.death.Some? && where.death.value > today);
            var found := dated && (where.ExistingProfile? ==> where.id in db.deaths);
            var dead := found && if where.NewProfile? then where.death.Some? else db.deaths[where.id].Some?;
            var timely := found && (grantorType.SelfPreNeed? <==> !dead);
            var held := where.ExistingProfile? && actor.userId in PreNeedGrantors(db, where.id);
            && (e == Some(NonHuman) <==> !human)
            && (e == Some(DateOfDeathInFuture) <==> human && !dated)
            && (e == Some(NotFound) <==> dated && !found)
            && (e == Some(PreNeedAfterDeath) <==> found && grantorType.SelfPreNeed? && dead)
            && (e == Some(EstateBeforeDeath) <==> found && !grantorType.SelfPreNeed? && !dead)
            && (e == Some(Deceased) <==> timely && dead && held)
            && (e == Some(PreNeedSubjectConflict) <==>
                timely && !dead && where.ExistingProfile? && !(PreNeedGrantors(db, where.id) <= {actor.userId}))
            && (e.None? <==> MayCreate(db, actor, where, grantorType, today))
  {
    if where.ExistingProfile? && where.id in db.deaths { DeceasedMeaning(db, where.id, actor.userId); }
  }

  /** A refused verification is told the first of its reasons. */
  lemma VerifyReasons(db: Db, actor: Actor, g: GrantId)
    ensures var e := VerifyError(db, actor, g);
            var admitted := actor.isAdmin && actor.kind.Human? && g in db.grants;
            var another := admitted && db.grants[g].facts.grantor != actor.userId;
            && (e == Some(AdminRequired) <==> !actor.isAdmin)
            && (e == Some(NonHuman) <==> actor.isAdmin && !actor.kind.Human?)
            && (e == Some(NotFound) <==> actor.isAdmin && actor.kind.Human? && g !in db.grants)
            && (e == Some(SelfVerification) <==> admitted && db.grants[g].facts.grantor == actor.userId)
            && (e == Some(GrantIsRevoked) <==> another && db.grants[g].facts.revoked)
            && (e == Some(AlreadyVerified) <==> another && !db.grants[g].facts.revoked && db.grants[g].facts.verified)
            && (e.None? <==> MayVerify(db, actor, g))
  {
  }

  /** Whoever no allowed role ties to a grant is told that there is none. */
  lemma RequireReasons(db: Db, actor: Actor, g: GrantId, allowed: set<Role>)
    requires WellFormed(db)
    ensures var e := RequireError(db, actor, g, allowed);
            && (e == Some(NonHuman) <==> !actor.kind.Human?)
            && (e == Some(NotFound) <==>
                actor.kind.Human?
                && !(g in db.grants && db.grants[g].profile in db.deaths && IsTied(db, actor, g, allowed)))
            && (e == Some(Deceased) <==>
                && actor.kind.Human? && g in db.grants && db.grants[g].profile in db.deaths
                && IsTied(db, actor, g, allowed) && db.deaths[db.grants[g].profile].Some?
                && actor.userId in PreNeedGrantors(db, db.grants[g].profile))
            && (e.None? <==> MayAct(db, actor, g, allowed))
  {
    RequireErrorMeaning(db, actor, g, allowed);
    if g in db.grants && db.grants[g].profile in db.deaths {
      var p := db.grants[g].profile;
      DeceasedMeaning(db, p, actor.userId);
      RolesMeaning(actor, LoadFacts(db, p).value, db.grants[g].facts, allowed);
    }
  }

  /** A beneficiary's acknowledgment is refused only for a revoked grant or a second time. */
  lemma AcknowledgeReasons(db: Db, actor: Actor, g: GrantId)
    requires WellFormed(db)
    ensures var e := AcknowledgeError(db, actor, g);
            var tied := MayAct(db, actor, g, {Beneficiary});
            && (!tied ==> e == RequireError(db, actor, g, {Beneficiary}))
            && (e == Some(GrantIsRevoked) <==> tied && db.grants[g].facts.revoked)
            && (e == Some(AlreadyAcknowledged) <==>
                tied && !db.grants[g].facts.revoked && actor.email.value in db.grants[g].facts.acknowledged)
            && (e.None? <==> MayAcknowledge(db, actor, g))
  {
    RequireErrorMeaning(db, actor, g, {Beneficiary});
  }

  /** A profile's grants are loaded in the order of the table. */
  lemma {:induction false} LoadedInOrder(db: Db, p: ProfileId, a: seq<GrantId>, b: seq<GrantId>)
    ensures GrantsAmong(db, p, a + b) == GrantsAmong(db, p, a) + GrantsAmong(db, p, b)
  {
    if a == [] {
      assert a + b == b;
    } else {
      assert (a + b)[1..] == a[1..] + b;
      LoadedInOrder(db, p, a[1..], b);
    }
  }

  /** What is loaded of a profile: its death, the successors designated for it, and its grants. */
  lemma LoadedFacts(db: Db, p: ProfileId, user: UserId, f: Grant)
    requires WellFormed(db)
    ensures var facts := LoadFacts(db, p);
            && (facts.None? <==> p !in db.deaths)
            && (facts.Some? ==>
                  && facts.value.dateOfDeath == db.deaths[p]
                  && (user in facts.value.successors <==> p in db.successors && user in db.successors[p])
                  && (f in facts.value.grants <==> f.id in db.grants && db.grants[f.id] == GrantRow(p, f)))
  {
    if p in db.deaths { LoadedMeaning(db, p, f); }
  }

  /** The grant's tokens are revoked now, and every other token is as it was. */
  ghost predicate OnlyTokensOfRevoked(before: map<Jti, TokenRow>, after: map<Jti, TokenRow>, g: GrantId) {
    && after.Keys == before.Keys
    && forall j :: j in before ==>
         after[j] == if before[j].grant == Some(g) then before[j].(revoked := true) else before[j]
  }

  /** In a sound database an unrevoked use token still answers to today's facts: its grant is unrevoked, active,
      verified, in scope and acknowledged, and the kernel would allow the same person the same action again. */
  lemma LiveTokenIsStillAllowed(db: Db, j: Jti, actor: Actor)
    requires Sound(db) && j in db.tokens && IsUse(db.tokens[j].action) && !db.tokens[j].revoked
    requires actor.userId == db.tokens[j].user && actor.kind.Human?
    ensures var t := db.tokens[j];
            && t.grant.Some? && t.grant.value in db.grants
            && var f := db.grants[t.grant.value].facts;
            && !f.revoked && f.isActive && f.verified && t.purpose in f.scope && QuorumMet(f)
            && Decide(t.action, Some(t.purpose), actor, LoadFacts(db, t.profile)).allowed
  {
    var t := db.tokens[j];
    assert TokenOk(db, t);
    var f := db.grants[t.grant.value].facts;
    assert RowOk(db, t.grant.value);
    LoadedMeaning(db, t.profile, f);
    DeceasedMeaning(db, t.profile, actor.userId);
    var facts := LoadFacts(db, t.profile);
    var i :| 0 <= i < |facts.value.grants| && facts.value.grants[i] == f;
    assert Passes(t.action, actor.userId, facts.value, i);
    AllowedExactlyWhen(t.action, Some(t.purpose), actor, facts);
  }

  // ---- How committed databases evolve ----

  ghost predicate FactsEvolve(a: Grant, b: Grant) {
    && b == a.(isActive := b.isActive, revoked := b.revoked, verified := b.verified, acknowledged := b.acknowledged)
    && (a.verified ==> b.verified) && (a.revoked ==> b.revoked) && a.acknowledged <= b.acknowledged
  }

  ghost predicate GrantEvolves(db: Db, db': Db, g: GrantId)
    requires g in db.grants
  {
    g in db'.grants && db'.grants[g].profile == db.grants[g].profile
    && FactsEvolve(db.grants[g].facts, db'.grants[g].facts)
  }

  ghost predicate ProfileEvolves(db: Db, db': Db, p: ProfileId)
    requires p in db.deaths
  {
    && p in db'.deaths && (db.deaths[p].Some? ==> db'.deaths[p] == db.deaths[p])
    && SuccessorsOf(db, p) <= SuccessorsOf(db', p)
    && PreNeedGrantors(db', p) == PreNeedGrantors(db, p)
  }

  ghost predicate Evolves(db: Db, db': Db) {
    && (forall g :: g in db.grants ==> GrantEvolves(db, db', g))
    && (forall p :: p in db.deaths ==> ProfileEvolves(db, db', p))
  }

  lemma EarnedStays(db: Db, db': Db, t: TokenRow)
    requires Evolves(db, db') && Earned(db, t)
    ensures Earned(db', t)
  {
    assert GrantEvolves(db, db', t.grant.value);
    assert ProfileEvolves(db, db', t.profile);
    QuorumGrows(db.grants[t.grant.value].facts, db'.grants[t.grant.value].facts);
  }

  // ---- Each write keeps the database sound ----

  ghost predicate MayInsert(db: Db, where: ProfileChoice, grant: Grant) {
    && grant.id !in db.grants && grant.isActive && !grant.revoked
    && match where
       case NewProfile(p, death) => p !in db.deaths && (death.None? <==> grant.grantorType.SelfPreNeed?)
       case ExistingProfile(p) =>
         p in db.deaths && (grant.grantorType.SelfPreNeed? ==> grant.grantor in PreNeedGrantors(db, p))
  }

  lemma CreatePreNeed(db: Db, where: ProfileChoice, grant: Grant, pos: nat, p: ProfileId)
    requires pos <= |db.order| && grant.id !in db.grants
    ensures PreNeedGrantors(AfterCreate(db, where, grant, pos), p)
         == PreNeedGrantors(db, p) + if p == where.id && grant.grantorType.SelfPreNeed? then {grant.grantor} else {}
  {
    var grants := db.grants[grant.id := GrantRow(where.id, grant)];
    forall u | u in PreNeedGrantors(db, p) ensures u in PreNeedGrantors(AfterCreate(db, where, grant, pos), p) {
      var g :|
        g in db.grants && db.grants[g].profile == p && db.grants[g].facts.grantorType.SelfPreNeed?
        && db.grants[g].facts.grantor == u;
      assert grants[g] == db.grants[g];
    }
    if p == where.id && grant.grantorType.SelfPreNeed? {
      assert grants[grant.id].facts.grantor in PreNeedGrantors(AfterCreate(db, where, grant, pos), p);
    }
  }

  lemma CreateRows(db: Db, where: ProfileChoice, grant: Grant, pos: nat)
    requires WellFormed(db) && pos <= |db.order| && MayInsert(db, where, grant)
    ensures WellFormed(AfterCreate(db, where, grant, pos))
    ensures forall g :: g in db.grants ==> GrantEvolves(db, AfterCreate(db, where, grant, pos), g)
  {
    var db' := AfterCreate(db, where, grant, pos);
    assert db.order == db.order[..pos] + db.order[pos..];
    forall g | g in db'.grants ensures RowOk(db', g) {
      if g != grant.id { assert RowOk(db, g); }
    }
  }

  /** Creating a grant: a pre-need grant on an existing profile must come from the account that already holds
      that profile's pre-need consent, and a new profile is alive exactly when its first grant is pre-need. */
  lemma CreateKeepsSound(db: Db, where: ProfileChoice, grant: Grant, pos: nat)
    requires Sound(db) && pos <= |db.order| && MayInsert(db, where, grant)
    ensures Evolves(db, AfterCreate(db, where, grant, pos)) && Sound(AfterCreate(db, where, grant, pos))
  {
    var db' := AfterCreate(db, where, grant, pos);
    CreateRows(db, where, grant, pos);
    forall p | p in db'.deaths ensures PreNeedOk(db', p) && (p in db.deaths ==> ProfileEvolves(db, db', p)) {
      CreateProfile(db, where, grant, pos, p);
    }
    TokensStaySound(db, db');
  }

  lemma CreateProfile(db: Db, where: ProfileChoice, grant: Grant, pos: nat, p: ProfileId)
    requires Sound(db) && pos <= |db.order| && MayInsert(db, where, grant)
             && p in AfterCreate(db, where, grant, pos).deaths
    ensures PreNeedOk(AfterCreate(db, where, grant, pos), p)
    ensures p in db.deaths ==> ProfileEvolves(db, AfterCreate(db, where, grant, pos), p)
  {
    CreatePreNeed(db, where, grant, pos, p);
    if p in db.deaths { assert PreNeedOk(db, p); } else { NoGrantsBeforeProfile(db, p); }
  }

  lemma NoGrantsBeforeProfile(db: Db, p: ProfileId)
    requires WellFormed(db) && p !in db.deaths
    ensures PreNeedGrantors(db, p) == {}
  {
  }

  // Writes that leave tokens and revocations alone keep every token sound.
  lemma TokensStaySound(db: Db, db': Db)
    requires Sound(db) && Evolves(db, db') && db'.tokens == db.tokens
    requires forall g :: g in db.grants ==> db'.grants[g].facts.revoked == db.grants[g].facts.revoked
    ensures forall j :: j in db'.tokens ==> TokenOk(db', db'.tokens[j])
  {
    forall j | j in db'.tokens ensures TokenOk(db', db'.tokens[j]) {
      assert TokenOk(db, db.tokens[j]);
      if IsUse(db.tokens[j].action) { EarnedStays(db, db', db.tokens[j]); }
    }
  }

  lemma UpdatedRows(db: Db, g: GrantId, facts: Grant)
    requires WellFormed(db) && g in db.grants
    requires FactsEvolve(db.grants[g].facts, facts) && (facts.revoked <==> !facts.isActive)
    ensures WellFormed(Updated(db, g, facts))
    ensures forall h :: h in db.grants ==> GrantEvolves(db, Updated(db, g, facts), h)
  {
  }

  lemma UpdatedPreNeed(db: Db, g: GrantId, facts: Grant, p: ProfileId)
    requires g in db.grants && FactsEvolve(db.grants[g].facts, facts)
    ensures PreNeedGrantors(Updated(db, g, facts), p) == PreNeedGrantors(db, p)
  {
    var grants := Updated(db, g, facts).grants;
    assert forall h :: h in db.grants ==>
      && grants[h].profile == db.grants[h].profile
      && grants[h].facts.grantorType == db.grants[h].facts.grantorType
      && grants[h].facts.grantor == db.grants[h].facts.grantor;
  }

  lemma UpdatedEvolves(db: Db, g: GrantId, facts: Grant)
    requires Sound(db) && g in db.grants
    requires FactsEvolve(db.grants[g].facts, facts) && (facts.revoked <==> !facts.isActive)
    ensures Evolves(db, Updated(db, g, facts)) && WellFormed(Updated(db, g, facts))
    ensures forall p :: p in db.deaths ==> PreNeedOk(Updated(db, g, facts), p)
  {
    UpdatedRows(db, g, facts);
    forall p | p in db.deaths
      ensures PreNeedOk(Updated(db, g, facts), p) && ProfileEvolves(db, Updated(db, g, facts), p)
    {
      UpdatedPreNeed(db, g, facts, p);
      assert PreNeedOk(db, p);
    }
  }

  // Verifying and acknowledging only add to what a grant's tokens rest on.
  lemma UpdateKeepsSound(db: Db, g: GrantId, facts: Grant)
    requires Sound(db) && g in db.grants && FactsEvolve(db.grants[g].facts, facts)
    requires facts.revoked == db.grants[g].facts.revoked && facts.isActive == db.grants[g].facts.isActive
    ensures Evolves(db, Updated(db, g, facts)) && Sound(Updated(db, g, facts))
  {
    assert RowOk(db, g);
    UpdatedEvolves(db, g, facts);
    TokensStaySound(db, Updated(db, g, facts));
  }

  lemma VerifyKeepsSound(db: Db, g: GrantId)
    requires Sound(db) && g in db.grants
    ensures Evolves(db, AfterVerify(db, g)) && Sound(AfterVerify(db, g))
  {
    UpdateKeepsSound(db, g, db.grants[g].facts.(verified := true));
  }

  lemma AcknowledgeKeepsSound(db: Db, g: GrantId, email: Email)
    requires Sound(db) && g in db.grants
    ensures Evolves(db, AfterAcknowledge(db, g, email)) && Sound(AfterAcknowledge(db, g, email))
  {
    UpdateKeepsSound(db, g, db.grants[g].facts.(acknowledged := db.grants[g].facts.acknowledged + {email}));
  }

  lemma RevokeEvolves(db: Db, g: GrantId, marked: set<Jti>)
    requires Sound(db) && g in db.grants
    ensures var db' := AfterRevoke(db, g, marked);
            WellFormed(db') && Evolves(db, db') && forall p :: p in db'.deaths ==> PreNeedOk(db', p)
  {
    var facts := db.grants[g].facts.(revoked := true, isActive := false);
    UpdatedEvolves(db, g, facts);
    SameGrants(db, Updated(db, g, facts), AfterRevoke(db, g, marked));
  }

  lemma TokenAfterRevoke(db: Db, g: GrantId, marked: set<Jti>, j: Jti)
    requires g in db.grants && TokensUnder(db, g) <= marked && j in db.tokens && TokenOk(db, db.tokens[j])
    requires Evolves(db, AfterRevoke(db, g, marked))
    ensures TokenOk(AfterRevoke(db, g, marked), AfterRevoke(db, g, marked).tokens[j])
  {
    var t := db.tokens[j];
    if IsUse(t.action) {
      EarnedStays(db, AfterRevoke(db, g, marked), t);
      assert t.grant == Some(g) && !t.revoked ==> j in TokensUnder(db, g);
    }
  }

  /** Revoking a grant is sound when the marked tokens include every live token under it. */
  lemma RevokeKeepsSound(db: Db, g: GrantId, marked: set<Jti>)
    requires Sound(db) && g in db.grants && TokensUnder(db, g) <= marked
    ensures Evolves(db, AfterRevoke(db, g, marked)) && Sound(AfterRevoke(db, g, marked))
  {
    var db' := AfterRevoke(db, g, marked);
    RevokeEvolves(db, g, marked);
    forall j | j in db'.tokens ensures TokenOk(db', db'.tokens[j]) {
      assert TokenOk(db, db.tokens[j]);
      TokenAfterRevoke(db, g, marked, j);
    }
  }

  lemma RevokeLeavesNone(db: Db, g: GrantId)
    requires g in db.grants
    ensures TokensUnder(AfterRevoke(db, g, TokensUnder(db, g)), g) == {}
  {
  }

  lemma SameGrants(db: Db, mid: Db, db': Db)
    requires WellFormed(mid) && Evolves(db, mid) && db' == mid.(tokens := db'.tokens, requests := db'.requests)
    requires forall p :: p in mid.deaths ==> PreNeedOk(mid, p)
    ensures WellFormed(db') && Evolves(db, db') && forall p :: p in db'.deaths ==> PreNeedOk(db', p)
  {
    assert forall p :: PreNeedGrantors(db', p) == PreNeedGrantors(mid, p);
    forall h | h in db'.grants ensures RowOk(db', h) { assert RowOk(mid, h); }
    forall h | h in db.grants ensures GrantEvolves(db, db', h) { assert GrantEvolves(db, mid, h); }
    forall p | p in db'.deaths ensures PreNeedOk(db', p) { assert PreNeedOk(mid, p); }
    forall p | p in db.deaths ensures ProfileEvolves(db, db', p) { assert ProfileEvolves(db, mid, p); }
  }

  lemma IssueKeepsSound(db: Db, c: Claims)
    requires Sound(db) && c.jti !in db.tokens && TokenOk(db, RowOf(c))
    ensures Evolves(db, AfterIssue(db, c)) && Sound(AfterIssue(db, c))
  {
    var db' := AfterIssue(db, c);
    SameTablesEvolve(db, db');
  }

  // A write that changes only tokens, and only to sound rows.
  lemma SameTablesEvolve(db: Db, db': Db)
    requires Sound(db) && db' == db.(tokens := db'.tokens)
    requires forall j :: j in db'.tokens ==>
              (j in db.tokens && db'.tokens[j] == db.tokens[j]) || TokenOk(db, db'.tokens[j])
    ensures Evolves(db, db') && Sound(db')
  {
    forall p ensures PreNeedGrantors(db', p) == PreNeedGrantors(db, p) {}
    forall g | g in db.grants ensures GrantEvolves(db, db', g) && RowOk(db', g) { assert RowOk(db, g); }
    forall p | p in db.deaths ensures ProfileEvolves(db, db', p) && PreNeedOk(db', p) { assert PreNeedOk(db, p); }
    forall j | j in db'.tokens ensures TokenOk(db', db'.tokens[j]) {
      assert TokenOk(db, db'.tokens[j]);
    }
  }
}
