/** The consent service's write handlers, one transaction each, over the tables as mutable state
    (remembrance-consent/app/consent/router.py and kernel.authorize). */
module ConsentService {
  import opened Wrappers
  import opened Kernel
  import opened Tokens
  import opened ConsentStore

  datatype Authorization = Authorization(decision: Decision, token: Option<Claims>)

  class Service {
    var deaths: map<ProfileId, Option<int>>
    var successors: map<ProfileId, set<UserId>>
    var order: seq<GrantId>
    var grants: map<GrantId, GrantRow>
    var tokens: map<Jti, TokenRow>
    var requests: set<GrantId>

    function Tables(): Db
      reads this
    {
      Db(deaths, successors, order, grants, tokens, requests)
    }

    constructor ()
      ensures Tables() == EMPTY && Sound(Tables())
    {
      deaths, successors, order, grants, tokens, requests := map[], map[], [], map[], map[], {};
    }

    /** `gid` is a fresh id and `pos` the place it sorts to by (granted_at, id). */
    method CreateGrant(actor: Actor, where: ProfileChoice, body: GrantBody, today: int, gid: GrantId, pos: nat)
      returns (r: Result<GrantId, ApiError>)
      requires Sound(Tables()) && gid !in grants && pos <= |order| && (where.NewProfile? ==> where.id !in deaths)
      modifies this
      ensures Sound(Tables()) && Evolves(old(Tables()), Tables())
      ensures r.Ok? <==> MayCreate(old(Tables()), actor, where, body.grantorType, today)
      ensures r.Ok? ==> r.value == gid && Tables() == AfterCreate(old(Tables()), where, NewGrant(gid, actor, body), pos)
      ensures r.Ok? ==>
                grants[gid] ==
                  GrantRow(where.id, Grant(gid, body.grantorType, actor.userId, body.scope, true, false, false,
                                                        body.named, {}, body.required))
      ensures r.Err? ==> Tables() == old(Tables())
      ensures r.Err? ==> CreateError(old(Tables()), actor, where, body.grantorType, today) == Some(r.error)
    {
      SameTablesEvolve(Tables(), Tables());
      CreateReasons(Tables(), actor, where, body.grantorType, today);
      if !actor.kind.Human? { return Err(NonHuman); }
      var death: Option<int>;
      if where.NewProfile? {
        if where.death.Some? && where.death.value > today { return Err(DateOfDeathInFuture); }
        death := where.death;
      } else {
        if where.id !in deaths { return Err(NotFound); }
        death := deaths[where.id];
      }
      if body.grantorType.SelfPreNeed? && death.Some? { return Err(PreNeedAfterDeath); }
      if !body.grantorType.SelfPreNeed? && death.None? { return Err(EstateBeforeDeath); }
      if where.ExistingProfile? {
        var refused := CheckAccounts(where.id, actor, body.grantorType);
        if refused.Some? { return Err(refused.value); }
      }
      InsertGrant(where, NewGrant(gid, actor, body), pos);
      return Ok(gid);
    }

    method CheckAccounts(p: ProfileId, actor: Actor, grantorType: GrantorType) returns (e: Option<ApiError>)
      requires Sound(Tables()) && p in deaths
      ensures e == if IsDeceasedActor(actor.userId, LoadFacts(Tables(), p).value) then Some(Deceased)
                   else if grantorType.SelfPreNeed? && !(PreNeedGrantors(Tables(), p) <= {actor.userId})
                   then Some(PreNeedSubjectConflict)
                   else None
    {
      var facts := LoadFacts(Tables(), p).value;
      if IsDeceasedActor(actor.userId, facts) { return Some(Deceased); }
      if grantorType.SelfPreNeed? {
        var other := AnotherHoldsPreNeed(p, actor.userId);
        if other { return Some(PreNeedSubjectConflict); }
      }
      return None;
    }

    method InsertGrant(where: ProfileChoice, row: Grant, pos: nat)
      requires Sound(Tables()) && pos <= |order| && row.id !in grants && row.isActive && !row.revoked
      requires where.NewProfile? ==> where.id !in deaths && (where.death.None? <==> row.grantorType.SelfPreNeed?)
      requires where.ExistingProfile? ==>
                where.id in deaths && (deaths[where.id].None? <==> row.grantorType.SelfPreNeed?)
      requires where.ExistingProfile? && row.grantorType.SelfPreNeed? ==>
                PreNeedGrantors(Tables(), where.id) <= {row.grantor}
      modifies this
      ensures Tables() == AfterCreate(old(Tables()), where, row, pos) && Sound(Tables())
              && Evolves(old(Tables()), Tables())
    {
      assert where.ExistingProfile? ==> PreNeedOk(Tables(), where.id);
      CreateKeepsSound(Tables(), where, row, pos);
      if where.NewProfile? { deaths := deaths[where.id := where.death]; }
      order := order[..pos] + [row.id] + order[pos..];
      grants := grants[row.id := GrantRow(where.id, row)];
    }

    method AnotherHoldsPreNeed(p: ProfileId, user: UserId) returns (found: bool)
      requires WellFormed(Tables()) && p in deaths
      ensures found <==> !(PreNeedGrantors(Tables(), p) <= {user})
    {
      var facts := LoadFacts(Tables(), p).value;
      forall u ensures u in PreNeedGrantors(Tables(), p) <==>
          exists i ::
            0 <= i < |facts.grants| && facts.grants[i].grantorType.SelfPreNeed? && facts.grants[i].grantor == u {
        PreNeedMeaning(Tables(), p, u);
      }
      found := exists i ::
        0 <= i < |facts.grants| && facts.grants[i].grantorType.SelfPreNeed? && facts.grants[i].grantor != user;
      if found {
        ghost var i :|
          0 <= i < |facts.grants| && facts.grants[i].grantorType.SelfPreNeed? && facts.grants[i].grantor != user;
        assert facts.grants[i].grantor in PreNeedGrantors(Tables(), p);
      }
    }

    method VerifyAuthority(actor: Actor, g: GrantId) returns (r: Result<(), ApiError>)
      requires Sound(Tables())
      modifies this`grants
      ensures Sound(Tables()) && Evolves(old(Tables()), Tables())
      ensures r.Ok? <==> MayVerify(old(Tables()), actor, g)
      ensures r.Ok? ==> Tables() == AfterVerify(old(Tables()), g) && grants[g].facts.verified
      ensures r.Err? ==> Tables() == old(Tables())
      ensures r.Err? ==> VerifyError(old(Tables()), actor, g) == Some(r.error)
    {
      SameTablesEvolve(Tables(), Tables());
      if !actor.isAdmin { return Err(AdminRequired); }
      if !actor.kind.Human? { return Err(NonHuman); }
      if g !in grants { return Err(NotFound); }
      var row := grants[g];
      if row.facts.grantor == actor.userId { return Err(SelfVerification); }
      if row.facts.revoked { return Err(GrantIsRevoked); }
      if row.facts.verified { return Err(AlreadyVerified); }
      VerifyKeepsSound(Tables(), g);
      grants := grants[g := row.(facts := row.facts.(verified := true))];
      return Ok(());
    }

    method Acknowledge(actor: Actor, g: GrantId) returns (r: Result<(), ApiError>)
      requires Sound(Tables())
      modifies this`grants
      ensures Sound(Tables()) && Evolves(old(Tables()), Tables())
      ensures r.Ok? <==> MayAcknowledge(old(Tables()), actor, g)
      ensures r.Ok? ==> actor.email.Some? && actor.email.value in old(grants[g].facts.named)
      ensures r.Ok? ==> Tables() == AfterAcknowledge(old(Tables()), g, actor.email.value)
      ensures r.Ok? ==> actor.email.value in grants[g].facts.acknowledged
      ensures r.Err? ==> Tables() == old(Tables())
      ensures r.Err? ==> AcknowledgeError(old(Tables()), actor, g) == Some(r.error)
    {
      SameTablesEvolve(Tables(), Tables());
      AcknowledgeReasons(Tables(), actor, g);
      RequireErrorMeaning(Tables(), actor, g, {Beneficiary});
      var refused := RequireError(Tables(), actor, g, {Beneficiary});
      if refused.Some? { return Err(refused.value); }
      var row := grants[g];
      if row.facts.revoked { return Err(GrantIsRevoked); }
      if actor.email.value in row.facts.acknowledged { return Err(AlreadyAcknowledged); }
      AcknowledgeKeepsSound(Tables(), g, actor.email.value);
      grants := grants[g := row.(facts := row.facts.(acknowledged := row.facts.acknowledged + {actor.email.value}))];
      return Ok(());
    }

    /** Returns how many tokens the revocation invalidated; repeating it changes nothing. */
    method Revoke(actor: Actor, g: GrantId) returns (r: Result<nat, ApiError>)
      requires Sound(Tables())
      modifies this`grants, this`tokens, this`requests
      ensures Sound(Tables()) && Evolves(old(Tables()), Tables())
      ensures r.Ok? <==> MayAct(old(Tables()), actor, g, {Owner, Beneficiary, Successor, Admin})
      ensures r.Err? ==> Tables() == old(Tables())
      ensures r.Err? ==> RequireError(old(Tables()), actor, g, {Owner, Beneficiary, Successor, Admin}) == Some(r.error)
      ensures r.Ok? ==> grants[g].facts.revoked && g in requests
      ensures r.Ok? && !old(grants[g].facts.revoked && g in requests) ==> OnlyTokensOfRevoked(old(tokens), tokens, g)
      ensures r.Ok? && old(grants[g].facts.revoked && g in requests) ==> r.value == 0 && Tables() == old(Tables())
      ensures r.Ok? && !old(grants[g].facts.revoked && g in requests) ==> r.value == |TokensUnder(old(Tables()), g)|
      ensures r.Ok? && !old(grants[g].facts.revoked && g in requests) ==> TokensUnder(Tables(), g) == {}
      ensures r.Ok? && !old(grants[g].facts.revoked && g in requests) ==>
                Tables() == AfterRevoke(old(Tables()), g, TokensUnder(old(Tables()), g))
    {
      SameTablesEvolve(Tables(), Tables());
      RequireErrorMeaning(Tables(), actor, g, {Owner, Beneficiary, Successor, Admin});
      var refused := RequireError(Tables(), actor, g, {Owner, Beneficiary, Successor, Admin});
      if refused.Some? { return Err(refused.value); }
      var row := grants[g];
      if row.facts.revoked && g in requests { return Ok(0); }
      var invalidated := InvalidateGrant(g);
      return Ok(invalidated);
    }

    method InvalidateGrant(g: GrantId) returns (invalidated: nat)
      requires Sound(Tables()) && g in grants
      modifies this`grants, this`tokens, this`requests
      ensures Tables() == AfterRevoke(old(Tables()), g, TokensUnder(old(Tables()), g))
      ensures Sound(Tables()) && Evolves(old(Tables()), Tables())
      ensures invalidated == |TokensUnder(old(Tables()), g)| && TokensUnder(Tables(), g) == {}
      ensures OnlyTokensOfRevoked(old(tokens), tokens, g)
    {
      ghost var before := Tables();
      var marked := TokensUnder(Tables(), g);
      grants := grants[g := grants[g].(facts := grants[g].facts.(revoked := true, isActive := false))];
      tokens := RevokeTokens(tokens, marked);
      requests := requests + {g};
      assert Tables() == AfterRevoke(before, g, marked);
      RevokeKeepsSound(before, g, marked);
      RevokeLeavesNone(before, g);
      invalidated := |marked|;
    }

    /** The decision and the token row commit together; `jti` is fresh. */
    method Authorize(
        action: Action, declared: Option<Purpose>, actor: Actor, p: ProfileId, jti: Jti, now: real, ttl: int)
      returns (r: Authorization)
      requires Sound(Tables()) && jti !in tokens && 1 <= ttl <= MAX_TOKEN_TTL_SECONDS
      modifies this`tokens
      ensures Sound(Tables()) && Evolves(old(Tables()), Tables())
      ensures r.decision == Decide(action, declared, actor, LoadFacts(old(Tables()), p))
      ensures r.token.Some? <==> r.decision.allowed
      ensures r.token.Some? ==>
                && r.token.value ==
                  Issue(jti, actor.userId, action, p, r.decision.grantId, ActionPurpose(action), now, ttl)
                && tokens == old(tokens)[jti := RowOf(r.token.value)]
                && (IsUse(action) ==> Earned(Tables(), tokens[jti]))
      ensures r.token.None? ==> tokens == old(tokens)
    {
      SameTablesEvolve(Tables(), Tables());
      var facts := LoadFacts(Tables(), p);
      var decision := DecideRequest(action, declared, actor, facts);
      if !decision.allowed { return Authorization(decision, None); }
      var c := Issue(jti, actor.userId, action, p, decision.grantId, ActionPurpose(action), now, ttl);
      if IsUse(action) { AllowedNowIsEarned(Tables(), action, declared, actor, p, c); }
      RecordToken(c);
      return Authorization(decision, Some(c));
    }

    method RecordToken(c: Claims)
      requires Sound(Tables()) && c.jti !in tokens && TokenOk(Tables(), RowOf(c))
      modifies this`tokens
      ensures Sound(Tables()) && Evolves(old(Tables()), Tables()) && tokens == old(tokens)[c.jti := RowOf(c)]
      ensures TokenOk(Tables(), tokens[c.jti])
    {
      IssueKeepsSound(Tables(), c);
      tokens := tokens[c.jti := RowOf(c)];
      assert Tables() == AfterIssue(old(Tables()), c);
    }
  }

  /** Deciding on the tables as they stand earns the token it issues. */
  lemma AllowedNowIsEarned(db: Db, action: Action, declared: Option<Purpose>, actor: Actor, p: ProfileId, c: Claims)
    requires Sound(db) && IsUse(action)
    requires Decide(action, declared, actor, LoadFacts(db, p)).allowed
    requires c.user == actor.userId && c.action == action && c.profile == p && c.purpose == ActionPurpose(action)
    requires c.grant == Decide(action, declared, actor, LoadFacts(db, p)).grantId
    ensures TokenOk(db, RowOf(c))
  {
    var loaded := LoadFacts(db, p);
    AllowedExactlyWhen(action, declared, actor, loaded);
    var facts := loaded.value;
    assert facts.grants != [];
    UseDecision(action, declared, actor, facts);
    var i :| Passes(action, actor.userId, facts, i) && c.grant == Some(facts.grants[i].id);
    LoadedMeaning(db, p, facts.grants[i]);
    DeceasedMeaning(db, p, actor.userId);
  }
}
