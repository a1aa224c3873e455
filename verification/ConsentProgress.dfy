/** From every reachable state an authorization that no exclusive lock stands in the way of can be taken to its commit,
    and step by step it decides what the service decides in one transaction
    (remembrance-consent/app/consent/kernel.py, `authorize`). */
module ConsentProgress {
  import opened Wrappers
  import opened Kernel
  import opened Tokens
  import opened ConsentStore
  import opened ConsentRuns

  // No other transaction holds the exclusive lock of one of the profile's grants.
  ghost predicate RowsReadable(s: State, p: ProfileId) {
    forall g :: g in s.db.grants && s.db.grants[g].profile == p ==> MayShare(s, g)
  }

  function With(s: State, t: TxId, tx: Tx): State {
    s.(txs := s.txs[t := tx])
  }

  lemma NextStep(steps: seq<Step>, s: State, step: Step, next: State) returns (steps': seq<Step>)
    requires Replay(steps) == Some(s) && Enabled(s, step) && Do(s, step) == next
    ensures steps' == steps + [step] && Replay(steps') == Some(next)
  {
    steps' := steps + [step];
    assert steps'[..|steps'| - 1] == steps;
  }

  // ---- reading the rows one by one reads what the query returns ----

  function FactsOf(db: Db, ids: seq<GrantId>): seq<Grant>
    requires forall i :: 0 <= i < |ids| ==> ids[i] in db.grants
  {
    if ids == [] then [] else [db.grants[ids[0]].facts] + FactsOf(db, ids[1..])
  }

  ghost predicate RowsOfProfile(db: Db, p: ProfileId, ids: seq<GrantId>) {
    forall i :: 0 <= i < |ids| ==> ids[i] in db.grants && db.grants[ids[i]].profile == p
  }

  lemma {:induction false} RowsAreTheGrants(db: Db, p: ProfileId, ids: seq<GrantId>)
    ensures RowsOfProfile(db, p, RowsOf(db, p, ids)) && FactsOf(db, RowsOf(db, p, ids)) == GrantsAmong(db, p, ids)
  {
    if ids != [] {
      RowsAreTheGrants(db, p, ids[1..]);
      var rest := RowsOf(db, p, ids[1..]);
      if ids[0] in db.grants && db.grants[ids[0]].profile == p {
        assert ([ids[0]] + rest)[1..] == rest;
      } else {
        assert [] + rest == rest;
      }
    }
  }

  // ---- the steps of one authorization ----

  function Reading(action: Action, declared: Option<Purpose>, actor: Actor, p: ProfileId, phase: Phase): Tx {
    Authorizing(action, declared, actor, p, phase)
  }

  lemma Rewritten(s: State, t: TxId, a: Tx, b: Tx)
    ensures With(With(s, t, a), t, b) == With(s, t, b)
  {
    assert s.txs[t := a][t := b] == s.txs[t := b];
  }

  lemma {:induction false} ScanRest(
      steps: seq<Step>, s: State, t: TxId, tx: Tx, death: Option<int>, todo: seq<GrantId>, read: seq<Grant>)
    returns (steps': seq<Step>)
    requires tx.Authorizing? && RowsReadable(s, tx.profile) && RowsOfProfile(s.db, tx.profile, todo) && t !in s.txs
    requires Replay(steps) == Some(With(s, t, tx.(phase := Scanning(death, todo, read))))
    ensures Replay(steps') == Some(With(s, t, tx.(phase := Scanning(death, [], read + FactsOf(s.db, todo)))))
    decreases |todo|
  {
    if todo == [] {
      assert read + FactsOf(s.db, todo) == read;
      steps' := steps;
    } else {
      var now := tx.(phase := Scanning(death, todo, read));
      var more := read + [s.db.grants[todo[0]].facts];
      var next := tx.(phase := Scanning(death, todo[1..], more));
      ScanNext(s, t, tx, death, todo, read);
      steps' := NextStep(steps, With(s, t, now), LockNextGrant(t), With(s, t, next));
      steps' := ScanRest(steps', s, t, tx, death, todo[1..], more);
      assert more + FactsOf(s.db, todo[1..]) == read + FactsOf(s.db, todo);
    }
  }

  lemma ScanNext(s: State, t: TxId, tx: Tx, death: Option<int>, todo: seq<GrantId>, read: seq<Grant>)
    requires tx.Authorizing? && RowsReadable(s, tx.profile) && RowsOfProfile(s.db, tx.profile, todo) && t !in s.txs
    requires todo != []
    ensures var now := With(s, t, tx.(phase := Scanning(death, todo, read)));
            var next := tx.(phase := Scanning(death, todo[1..], read + [s.db.grants[todo[0]].facts]));
            Enabled(now, LockNextGrant(t)) && Do(now, LockNextGrant(t)) == With(s, t, next)
  {
    var now := tx.(phase := Scanning(death, todo, read));
    LockIsFree(s, t, now, todo[0]);
    Rewritten(s, t, now, tx.(phase := Scanning(death, todo[1..], read + [s.db.grants[todo[0]].facts])));
  }

  lemma LockIsFree(s: State, t: TxId, tx: Tx, g: GrantId)
    requires tx.Authorizing? && t !in s.txs && RowsReadable(s, tx.profile)
    requires g in s.db.grants && s.db.grants[g].profile == tx.profile
    ensures MayShare(With(s, t, tx), g)
  {
    assert MayShare(s, g);
    forall u | u in With(s, t, tx).txs ensures g !in Exclusive(With(s, t, tx).txs[u]) {
      assert u != t ==> With(s, t, tx).txs[u] == s.txs[u];
    }
  }

  // Everything up to the decision: the facts read are those a single query would load.
  lemma ReadFacts(
      steps: seq<Step>, s: State, t: TxId, action: Action, declared: Option<Purpose>, actor: Actor, p: ProfileId)
    returns (steps': seq<Step>)
    requires Replay(steps) == Some(s) && t !in s.txs && RowsReadable(s, p)
    ensures Replay(steps') == Some(With(s, t, Reading(action, declared, actor, p, FactsRead(LoadFacts(s.db, p)))))
  {
    var tx := Reading(action, declared, actor, p, Started);
    steps' := NextStep(steps, s, BeginAuthorize(t, action, declared, actor, p), With(s, t, tx));
    if p !in s.db.deaths {
      Rewritten(s, t, tx, tx.(phase := FactsRead(None)));
      steps' := NextStep(steps', With(s, t, tx), ReadProfile(t), With(s, t, tx.(phase := FactsRead(None))));
    } else {
      steps' := ReadGrants(steps', s, t, tx);
    }
  }

  lemma ReadGrants(steps: seq<Step>, s: State, t: TxId, tx: Tx) returns (steps': seq<Step>)
    requires tx.Authorizing? && tx.phase.Started? && t !in s.txs && RowsReadable(s, tx.profile)
    requires tx.profile in s.db.deaths && Replay(steps) == Some(With(s, t, tx))
    ensures Replay(steps') == Some(With(s, t, tx.(phase := FactsRead(LoadFacts(s.db, tx.profile)))))
  {
    var p := tx.profile;
    var death, rows := s.db.deaths[p], RowsOf(s.db, p, s.db.order);
    var loaded := tx.(phase := ProfileRead(death));
    var scanning := tx.(phase := Scanning(death, rows, []));
    var scanned := tx.(phase := Scanning(death, [], GrantsAmong(s.db, p, s.db.order)));
    RowsAreTheGrants(s.db, p, s.db.order);
    Rewritten(s, t, tx, loaded);
    Rewritten(s, t, loaded, scanning);
    Rewritten(s, t, scanned, tx.(phase := FactsRead(LoadFacts(s.db, p))));
    steps' := NextStep(steps, With(s, t, tx), ReadProfile(t), With(s, t, loaded));
    steps' := NextStep(steps', With(s, t, loaded), StartScan(t), With(s, t, scanning));
    steps' := ScanRest(steps', s, t, tx, death, rows, []);
    assert [] + FactsOf(s.db, rows) == FactsOf(s.db, rows);
    steps' := NextStep(steps', With(s, t, scanned), ReadSuccessors(t),
                       With(s, t, tx.(phase := FactsRead(LoadFacts(s.db, p)))));
  }

  function TokenFor(
      db: Db, action: Action, declared: Option<Purpose>, actor: Actor, p: ProfileId, jti: Jti, now: real, ttl: int):
      Claims {
    Issue(jti, actor.userId, action, p, Decide(action, declared, actor, LoadFacts(db, p)).grantId,
          ActionPurpose(action), now, ttl)
  }

  /** Whatever happened before and is under way: unless another transaction holds one of the profile's grants
      exclusively, an authorization can be taken to its commit. It then has done what `Service.Authorize` promises: it
      issued a token exactly when the tables allow it, changed nothing else, and the token is accepted at once. */
  lemma FreeAuthorizeFinishes(
      steps: seq<Step>, s: State, t: TxId, action: Action, declared: Option<Purpose>, actor: Actor, p: ProfileId,
      jti: Jti, now: real, ttl: int)
    returns (steps': seq<Step>)
    requires Replay(steps) == Some(s) && t !in s.txs && RowsReadable(s, p)
    requires jti !in s.signed && 1 <= ttl <= MAX_TOKEN_TTL_SECONDS
    ensures var c := TokenFor(s.db, action, declared, actor, p, jti, now, ttl);
            if Decide(action, declared, actor, LoadFacts(s.db, p)).allowed then
              && Replay(steps') == Some(State(s.db.(tokens := s.db.tokens[jti := RowOf(c)]), s.signed[jti := c], s.txs))
              && Validate(Credential(true, true, true, true, true, true, Some(c)), s.db.tokens[jti := RowOf(c)], now,
                          action, p) == Ok(c)
            else Replay(steps') == Some(s)
  {
    var tx := Reading(action, declared, actor, p, FactsRead(LoadFacts(s.db, p)));
    var c := TokenFor(s.db, action, declared, actor, p, jti, now, ttl);
    steps' := ReadFacts(steps, s, t, action, declared, actor, p);
    assert With(s, t, tx).txs - {t} == s.txs;
    var end := if Decided(tx).allowed then State(AfterIssue(s.db, c), s.signed[jti := c], s.txs) else s;
    steps' := NextStep(steps', With(s, t, tx), CommitAuthorize(t, jti, now, ttl, true), end);
    FreshTokenIsAccepted(c, s.db.tokens, now, ttl, now);
  }

  // ---- nobody else's tokens are revoked ----

  ghost predicate MarkedRightly(db: Db, tx: Tx) {
    tx.Revoking? && tx.marked.Some? ==>
      forall j :: j in tx.marked.value ==> j in db.tokens && db.tokens[j].grant == Some(tx.grant)
  }

  ghost predicate RevokedRightly(db: Db, j: Jti) {
    j in db.tokens && db.tokens[j].revoked ==>
      && db.tokens[j].grant.Some? && db.tokens[j].grant.value in db.grants
      && db.grants[db.tokens[j].grant.value].facts.revoked
  }

  ghost predicate TokensRight(s: State) {
    && (forall t :: t in s.txs ==> MarkedRightly(s.db, s.txs[t]))
    && (forall j :: RevokedRightly(s.db, j))
  }

  lemma TokensKeepTheirGrant(s: State, step: Step, j: Jti)
    requires Enabled(s, step) && j in s.db.tokens && j in s.signed
    ensures j in Do(s, step).db.tokens && Do(s, step).db.tokens[j].grant == s.db.tokens[j].grant
  {
  }

  lemma RevokedGrantsStay(s: State, step: Step, g: GrantId)
    requires Enabled(s, step) && g in s.db.grants && s.db.grants[g].facts.revoked
    ensures g in Do(s, step).db.grants && Do(s, step).db.grants[g].facts.revoked
  {
  }

  lemma MarksStay(s: State, step: Step, t: TxId)
    requires Inv(s) && Enabled(s, step) && TokensRight(s) && t in Do(s, step).txs
    ensures MarkedRightly(Do(s, step).db, Do(s, step).txs[t])
  {
    var tx := Do(s, step).txs[t];
    if tx.Revoking? && tx.marked.Some? {
      forall j | j in tx.marked.value
        ensures j in Do(s, step).db.tokens && Do(s, step).db.tokens[j].grant == Some(tx.grant)
      {
        MarkedBefore(s, step, t, j);
        TokensKeepTheirGrant(s, step, j);
      }
    }
  }

  lemma MarkedBefore(s: State, step: Step, t: TxId, j: Jti)
    requires Enabled(s, step) && TokensRight(s) && t in Do(s, step).txs
    requires var tx := Do(s, step).txs[t]; tx.Revoking? && tx.marked.Some? && j in tx.marked.value
    ensures j in s.db.tokens && s.db.tokens[j].grant == Some(Do(s, step).txs[t].grant)
  {
    if !step.MarkTokens? || step.tx != t { assert MarkedRightly(s.db, s.txs[t]); }
  }

  lemma RevokedStaysRight(s: State, step: Step, j: Jti)
    requires Inv(s) && Enabled(s, step) && TokensRight(s)
    ensures RevokedRightly(Do(s, step).db, j)
  {
    var after := Do(s, step).db;
    if j in after.tokens && after.tokens[j].revoked {
      assert RevokedRightly(s.db, j);
      if j in s.db.tokens && s.db.tokens[j].revoked {
        TokensKeepTheirGrant(s, step, j);
        RevokedGrantsStay(s, step, s.db.tokens[j].grant.value);
      } else {
        NewlyRevoked(s, step, j);
      }
    }
  }

  lemma NewlyRevoked(s: State, step: Step, j: Jti)
    requires Inv(s) && Enabled(s, step) && TokensRight(s)
    requires j in Do(s, step).db.tokens && Do(s, step).db.tokens[j].revoked
    requires !(j in s.db.tokens && s.db.tokens[j].revoked)
    ensures RevokedRightly(Do(s, step).db, j)
  {
    OnlyRevocationsRevoke(s, step, j);
    if step.CommitRevoke? {
      RevokedByCommit(s, step.tx, j);
    } else {
      RevokedByCascade(s, step.grant, j);
    }
  }

  lemma OnlyRevocationsRevoke(s: State, step: Step, j: Jti)
    requires Enabled(s, step)
    requires j in Do(s, step).db.tokens && Do(s, step).db.tokens[j].revoked
    requires !(j in s.db.tokens && s.db.tokens[j].revoked)
    ensures step.CommitRevoke? || step.CascadeRevokesTokens?
  {
  }

  lemma RevokedByCommit(s: State, t: TxId, j: Jti)
    requires Enabled(s, CommitRevoke(t)) && TokensRight(s)
    requires j in Do(s, CommitRevoke(t)).db.tokens && Do(s, CommitRevoke(t)).db.tokens[j].revoked
    requires !(j in s.db.tokens && s.db.tokens[j].revoked)
    ensures RevokedRightly(Do(s, CommitRevoke(t)).db, j)
  {
    assert MarkedRightly(s.db, s.txs[t]);
    assert j in s.txs[t].marked.value;
  }

  lemma RevokedByCascade(s: State, g: GrantId, j: Jti)
    requires Enabled(s, CascadeRevokesTokens(g))
    requires j in Do(s, CascadeRevokesTokens(g)).db.tokens && Do(s, CascadeRevokesTokens(g)).db.tokens[j].revoked
    requires !(j in s.db.tokens && s.db.tokens[j].revoked)
    ensures RevokedRightly(Do(s, CascadeRevokesTokens(g)).db, j)
  {
  }

  lemma {:induction false} RunKeepsTokensRight(steps: seq<Step>)
    requires Replay(steps).Some?
    ensures TokensRight(Replay(steps).value)
  {
    if steps != [] {
      var front, step := steps[..|steps| - 1], steps[|steps| - 1];
      var s := Replay(front).value;
      RunKeepsInv(front);
      RunKeepsTokensRight(front);
      forall t | t in Do(s, step).txs ensures MarkedRightly(Do(s, step).db, Do(s, step).txs[t]) {
        MarksStay(s, step, t);
      }
      forall j ensures RevokedRightly(Do(s, step).db, j) { RevokedStaysRight(s, step, j); }
    }
  }

  /** Whatever the interleaving, a token is revoked only if it names a grant, and that grant is revoked. */
  lemma OnlyTokensOfRevokedGrants(steps: seq<Step>, j: Jti)
    requires Replay(steps).Some? && j in Replay(steps).value.db.tokens && Replay(steps).value.db.tokens[j].revoked
    ensures var db := Replay(steps).value.db;
            && db.tokens[j].grant.Some? && db.tokens[j].grant.value in db.grants
            && db.grants[db.tokens[j].grant.value].facts.revoked
  {
    RunKeepsTokensRight(steps);
    assert RevokedRightly(Replay(steps).value.db, j);
  }
}
