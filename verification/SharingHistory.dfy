/** What the recorded history of reviewed sharing says of each authorization, event by event
    (remembrance/consent.py, `decide` and `authorize`). */
module SharingHistory {
  import opened Wrappers
  import opened Digests
  import opened ConsentHistory
  import opened ConsentTables
  import opened ConsentRecords

  // ---- the gate's answers ----

  /** Each answer exactly when its own condition is the first to fail. */
  lemma AnswersExactly(grant: Option<Grant>, dead: bool, role: string, action: string, purpose: string)
    ensures var d := Decide(grant, dead, role, action, purpose);
            var supported := action == "memorial_view" && purpose == "memorial";
            var known := supported && (role == "public" || role == "family");
            var live := known && grant.Some? && grant.value.status == Verified;
            var current := live && grant.value.scope == "memorial_view" && grant.value.policyVersion == 1;
            var released := current
            && (grant.value.activation == "now" || (grant.value.activation == "after_death" && dead));
            var open := released
            && (grant.value.audience == "public" || (grant.value.audience == "family" && role == "family"));
            && (d.allowed <==> open)
            && (d.code == "allowed" <==> open)
            && (d.code == "audience_restricted" <==> released && !open)
            && (d.code == "awaiting_death_confirmation" <==>
                current && grant.value.activation == "after_death" && !dead)
            && (d.code == "invalid_activation" <==>
                current && grant.value.activation != "now" && grant.value.activation != "after_death")
            && (d.code == "unsupported_use" <==> !supported || (live && !current))
            && (d.code == "unsupported_role" <==> supported && !known)
            && (d.code == "no_grant" <==> known && grant.None?)
            && (d.code == "revoked" <==> known && grant.Some? && grant.value.status == Revoked)
            && (d.code == "awaiting_review" <==> known && grant.Some? && grant.value.status == Pending)
  {
  }

  // ---- authorizations ----

  predicate RecordedAt(c: seq<Event>, i: int, g: Gid, audience: string, activation: string) {
    0 <= i < |c| && c[i].body.what == GrantRecorded(audience, activation) && c[i].body.grant == Some(g)
  }

  predicate VerifiedAt(c: seq<Event>, j: int, g: Gid) {
    0 <= j < |c| && c[j].body.what == GrantVerified && c[j].body.grant == Some(g)
  }

  // After event i nothing was recorded in the grant's place, and it was not revoked.
  ghost predicate StandsSince(c: seq<Event>, i: int, g: Gid) {
    forall m :: 0 <= m < |c| && m > i && c[m].body.grant.Some? ==>
      !c[m].body.what.GrantRecorded? && !(c[m].body.what == GrantRevoked && c[m].body.grant == Some(g))
  }

  predicate ConfirmedAt(c: seq<Event>, d: int) {
    0 <= d < |c| && c[d].body.what == DeathConfirmed
  }

  ghost predicate NotClearedSince(c: seq<Event>, d: int) {
    forall m :: 0 <= m < |c| && m > d ==> c[m].body.what != DeathCleared
  }

  // What replaying a history makes of it, event by event.
  ghost predicate CurrentStands(c: seq<Event>, i: int, current: Current) {
    && RecordedAt(c, i, current.gid, current.audience, current.activation) && StandsSince(c, i, current.gid)
    && (current.verified ==> exists j :: i < j && VerifiedAt(c, j, current.gid))
  }

  lemma CurrentStaysOn(c: seq<Event>, i: int, current: Current)
    requires c != [] && CurrentStands(c[..|c| - 1], i, current)
    requires After(View(Some(current), false), c[|c| - 1]).current.Some?
    requires !(c[|c| - 1].body.what.GrantRecorded? && c[|c| - 1].body.grant.Some?)
    ensures CurrentStands(c, i, After(View(Some(current), false), c[|c| - 1]).current.value)
  {
    var n := |c| - 1;
    var next := After(View(Some(current), false), c[n]).current.value;
    assert c[..n][i] == c[i];
    if current.verified {
      var j :| i < j && VerifiedAt(c[..n], j, current.gid);
      assert VerifiedAt(c, j, current.gid);
    } else if next.verified {
      assert VerifiedAt(c, n, next.gid);
    }
    forall m | 0 <= m < |c| && m > i && c[m].body.grant.Some?
      ensures !c[m].body.what.GrantRecorded? && !(c[m].body.what == GrantRevoked && c[m].body.grant == Some(next.gid))
    {
      if m < n { assert c[..n][m] == c[m]; }
    }
  }

  lemma {:induction false} CurrentWasRecorded(c: seq<Event>) returns (i: int)
    requires Replayed(c).current.Some?
    ensures CurrentStands(c, i, Replayed(c).current.value)
  {
    var n := |c| - 1;
    if c[n].body.what.GrantRecorded? && c[n].body.grant.Some? {
      i := n;
    } else {
      i := CurrentWasRecorded(c[..n]);
      CurrentStaysOn(c, i, Replayed(c[..n]).current.value);
    }
  }

  lemma {:induction false} DeathWasConfirmed(c: seq<Event>) returns (d: int)
    requires Replayed(c).deathConfirmed
    ensures ConfirmedAt(c, d) && NotClearedSince(c, d)
  {
    var n := |c| - 1;
    if c[n].body.what == DeathConfirmed {
      d := n;
    } else {
      d := DeathWasConfirmed(c[..n]);
      assert c[..n][d] == c[d];
      forall m | 0 <= m < |c| && m > d
        ensures c[m].body.what != DeathCleared
      {
        if m < n { assert c[..n][m] == c[m]; }
      }
    }
  }

  // The recording of the grant at i entitles to a use after the history c.
  ghost predicate Entitles(c: seq<Event>, i: int, g: Gid) {
    && 0 <= i < |c| && c[i].body.what.GrantRecorded? && c[i].body.grant == Some(g) && StandsSince(c, i, g)
    && (exists j :: i < j && VerifiedAt(c, j, g))
    && c[i].body.what.audience in {"family", "public"}
    && (|| c[i].body.what.activation == "now"
        || (c[i].body.what.activation == "after_death" && exists d :: ConfirmedAt(c, d) && NotClearedSince(c, d)))
  }

  lemma PermittedEntitles(c: seq<Event>, grant: Option<Gid>) returns (i: int)
    requires Permits(Replayed(c), grant)
    ensures grant.Some? && Entitles(c, i, grant.value)
  {
    i := CurrentWasRecorded(c);
    if Replayed(c).deathConfirmed { var d := DeathWasConfirmed(c); }
  }

  lemma {:induction false} StandingIsCurrent(c: seq<Event>, i: int, g: Gid, audience: string, activation: string)
    requires RecordedAt(c, i, g, audience, activation) && StandsSince(c, i, g)
    ensures var current := Replayed(c).current;
            && current.Some? && current.value.gid == g
            && current.value.audience == audience && current.value.activation == activation
            && ((exists j :: i < j && VerifiedAt(c, j, g)) ==> current.value.verified)
  {
    var n := |c| - 1;
    if i < n {
      assert forall m :: 0 <= m < n ==> c[..n][m] == c[m];
      StandingIsCurrent(c[..n], i, g, audience, activation);
      if j :| i < j && VerifiedAt(c, j, g) { assert j < n ==> VerifiedAt(c[..n], j, g); }
    }
  }

  lemma {:induction false} ConfirmedStays(c: seq<Event>, d: int)
    requires ConfirmedAt(c, d) && NotClearedSince(c, d)
    ensures Replayed(c).deathConfirmed
  {
    var n := |c| - 1;
    if d < n {
      assert forall m :: 0 <= m < n ==> c[..n][m] == c[m];
      ConfirmedStays(c[..n], d);
    }
  }

  /** A history permits a use exactly when it holds, event by event, what entitles to it. */
  lemma PermittedExactlyWhenEntitled(c: seq<Event>, g: Gid)
    ensures Permits(Replayed(c), Some(g)) <==> exists i :: Entitles(c, i, g)
  {
    if Permits(Replayed(c), Some(g)) { var i := PermittedEntitles(c, Some(g)); }
    if i :| Entitles(c, i, g) {
      var what := c[i].body.what;
      StandingIsCurrent(c, i, g, what.audience, what.activation);
      if d :| ConfirmedAt(c, d) && NotClearedSince(c, d) { ConfirmedStays(c, d); }
    }
  }

  /** Behind every authorization on record stands the recording of its grant, later verified, not revoked and not
      replaced up to then, offered to somebody, and released: at once, or by a confirmed death not cleared since. */
  lemma EveryAuthorizationWasEarned(hash: Hash, steps: seq<Step>, mid: Mid, k: nat) returns (i: int)
    requires Replay(hash, steps).Some?
    requires var c := Mine(Replay(hash, steps).value, mid); k < |c| && c[k].body.what == Authorized
    ensures var c := Mine(Replay(hash, steps).value, mid);
            c[k].body.grant.Some? && Entitles(c[..k], i, c[k].body.grant.value)
  {
    var c := Mine(Replay(hash, steps).value, mid);
    EveryAuthorizationWasPermitted(hash, steps, mid, k);
    i := PermittedEntitles(c[..k], c[k].body.grant);
  }

  /** Every call of the service is a step of a run: what holds after every run holds after every sequence of calls. */
  lemma CallExtendsTheRun(hash: Hash, steps: seq<Step>, after: Db) returns (steps': seq<Step>)
    requires Replay(hash, steps).Some? && AtMostOneStep(hash, Replay(hash, steps).value, after)
    ensures Replay(hash, steps') == Some(after) && steps <= steps'
  {
    steps' := steps;
    if after != Replay(hash, steps).value {
      var step :| Took(hash, Replay(hash, steps).value, after, step);
      steps' := steps + [step];
      assert steps'[..|steps'| - 1] == steps;
    }
  }
}
