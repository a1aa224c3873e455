/** Grants, death confirmations and authorizations of memorials (remembrance/consent.py). The service's methods are the
    steps of one machine, and the results hold after every sequence of them. */
module ConsentRecords {
  import opened Wrappers
  import opened Digests
  import opened ConsentHistory
  import opened ConsentTables

  // ---- the steps ----

  // The calls that write; a refused call leaves everything as it is. `Elsewhere` is an event of another module,
  // `Edit` any change to a memorial's own row.
  datatype Step =
    | Edit(mid: Mid, row: Memorial)
    | Elsewhere(mid: Mid, kind: string, actor: string, at: int)
    | Recording(mid: Mid, owner: string, audience: string, activation: string, gid: Gid, at: int)
    | Verification(gid: Gid, actor: string, at: int)
    | Revocation(mid: Mid, gid: Gid, actor: string, at: int)
    | Confirmation(mid: Mid, date: int, actor: string, at: int)
    | Clearing(mid: Mid, actor: string, at: int)
    | Use(mid: Mid, current: Option<Gid>, role: string, action: string, purpose: string, actor: string, at: int)

  predicate Enabled(db: Db, step: Step) {
    match step
    case Edit(mid, row) => true
    case Elsewhere(mid, kind, actor, at) => true
    case Recording(mid, owner, audience, activation, gid, at) =>
      && audience in ["family", "public"] && activation in ["now", "after_death"] && OwnedBy(db, mid, owner)
      && gid !in db.grants && NoneCurrent(db.grants, mid)
    case Verification(gid, actor, at) => gid in db.grants && db.grants[gid].status == Pending
    case Revocation(mid, gid, actor, at) =>
      && mid in db.memorials && !db.memorials[mid].demo && IsCurrent(db.grants, mid, gid)
    case Confirmation(mid, date, actor, at) =>
      && mid in db.controls && !db.controls[mid] && mid in db.memorials
      && (db.memorials[mid].born.Some? ==> db.memorials[mid].born.value <= date)
    case Clearing(mid, actor, at) => mid in db.controls && db.controls[mid]
    case Use(mid, current, role, action, purpose, actor, at) => LookedUp(db, mid, current)
  }

  function Do(hash: Hash, db: Db, step: Step): Db
    requires Enabled(db, step)
  {
    match step
    case Edit(mid, row) => db.(memorials := db.memorials[mid := row])
    case Elsewhere(mid, kind, actor, at) => Appended(hash, db, mid, Other(kind), actor, None, at)
    case Recording(mid, owner, audience, activation, gid, at) =>
      AfterGrant(hash, db, mid, owner, audience, activation, gid, at)
    case Verification(gid, actor, at) => AfterReview(hash, db, gid, true, actor, at)
    case Revocation(mid, gid, actor, at) => AfterReview(hash, db, gid, false, actor, at)
    case Confirmation(mid, date, actor, at) => AfterDeath(hash, db, mid, true, actor, at)
    case Clearing(mid, actor, at) => AfterDeath(hash, db, mid, false, actor, at)
    case Use(mid, current, role, action, purpose, actor, at) =>
      AfterUse(hash, db, mid, current, DecisionOn(db, mid, current, role, action, purpose), actor, at)
  }

  predicate ProperForm(nameLength: nat, audience: string, activation: string) {
    1 <= nameLength <= 120 && audience in ["family", "public"] && activation in ["now", "after_death"]
  }

  predicate OwnedBy(db: Db, mid: Mid, owner: string) {
    mid in db.memorials && db.memorials[mid].owner == owner && !db.memorials[mid].demo
  }

  ghost predicate Took(hash: Hash, db: Db, after: Db, step: Step) {
    Enabled(db, step) && after == Do(hash, db, step)
  }

  ghost predicate AtMostOneStep(hash: Hash, db: Db, after: Db) {
    after == db || exists step :: Took(hash, db, after, step)
  }

  const EMPTY := Db(map[], map[], map[], [])

  function Replay(hash: Hash, steps: seq<Step>): Option<Db> {
    if steps == [] then Some(EMPTY)
    else
      var before := Replay(hash, steps[..|steps| - 1]);
      if before.Some? && Enabled(before.value, steps[|steps| - 1]) then Some(Do(hash, before.value, steps[|steps| - 1]))
      else None
  }

  lemma StepKeepsSound(hash: Hash, db: Db, step: Step)
    requires Sound(hash, db) && Enabled(db, step)
    ensures Sound(hash, Do(hash, db, step))
  {
    match step
    case Edit(mid, row) => MemorialKeepsSound(hash, db, mid, row);
    case Elsewhere(mid, kind, actor, at) => OtherKeepsSound(hash, db, mid, kind, actor, at);
    case Recording(mid, owner, audience, activation, gid, at) =>
      GrantKeepsSound(hash, db, mid, owner, audience, activation, gid, at);
    case Verification(gid, actor, at) => ReviewKeepsSound(hash, db, gid, true, actor, at);
    case Revocation(_, gid, actor, at) => ReviewKeepsSound(hash, db, gid, false, actor, at);
    case Confirmation(mid, _, actor, at) => DeathKeepsSound(hash, db, mid, true, actor, at);
    case Clearing(mid, actor, at) => DeathKeepsSound(hash, db, mid, false, actor, at);
    case Use(mid, current, role, action, purpose, actor, at) =>
      UseKeepsSound(hash, db, mid, current, role, action, purpose, actor, at);
  }

  lemma {:induction false} RunKeepsSound(hash: Hash, steps: seq<Step>)
    requires Replay(hash, steps).Some?
    ensures Sound(hash, Replay(hash, steps).value)
  {
    if steps == [] {
      EmptyIsSound(hash);
    } else {
      RunKeepsSound(hash, steps[..|steps| - 1]);
      StepKeepsSound(hash, Replay(hash, steps[..|steps| - 1]).value, steps[|steps| - 1]);
    }
  }

  lemma EmptyIsSound(hash: Hash)
    ensures Sound(hash, EMPTY)
  {
    forall mid: Mid ensures MemorialSound(hash, EMPTY, mid) { assert Mine(EMPTY, mid) == []; }
  }

  // ---- the service ----

  class Consent {
    const hash: Hash
    var db: Db

    ghost predicate Valid()
      reads this
    {
      Sound(hash, db)
    }

    constructor (hash: Hash)
      ensures Valid() && this.hash == hash && db == EMPTY
    {
      this.hash := hash;
      db := EMPTY;
      new;
      EmptyIsSound(hash);
    }

    method CurrentGrant(mid: Mid) returns (r: Option<Gid>)
      ensures r.Some? ==> IsCurrent(db.grants, mid, r.value)
      ensures r.None? ==> NoneCurrent(db.grants, mid)
    {
      var todo := db.grants.Keys;
      while todo != {}
        invariant todo <= db.grants.Keys
        invariant forall g :: g in db.grants && g !in todo ==> !IsCurrent(db.grants, mid, g)
        decreases todo
      {
        var g :| g in todo;
        if IsCurrent(db.grants, mid, g) { return Some(g); }
        todo := todo - {g};
      }
      return None;
    }

    method AppendEvent(mid: Mid, what: What, actor: string, grant: Option<Gid>, at: int)
      modifies this`db
      ensures db == Appended(hash, old(db), mid, what, actor, grant, at)
    {
      db := db.(events := db.events + [NewEvent(hash, db, mid, what, actor, grant, at)]);
    }

    method RecordGrant(
        mid: Mid, owner: string, nameLength: nat, audience: string, activation: string, gid: Gid, at: int)
      returns (r: Result<Gid, ConsentError>)
      requires Valid() && gid !in db.grants  // a new random id
      modifies this`db
      ensures Valid() && AtMostOneStep(hash, old(db), db)
      ensures r.Ok? <==>
              && 1 <= nameLength <= 120
              && (audience == "family" || audience == "public") && (activation == "now" || activation == "after_death")
              && mid in old(db).memorials && old(db).memorials[mid].owner == owner && !old(db).memorials[mid].demo
              && NoneCurrent(old(db).grants, mid)
      ensures r.Err? ==>
                r.error == if !ProperForm(nameLength, audience, activation) then InvalidForm
                           else if !OwnedBy(old(db), mid, owner) then NotTheOwner else CurrentGrantExists
      ensures r.Ok? ==> r.value == gid && db == AfterGrant(hash, old(db), mid, owner, audience, activation, gid, at)
      ensures r.Ok? ==> Replayed(Mine(db, mid)).current == Some(Current(gid, audience, activation, false))
      ensures r.Err? ==> db == old(db)
    {
      if !(1 <= nameLength <= 120 && audience in ["family", "public"] && activation in ["now", "after_death"]) {
        return Err(InvalidForm);
      }
      if mid !in db.memorials || db.memorials[mid].owner != owner || db.memorials[mid].demo { return Err(NotTheOwner); }
      var current := CurrentGrant(mid);
      if current.Some? { return Err(CurrentGrantExists); }
      GrantKeepsSound(hash, db, mid, owner, audience, activation, gid, at);
      if mid !in db.controls {
        db := db.(controls := db.controls[mid := false]);
      }
      db := db.(grants := db.grants[gid := Grant(mid, "memorial_view", 1, audience, activation, Pending)]);
      AppendEvent(mid, GrantRecorded(audience, activation), owner, Some(gid), at);
      assert Took(hash, old(db), db, Recording(mid, owner, audience, activation, gid, at));
      return Ok(gid);
    }

    method VerifyGrant(gid: Gid, actor: string, at: int) returns (r: Result<bool, ConsentError>)
      requires Valid()
      modifies this`db
      ensures Valid() && AtMostOneStep(hash, old(db), db)
      ensures r.Ok? <==> gid in old(db).grants && old(db).grants[gid].status == Pending
      ensures r.Err? ==> r.error == NotPending
      ensures r.Ok? ==> db == AfterReview(hash, old(db), gid, true, actor, at)
      ensures r.Err? ==> db == old(db)
    {
      if gid !in db.grants || db.grants[gid].status != Pending { return Err(NotPending); }
      ReviewKeepsSound(hash, db, gid, true, actor, at);
      var mid := db.grants[gid].mid;
      db := db.(grants := db.grants[gid := db.grants[gid].(status := Verified)]);
      AppendEvent(mid, GrantVerified, actor, Some(gid), at);
      assert Took(hash, old(db), db, Verification(gid, actor, at));
      return Ok(true);
    }

    method RevokeGrant(mid: Mid, gid: Gid, owner: Option<string>, operator: string, at: int)
      returns (r: Result<bool, ConsentError>)
      requires Valid()
      modifies this`db
      ensures Valid() && AtMostOneStep(hash, old(db), db)
      ensures r.Ok? <==>
              && mid in old(db).memorials && !old(db).memorials[mid].demo
              && (owner.Some? ==> old(db).memorials[mid].owner == owner.value)
              && gid in old(db).grants && old(db).grants[gid].mid == mid
      ensures r.Ok? ==> (r.value <==> old(db).grants[gid].status != Revoked)
      ensures r.Err? ==>
                r.error == if mid !in old(db).memorials || old(db).memorials[mid].demo
                              || (owner.Some? && old(db).memorials[mid].owner != owner.value) then MemorialNotFound
                           else GrantNotFound
      ensures r == Ok(true) ==>
                && db == AfterReview(hash, old(db), gid, false, if owner.Some? then owner.value else operator, at)
                && Replayed(Mine(db, mid)).current.None?
      ensures r != Ok(true) ==> db == old(db)
    {
      if mid !in db.memorials || db.memorials[mid].demo || (owner.Some? && db.memorials[mid].owner != owner.value) {
        return Err(MemorialNotFound);
      }
      if gid !in db.grants || db.grants[gid].mid != mid { return Err(GrantNotFound); }
      if db.grants[gid].status == Revoked { return Ok(false); }
      var actor := if owner.Some? then owner.value else operator;
      ReviewKeepsSound(hash, db, gid, false, actor, at);
      db := db.(grants := db.grants[gid := db.grants[gid].(status := Revoked)]);
      AppendEvent(mid, GrantRevoked, actor, Some(gid), at);
      assert Took(hash, old(db), db, Revocation(mid, gid, actor, at));
      return Ok(true);
    }

    method ConfirmDeath(mid: Mid, date: Option<int>, today: int, actor: string, at: int)
      returns (r: Result<bool, ConsentError>)
      requires Valid()
      modifies this`db
      ensures Valid() && AtMostOneStep(hash, old(db), db)
      ensures r.Ok? <==>
              && date.Some? && date.value <= today && mid in old(db).controls && !old(db).controls[mid]
              && (old(db).memorials[mid].born.Some? ==> old(db).memorials[mid].born.value <= date.value)
      ensures r.Err? ==> r.error == if date.None? || date.value > today then InvalidDate
                                    else if mid !in old(db).controls then NotEnabled
                                    else if old(db).controls[mid] then AlreadyConfirmed else BeforeBirth
      ensures r.Ok? ==> db == AfterDeath(hash, old(db), mid, true, actor, at)
      ensures r.Err? ==> db == old(db)
    {
      if date.None? || date.value > today { return Err(InvalidDate); }
      if mid !in db.controls { return Err(NotEnabled); }
      if db.controls[mid] { return Err(AlreadyConfirmed); }
      if db.memorials[mid].born.Some? && date.value < db.memorials[mid].born.value { return Err(BeforeBirth); }
      DeathKeepsSound(hash, db, mid, true, actor, at);
      db := db.(controls := db.controls[mid := true]);
      AppendEvent(mid, DeathConfirmed, actor, None, at);
      assert Took(hash, old(db), db, Confirmation(mid, date.value, actor, at));
      return Ok(true);
    }

    method ClearDeath(mid: Mid, actor: string, at: int) returns (r: Result<bool, ConsentError>)
      requires Valid()
      modifies this`db
      ensures Valid() && AtMostOneStep(hash, old(db), db)
      ensures r.Ok? <==> mid in old(db).controls && old(db).controls[mid]
      ensures r.Err? ==> r.error == NothingToClear
      ensures r.Ok? ==> db == AfterDeath(hash, old(db), mid, false, actor, at)
      ensures r.Err? ==> db == old(db)
    {
      if mid !in db.controls || !db.controls[mid] { return Err(NothingToClear); }
      DeathKeepsSound(hash, db, mid, false, actor, at);
      db := db.(controls := db.controls[mid := false]);
      AppendEvent(mid, DeathCleared, actor, None, at);
      assert Took(hash, old(db), db, Clearing(mid, actor, at));
      return Ok(true);
    }

    /** The lookup, the decision and its record are one transaction: what is recorded as authorized is what the history
        permits at that point. */
    method Authorize(mid: Mid, role: string, actor: string, action: string, purpose: string, at: int)
      returns (r: Decision)
      requires Valid()
      modifies this`db
      ensures Valid() && AtMostOneStep(hash, old(db), db)
      ensures r.allowed <==> AllowedBy(Replayed(Mine(old(db), mid)), mid in old(db).controls, role, action, purpose)
      ensures mid !in old(db).controls ==> r == Decision(false, "no_grant")
      ensures exists current ::
                && LookedUp(old(db), mid, current) && r == DecisionOn(old(db), mid, current, role, action, purpose)
                && db == AfterUse(hash, old(db), mid, current, r, actor, at)
    {
      var current: Option<Gid> := None;
      if mid !in db.controls {
        r := Decision(false, "no_grant");
      } else {
        current := CurrentGrant(mid);
        r := Decide(
          if current.Some? then Some(db.grants[current.value]) else None, db.controls[mid], role, action, purpose);
      }
      UseKeepsSound(hash, db, mid, current, role, action, purpose, actor, at);
      AppendEvent(mid, if r.allowed then Authorized else Denied(r.code), actor, current, at);
      assert LookedUp(old(db), mid, current);
      assert Took(hash, old(db), db, Use(mid, current, role, action, purpose, actor, at));
    }
  }

  // ---- what holds after every run ----

  /** Whatever was called before: at most one grant of a memorial is in force, and the history verifies. */
  lemma OneCurrentGrant(hash: Hash, steps: seq<Step>, mid: Mid, g: Gid, h: Gid)
    requires Replay(hash, steps).Some?
    ensures var db := Replay(hash, steps).value;
            && HistoryOk(hash, map[], db.events, mid)
            && (IsCurrent(db.grants, mid, g) && IsCurrent(db.grants, mid, h) ==> g == h)
  {
    RunKeepsSound(hash, steps);
    assert MemorialSound(hash, Replay(hash, steps).value, mid);
  }

  lemma {:induction false} JustifiedAt(c: seq<Event>, k: nat)
    requires Justified(c) && k < |c| && c[k].body.what == Authorized
    ensures Permits(Replayed(c[..k]), c[k].body.grant)
  {
    if k < |c| - 1 {
      JustifiedAt(c[..|c| - 1], k);
      assert c[..|c| - 1][..k] == c[..k];
    }
  }

  /** Every authorization on record names the grant that its own earlier history shows verified, not revoked and
      released. */
  lemma EveryAuthorizationWasPermitted(hash: Hash, steps: seq<Step>, mid: Mid, k: nat)
    requires Replay(hash, steps).Some?
    requires var c := Mine(Replay(hash, steps).value, mid); k < |c| && c[k].body.what == Authorized
    ensures var c := Mine(Replay(hash, steps).value, mid); Permits(Replayed(c[..k]), c[k].body.grant)
  {
    RunKeepsSound(hash, steps);
    assert MemorialSound(hash, Replay(hash, steps).value, mid);
    JustifiedAt(Mine(Replay(hash, steps).value, mid), k);
  }

  /** Every grant on record has a form the module offers, and belongs to a memorial that enabled sharing. */
  lemma {:induction false} GrantsAreProper(hash: Hash, steps: seq<Step>, g: Gid)
    requires Replay(hash, steps).Some? && g in Replay(hash, steps).value.grants
    ensures var db := Replay(hash, steps).value;
            && db.grants[g].scope == "memorial_view" && db.grants[g].policyVersion == 1
            && (db.grants[g].audience == "family" || db.grants[g].audience == "public")
            && (db.grants[g].activation == "now" || db.grants[g].activation == "after_death")
            && db.grants[g].mid in db.controls && db.grants[g].mid in db.memorials
  {
    RunKeepsSound(hash, steps);
    var front := steps[..|steps| - 1];
    if g in Replay(hash, front).value.grants { GrantsAreProper(hash, front, g); }
  }

  predicate IsRevoked(db: Db, g: Gid) {
    g in db.grants && db.grants[g].status == Revoked
  }

  // No event from position n on authorizes a use under g.
  ghost predicate UnusedSince(events: seq<Event>, n: nat, g: Gid) {
    forall k :: n <= k < |events| ==> !(events[k].body.what == Authorized && events[k].body.grant == Some(g))
  }

  lemma StepLeavesRevoked(hash: Hash, db: Db, step: Step, n: nat, g: Gid)
    requires Sound(hash, db) && Enabled(db, step) && IsRevoked(db, g) && UnusedSince(db.events, n, g)
    ensures IsRevoked(Do(hash, db, step), g) && UnusedSince(Do(hash, db, step).events, n, g)
  {
  }

  /** Once a grant is revoked it stays revoked, and no later event of any memorial authorizes a use under it. */
  lemma {:induction false} RevokedIsNeverUsedAgain(hash: Hash, steps: seq<Step>, n: nat, g: Gid)
    requires Replay(hash, steps).Some? && n <= |steps| && Replay(hash, steps[..n]).Some?
    requires IsRevoked(Replay(hash, steps[..n]).value, g)
    ensures IsRevoked(Replay(hash, steps).value, g)
    ensures UnusedSince(Replay(hash, steps).value.events, |Replay(hash, steps[..n]).value.events|, g)
  {
    if n == |steps| {
      assert steps[..n] == steps;
    } else {
      var front := steps[..|steps| - 1];
      assert front[..n] == steps[..n];
      RevokedIsNeverUsedAgain(hash, front, n, g);
      RunKeepsSound(hash, front);
      StepLeavesRevoked(hash, Replay(hash, front).value, steps[|steps| - 1],
                        |Replay(hash, steps[..n]).value.events|, g);
    }
  }
}
