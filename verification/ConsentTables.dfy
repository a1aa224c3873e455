/** The tables of reviewed sharing, the history that must agree with them, and what each operation leaves behind
    (remembrance/consent.py). */
module ConsentTables {
  import opened Wrappers
  import opened Digests
  import opened ConsentHistory

  datatype Status = Pending | Verified | Revoked

  datatype Grant = Grant(mid: Mid, scope: string, policyVersion: int, audience: string, activation: string,
      status: Status)

  datatype Memorial = Memorial(owner: string, demo: bool, born: Option<int>)

  datatype Db = Db(memorials: map<Mid, Memorial>, grants: map<Gid, Grant>,
                   controls: map<Mid, bool>,  // whether the death is confirmed
                   events: seq<Event>)

  datatype ConsentError =
    | InvalidForm | NotTheOwner | CurrentGrantExists | NotPending | MemorialNotFound | GrantNotFound
    | InvalidDate | NotEnabled | AlreadyConfirmed | BeforeBirth | NothingToClear

  // ---- the gate ----

  datatype Decision = Decision(allowed: bool, code: string)

  function Decide(grant: Option<Grant>, deathConfirmed: bool, role: string, action: string, purpose: string): Decision {
    if action != "memorial_view" || purpose != "memorial" then Decision(false, "unsupported_use")
    else if role != "public" && role != "family" then Decision(false, "unsupported_role")
    else if grant.None? then Decision(false, "no_grant")
    else
      var g := grant.value;
      if g.status == Revoked then Decision(false, "revoked")
      else if g.status != Verified then Decision(false, "awaiting_review")
      else if g.scope != action || g.policyVersion != 1 then Decision(false, "unsupported_use")
      else if g.activation != "now" && g.activation != "after_death" then Decision(false, "invalid_activation")
      else if g.activation == "after_death" && !deathConfirmed then Decision(false, "awaiting_death_confirmation")
      else if (g.audience != "family" && g.audience != "public") || (g.audience == "family" && role != "family")
      then Decision(false, "audience_restricted")
      else Decision(true, "allowed")
  }

  // ---- what a memorial's history says ----

  datatype Current = Current(gid: Gid, audience: string, activation: string, verified: bool)

  datatype View = View(current: Option<Current>, deathConfirmed: bool)

  function After(v: View, e: Event): View {
    match e.body.what
    case GrantRecorded(audience, activation) =>
      if e.body.grant.Some? then v.(current := Some(Current(e.body.grant.value, audience, activation, false))) else v
    case GrantVerified =>
      if v.current.Some? && e.body.grant == Some(v.current.value.gid)
      then v.(current := Some(v.current.value.(verified := true))) else v
    case GrantRevoked =>
      if v.current.Some? && e.body.grant == Some(v.current.value.gid) then v.(current := None) else v
    case DeathConfirmed => v.(deathConfirmed := true)
    case DeathCleared => v.(deathConfirmed := false)
    case _ => v
  }

  function Replayed(c: seq<Event>): View {
    if c == [] then View(None, false) else After(Replayed(c[..|c| - 1]), c[|c| - 1])
  }

  /** The history so far permits an authorization that names this grant, for some role. */
  predicate Permits(v: View, grant: Option<Gid>) {
    && v.current.Some? && v.current.value.verified && grant == Some(v.current.value.gid)
    && (v.current.value.activation == "now" || (v.current.value.activation == "after_death" && v.deathConfirmed))
    && (v.current.value.audience == "family" || v.current.value.audience == "public")
  }

  /** Every authorization on record was permitted by what had been recorded before it. */
  predicate Justified(c: seq<Event>) {
    c == []
    || (Justified(c[..|c| - 1])
        && (c[|c| - 1].body.what == Authorized ==> Permits(Replayed(c[..|c| - 1]), c[|c| - 1].body.grant)))
  }

  function Mine(db: Db, mid: Mid): seq<Event> {
    Of(db.events, |db.events|, mid)
  }

  // ---- the invariant ----

  predicate IsCurrent(grants: map<Gid, Grant>, mid: Mid, g: Gid) {
    g in grants && grants[g].mid == mid && grants[g].status != Revoked
  }

  predicate Confirmed(db: Db, mid: Mid) {
    mid in db.controls && db.controls[mid]
  }

  /** The tables hold for this memorial exactly what its history says. */
  ghost predicate Agrees(grants: map<Gid, Grant>, confirmed: bool, mid: Mid, v: View) {
    && (forall g: Gid :: IsCurrent(grants, mid, g) <==> v.current.Some? && v.current.value.gid == g)
    && (v.current.Some? && v.current.value.gid in grants ==>
          grants[v.current.value.gid] ==
            Grant(mid, "memorial_view", 1, v.current.value.audience, v.current.value.activation,
                                                  if v.current.value.verified then Verified else Pending))
    && v.deathConfirmed == confirmed
  }

  ghost predicate MemorialSound(hash: Hash, db: Db, mid: Mid) {
    && ValidHistory(hash, Mine(db, mid))
    && Justified(Mine(db, mid))
    && Agrees(db.grants, Confirmed(db, mid), mid, Replayed(Mine(db, mid)))
  }

  ghost predicate Sound(hash: Hash, db: Db) {
    && (forall mid: Mid :: MemorialSound(hash, db, mid))
    && (forall g :: g in db.grants ==> db.grants[g].mid in db.controls)
    && db.controls.Keys <= db.memorials.Keys
  }

  function NewEvent(hash: Hash, db: Db, mid: Mid, what: What, actor: string, grant: Option<Gid>, at: int): Event {
    var c := Mine(db, mid);
    var body := Body(mid, |c| + 1, what, actor, grant, at, LastHash(c));
    Event(body, hash(body))
  }

  // ---- what each operation leaves behind ----

  function Appended(hash: Hash, db: Db, mid: Mid, what: What, actor: string, grant: Option<Gid>, at: int): Db {
    db.(events := db.events + [NewEvent(hash, db, mid, what, actor, grant, at)])
  }

  function AfterGrant(
    hash: Hash, db: Db, mid: Mid, owner: string, audience: string, activation: string, gid: Gid, at: int): Db {
    Appended(hash,
             db.(controls := if mid in db.controls then db.controls else db.controls[mid := false],
                 grants := db.grants[gid := Grant(mid, "memorial_view", 1, audience, activation, Pending)]),
             mid, GrantRecorded(audience, activation), owner, Some(gid), at)
  }

  // Verified, or revoked.
  function AfterReview(hash: Hash, db: Db, gid: Gid, verified: bool, actor: string, at: int): Db
    requires gid in db.grants
  {
    Appended(hash,
             db.(grants := db.grants[gid := db.grants[gid].(status := if verified then Verified else Revoked)]),
             db.grants[gid].mid, if verified then GrantVerified else GrantRevoked, actor, Some(gid), at)
  }

  function AfterDeath(hash: Hash, db: Db, mid: Mid, confirmed: bool, actor: string, at: int): Db {
    Appended(hash, db.(controls := db.controls[mid := confirmed]),
             mid, if confirmed then DeathConfirmed else DeathCleared, actor, None, at)
  }

  function DecisionOn(db: Db, mid: Mid, current: Option<Gid>, role: string, action: string, purpose: string): Decision
    requires current.Some? ==> current.value in db.grants
  {
    if mid !in db.controls then Decision(false, "no_grant")
    else
      Decide(if current.Some? then Some(db.grants[current.value]) else None, db.controls[mid], role, action, purpose)
  }

  predicate NoneCurrent(grants: map<Gid, Grant>, mid: Mid) {
    forall g :: g in grants ==> !IsCurrent(grants, mid, g)
  }

  // The grant an authorization looks up; memorials that never enabled sharing are not looked up.
  predicate LookedUp(db: Db, mid: Mid, current: Option<Gid>) {
    if mid !in db.controls then current.None?
    else if current.Some? then IsCurrent(db.grants, mid, current.value)
    else NoneCurrent(db.grants, mid)
  }

  function AfterUse(hash: Hash, db: Db, mid: Mid, current: Option<Gid>, d: Decision, actor: string, at: int): Db {
    Appended(hash, db, mid, if d.allowed then Authorized else Denied(d.code), actor, current, at)
  }

  lemma {:induction false} OfPrefix(a: seq<Event>, e: Event, n: nat, mid: Mid)
    requires n <= |a|
    ensures Of(a + [e], n, mid) == Of(a, n, mid)
  {
    if n > 0 { OfPrefix(a, e, n - 1, mid); }
  }

  lemma MineAppended(db: Db, e: Event, mid: Mid)
    ensures Mine(db.(events := db.events + [e]), mid) == Mine(db, mid) + if e.body.mid == mid then [e] else []
  {
    OfPrefix(db.events, e, |db.events|, mid);
  }

  // Appending an event whose effect on the view matches the change of the tables keeps the memorial sound.
  lemma AppendSound(
      hash: Hash, db: Db, tables: Db, mid: Mid, what: What, actor: string, grant: Option<Gid>, at: int)
    requires Sound(hash, db) && tables.events == db.events
    requires forall g :: g in tables.grants ==> tables.grants[g].mid in tables.controls
    requires tables.controls.Keys <= tables.memorials.Keys
    requires forall m: Mid :: m != mid ==> Agrees(tables.grants, Confirmed(tables, m), m, Replayed(Mine(db, m)))
    requires Agrees(tables.grants, Confirmed(tables, mid), mid,
                    After(Replayed(Mine(db, mid)), NewEvent(hash, db, mid, what, actor, grant, at)))
    requires what == Authorized ==> Permits(Replayed(Mine(db, mid)), grant)
    ensures Sound(hash, Appended(hash, tables, mid, what, actor, grant, at))
  {
    var after := Appended(hash, tables, mid, what, actor, grant, at);
    var e := NewEvent(hash, db, mid, what, actor, grant, at);
    assert Mine(tables, mid) == Mine(db, mid);
    forall m: Mid ensures MemorialSound(hash, after, m) {
      assert MemorialSound(hash, db, m);
      assert Mine(tables, m) == Mine(db, m);
      MineAppended(tables, e, m);
      if m == mid {
        LongerHistory(hash, Mine(db, mid), e);
        assert Mine(after, mid) == Mine(db, mid) + [e];
      } else {
        assert Mine(after, m) == Mine(db, m);
      }
    }
  }

  lemma LongerHistory(hash: Hash, c: seq<Event>, e: Event)
    requires ValidHistory(hash, c) && Justified(c) && Follows(hash, c, e)
    requires e.body.what == Authorized ==> Permits(Replayed(c), e.body.grant)
    ensures ValidHistory(hash, c + [e]) && Justified(c + [e]) && Replayed(c + [e]) == After(Replayed(c), e)
  {
    ValidExtends(hash, c, e);
    assert (c + [e])[..|c|] == c;
  }

  // A change confined to one memorial's grants leaves the others in agreement.
  lemma OthersAgree(hash: Hash, db: Db, tables: Db, mid: Mid)
    requires Sound(hash, db) && tables.events == db.events
    requires forall g :: g in db.grants && db.grants[g].mid != mid ==>
              g in tables.grants && tables.grants[g] == db.grants[g]
    requires forall g :: g in tables.grants && tables.grants[g].mid != mid ==>
              g in db.grants && tables.grants[g] == db.grants[g]
    requires forall m :: m != mid ==>
              (m in tables.controls && tables.controls[m] <==> m in db.controls && db.controls[m])
    ensures forall m: Mid :: m != mid ==> Agrees(tables.grants, Confirmed(tables, m), m, Replayed(Mine(db, m)))
  {
    forall m: Mid | m != mid ensures Agrees(tables.grants, Confirmed(tables, m), m, Replayed(Mine(db, m))) {
      assert MemorialSound(hash, db, m);
      forall g: Gid ensures IsCurrent(tables.grants, m, g) <==> IsCurrent(db.grants, m, g) {}
      var v := Replayed(Mine(db, m));
      assert v.current.Some? ==> IsCurrent(db.grants, m, v.current.value.gid);
    }
  }

  lemma AppendedView(hash: Hash, db: Db, mid: Mid, what: What, actor: string, grant: Option<Gid>, at: int)
    ensures Replayed(Mine(Appended(hash, db, mid, what, actor, grant, at), mid))
            == After(Replayed(Mine(db, mid)), NewEvent(hash, db, mid, what, actor, grant, at))
  {
    MineAppended(db, NewEvent(hash, db, mid, what, actor, grant, at), mid);
    assert (Mine(db, mid) + [NewEvent(hash, db, mid, what, actor, grant, at)])[..|Mine(db, mid)|] == Mine(db, mid);
  }

  /** The only combination that is allowed: the one supported use, by a supported role, under a verified current grant
      that is released to that role. */
  predicate AllowedBy(v: View, enabled: bool, role: string, action: string, purpose: string) {
    && enabled && action == "memorial_view" && purpose == "memorial"
    && v.current.Some? && v.current.value.verified
    && (v.current.value.activation == "now" || (v.current.value.activation == "after_death" && v.deathConfirmed))
    && ((role == "family" && v.current.value.audience in ["family", "public"])
        || (role == "public" && v.current.value.audience == "public"))
  }

  lemma DecisionFollowsHistory(
      db: Db, mid: Mid, current: Option<Gid>, role: string, action: string, purpose: string)
    requires Agrees(db.grants, Confirmed(db, mid), mid, Replayed(Mine(db, mid))) && LookedUp(db, mid, current)
    ensures var d := DecisionOn(db, mid, current, role, action, purpose);
            && (d.allowed <==> AllowedBy(Replayed(Mine(db, mid)), mid in db.controls, role, action, purpose))
            && (d.allowed ==> Permits(Replayed(Mine(db, mid)), current))
  {
    var v := Replayed(Mine(db, mid));
    assert v.current.Some? ==> IsCurrent(db.grants, mid, v.current.value.gid);
  }

  // ---- soundness is kept ----

  lemma GrantKeepsSound(
      hash: Hash, db: Db, mid: Mid, owner: string, audience: string, activation: string, gid: Gid, at: int)
    requires Sound(hash, db) && gid !in db.grants && mid in db.memorials
    requires NoneCurrent(db.grants, mid)
    ensures var after := AfterGrant(hash, db, mid, owner, audience, activation, gid, at);
            && Sound(hash, after)
            && Replayed(Mine(after, mid)).current == Some(Current(gid, audience, activation, false))
  {
    var tables := AfterGrant(hash, db, mid, owner, audience, activation, gid, at).(events := db.events);
    assert MemorialSound(hash, db, mid);
    OthersAgree(hash, db, tables, mid);
    forall g: Gid ensures IsCurrent(tables.grants, mid, g) <==> g == gid {
      assert g in db.grants ==> !IsCurrent(db.grants, mid, g);
    }
    assert Mine(tables, mid) == Mine(db, mid);
    AppendSound(hash, db, tables, mid, GrantRecorded(audience, activation), owner, Some(gid), at);
    AppendedView(hash, tables, mid, GrantRecorded(audience, activation), owner, Some(gid), at);
  }

  lemma ReviewKeepsSound(hash: Hash, db: Db, gid: Gid, verified: bool, actor: string, at: int)
    requires Sound(hash, db) && gid in db.grants
    requires db.grants[gid].status == Pending || (!verified && db.grants[gid].status == Verified)
    ensures var after := AfterReview(hash, db, gid, verified, actor, at);
            && Sound(hash, after)
            && (!verified ==> Replayed(Mine(after, db.grants[gid].mid)).current.None?)
  {
    var mid := db.grants[gid].mid;
    var what := if verified then GrantVerified else GrantRevoked;
    var tables := AfterReview(hash, db, gid, verified, actor, at).(events := db.events);
    assert MemorialSound(hash, db, mid);
    assert IsCurrent(db.grants, mid, gid);
    OthersAgree(hash, db, tables, mid);
    forall g: Gid ensures IsCurrent(tables.grants, mid, g) <==> verified && IsCurrent(db.grants, mid, g) {
      assert IsCurrent(db.grants, mid, g) ==> g == gid;
    }
    assert Mine(tables, mid) == Mine(db, mid);
    AppendSound(hash, db, tables, mid, what, actor, Some(gid), at);
    AppendedView(hash, tables, mid, what, actor, Some(gid), at);
  }

  lemma DeathKeepsSound(hash: Hash, db: Db, mid: Mid, confirmed: bool, actor: string, at: int)
    requires Sound(hash, db) && mid in db.controls
    ensures Sound(hash, AfterDeath(hash, db, mid, confirmed, actor, at))
  {
    var tables := db.(controls := db.controls[mid := confirmed]);
    assert MemorialSound(hash, db, mid);
    OthersAgree(hash, db, tables, mid);
    AppendSound(hash, db, tables, mid, if confirmed then DeathConfirmed else DeathCleared, actor, None, at);
  }

  lemma UseKeepsSound(
      hash: Hash, db: Db, mid: Mid, current: Option<Gid>, role: string, action: string, purpose: string, actor: string,
      at: int)
    requires Sound(hash, db) && LookedUp(db, mid, current)
    ensures var d := DecisionOn(db, mid, current, role, action, purpose);
            && Sound(hash, AfterUse(hash, db, mid, current, d, actor, at))
            && (d.allowed <==> AllowedBy(Replayed(Mine(db, mid)), mid in db.controls, role, action, purpose))
  {
    var d := DecisionOn(db, mid, current, role, action, purpose);
    assert MemorialSound(hash, db, mid);
    DecisionFollowsHistory(db, mid, current, role, action, purpose);
    OthersAgree(hash, db, db, mid);
    AppendSound(hash, db, db, mid, if d.allowed then Authorized else Denied(d.code), actor, current, at);
  }

  // Succession and erasure record their own events in the same history.
  lemma OtherKeepsSound(hash: Hash, db: Db, mid: Mid, kind: string, actor: string, at: int)
    requires Sound(hash, db)
    ensures Sound(hash, Appended(hash, db, mid, Other(kind), actor, None, at))
  {
    assert MemorialSound(hash, db, mid);
    OthersAgree(hash, db, db, mid);
    AppendSound(hash, db, db, mid, Other(kind), actor, None, at);
  }

  lemma MemorialKeepsSound(hash: Hash, db: Db, mid: Mid, row: Memorial)
    requires Sound(hash, db)
    ensures Sound(hash, db.(memorials := db.memorials[mid := row]))
  {
    var after := db.(memorials := db.memorials[mid := row]);
    forall m: Mid ensures MemorialSound(hash, after, m) {
      assert MemorialSound(hash, db, m);
      assert Mine(after, m) == Mine(db, m);
    }
  }
}
