/** Accounts, memorials, nominations and erasure requests, the activity recorded about them, and what each operation
    on them leaves behind (remembrance/succession.py, the requests of remembrance/erasure.py, remembrance/app.py). */
module CareStore {
  import opened Wrappers

  type UserId = string
  type Mid = string
  type Rid = string

  datatype Memorial = Memorial(
    owner: UserId, demo: bool, archived: bool, authority: string, authorityName: string, successor: string)

  datatype Status = Offered | Accepted | Declined | Cancelled | Completed

  // What the nominee signed.
  datatype Declaration = Declaration(name: string, authority: string)

  datatype Nomination = Nomination(mid: Mid, from: UserId, nominee: UserId, status: Status, signed: Option<Declaration>)

  datatype RequestStatus = Pending | Withdrawn | Refused

  datatype Request = Request(mid: Mid, requester: UserId, status: RequestStatus)

  datatype What =
    | Created | Nominated(nominee: UserId) | NomineeAccepted | NomineeDeclined | NominationCancelled
    | Transferred(from: UserId, to: UserId)
    | ErasureRequested | ErasureWithdrawn | ErasureDeclined | MemorialArchived | MemorialRestored
    | AccessGiven | AccessRemoved

  datatype Activity = Activity(mid: Mid, what: What, actor: string, request: Option<Rid>)

  datatype Db = Db(
    users: map<UserId, string>,  // to their email
    memorials: map<Mid, Memorial>,
    members: set<(Mid, string)>,  // family access, by email
    nominations: map<Rid, Nomination>,
    erasures: map<Rid, Request>,
    activity: seq<Activity>)

  datatype CareError =
    | NotTheOwner | UnknownNominee | AlreadyNominated | InvalidForm | NominationNotFound | NominationClosed
    | AlreadyCompleted | CaseMismatch | NotAccepted | ErasurePending | InvalidDeclaration
    | RequestNotFound | NotPending | UnknownAccount | EmailTaken

  const AUTHORITIES: set<string> := {"executor", "family-authorized"}

  const EMPTY := Db(map[], map[], {}, map[], map[], [])

  // ---- what is read ----

  predicate IsOwner(db: Db, mid: Mid, actor: UserId) {
    mid in db.memorials && db.memorials[mid].owner == actor && !db.memorials[mid].demo
  }

  predicate Active(n: Nomination) {
    n.status == Offered || n.status == Accepted
  }

  predicate ActiveFor(db: Db, rid: Rid, mid: Mid) {
    rid in db.nominations && db.nominations[rid].mid == mid && Active(db.nominations[rid])
  }

  predicate PendingFor(db: Db, rid: Rid, mid: Mid) {
    rid in db.erasures && db.erasures[rid].mid == mid && db.erasures[rid].status == Pending
  }

  predicate HasActive(db: Db, mid: Mid) {
    exists rid :: rid in db.nominations && ActiveFor(db, rid, mid)
  }

  predicate HasPending(db: Db, mid: Mid) {
    exists rid :: rid in db.erasures && PendingFor(db, rid, mid)
  }

  predicate ArchivedIn(db: Db, mid: Mid) {
    mid in db.memorials && db.memorials[mid].archived
  }

  predicate Proper(d: Declaration) {
    1 <= |d.name| <= 120 && d.authority in AUTHORITIES
  }

  predicate ValidDeclaration(d: Option<Declaration>) {
    d.Some? && Proper(d.value)
  }

  datatype Role = OwnerRole | FamilyRole | PublicRole

  function RoleOf(db: Db, mid: Mid, user: UserId): Role
    requires mid in db.memorials
  {
    if db.memorials[mid].owner == user then OwnerRole
    else if user in db.users && (mid, db.users[user]) in db.members then FamilyRole
    else PublicRole
  }

  // ---- what the recorded activity says ----

  // `Broken` once a record contradicts the ones before it.
  datatype Caretaker = Nobody | CaredBy(owner: UserId) | Broken

  /** The creator, then each transfer from the owner before it under some nomination. */
  function OwnerByActivity(log: seq<Activity>, mid: Mid): Caretaker {
    if log == [] then Nobody
    else
      var before, last := OwnerByActivity(log[..|log| - 1], mid), log[|log| - 1];
      if last.mid != mid then before
      else if last.what.Created? then (if before.Nobody? then CaredBy(last.actor) else Broken)
      else if last.what.Transferred? then
        (if before == CaredBy(last.what.from) && last.request.Some? then CaredBy(last.what.to) else Broken)
      else before
  }

  datatype Case = NoCase | Case(mid: Mid, from: UserId, nominee: UserId, status: Status) | Impossible

  // What one record does to its nomination, if it can follow what was recorded so far.
  function NextCase(c: Case, e: Activity): Case {
    match e.what
    case Nominated(nominee) => if c.NoCase? then Case(e.mid, e.actor, nominee, Offered) else Impossible
    case NomineeAccepted =>
      if c.Case? && c.mid == e.mid && c.nominee == e.actor && c.status == Offered
      then c.(status := Accepted) else Impossible
    case NomineeDeclined =>
      if c.Case? && c.mid == e.mid && c.nominee == e.actor && (c.status == Offered || c.status == Accepted)
      then c.(status := Declined) else Impossible
    case NominationCancelled =>
      if c.Case? && c.mid == e.mid && c.from == e.actor && (c.status == Offered || c.status == Accepted)
      then c.(status := Cancelled) else Impossible
    case Transferred(from, to) =>
      if c == Case(e.mid, from, to, Accepted) then c.(status := Completed) else Impossible
    case _ => c
  }

  function CaseByActivity(log: seq<Activity>, rid: Rid): Case {
    if log == [] then NoCase
    else
      var before, last := CaseByActivity(log[..|log| - 1], rid), log[|log| - 1];
      if last.request == Some(rid) then NextCase(before, last) else before
  }

  function CaseOf(db: Db, rid: Rid): Case {
    if rid in db.nominations then
      var n := db.nominations[rid]; Case(n.mid, n.from, n.nominee, n.status)
    else NoCase
  }

  // ---- what every reachable state satisfies ----

  ghost predicate NominationSound(db: Db, rid: Rid) {
    rid in db.nominations ==>
      var n := db.nominations[rid];
      && n.from != n.nominee
      && (Active(n) ==> IsOwner(db, n.mid, n.from))
      && (n.status == Accepted || n.status == Completed ==> ValidDeclaration(n.signed))
  }

  ghost predicate RequestSound(db: Db, rid: Rid) {
    rid in db.erasures && db.erasures[rid].status == Pending ==>
      IsOwner(db, db.erasures[rid].mid, db.erasures[rid].requester) && db.memorials[db.erasures[rid].mid].archived
  }

  ghost predicate OwnersFollow(db: Db) {
    forall mid: Mid ::
      OwnerByActivity(db.activity, mid) == if mid in db.memorials then CaredBy(db.memorials[mid].owner) else Nobody
  }

  ghost predicate CasesFollow(db: Db) {
    forall rid: Rid :: CaseByActivity(db.activity, rid) == CaseOf(db, rid)
  }

  ghost predicate OneAccountPerEmail(users: map<UserId, string>) {
    forall a, b :: a in users && b in users && users[a] == users[b] ==> a == b
  }

  ghost predicate Sound(db: Db) {
    && (forall rid: Rid :: NominationSound(db, rid))
    && (forall rid: Rid :: RequestSound(db, rid))
    && (forall a, b, mid :: ActiveFor(db, a, mid) && ActiveFor(db, b, mid) ==> a == b)
    && (forall a, b, mid :: PendingFor(db, a, mid) && PendingFor(db, b, mid) ==> a == b)
    && OwnersFollow(db) && CasesFollow(db) && OneAccountPerEmail(db.users)
  }

  function Logged(db: Db, mid: Mid, what: What, actor: string, rid: Option<Rid>): Db {
    db.(activity := db.activity + [Activity(mid, what, actor, rid)])
  }

  lemma LogKeepsOwners(db: Db, e: Activity)
    ensures var log := db.activity;
            forall m: Mid :: OwnerByActivity(log + [e], m)
                             == if m != e.mid || !(e.what.Created? || e.what.Transferred?) then OwnerByActivity(log, m)
                                else if e.what.Created? then
                                  (if OwnerByActivity(log, m).Nobody? then CaredBy(e.actor) else Broken)
                                else if OwnerByActivity(log, m) == CaredBy(e.what.from) && e.request.Some?
                                then CaredBy(e.what.to) else Broken
  {
  }

  lemma LogKeepsCases(db: Db, e: Activity)
    ensures var log := db.activity;
            forall rid: Rid :: CaseByActivity(log + [e], rid)
                               == if e.request == Some(rid) then NextCase(CaseByActivity(log, rid), e)
                                  else CaseByActivity(log, rid)
  {
    assert (db.activity + [e])[..|db.activity|] == db.activity;
  }

  // ---- what the operations leave behind ----

  function AfterCreate(db: Db, mid: Mid, owner: UserId, demo: bool, d: Declaration): Db {
    Logged(db.(memorials := db.memorials[mid := Memorial(owner, demo, false, d.authority, d.name, "")]),
           mid, Created, owner, None)
  }

  function AfterAccess(db: Db, mid: Mid, owner: UserId, email: string, give: bool): Db {
    Logged(db.(members := if give then db.members + {(mid, email)} else db.members - {(mid, email)}),
           mid, if give then AccessGiven else AccessRemoved, owner, None)
  }

  function AfterNominate(db: Db, mid: Mid, owner: UserId, nominee: UserId, rid: Rid): Db
    requires mid in db.memorials && nominee in db.users
  {
    Logged(db.(nominations := db.nominations[rid := Nomination(mid, owner, nominee, Offered, None)],
               memorials := db.memorials[mid := db.memorials[mid].(successor := db.users[nominee])]),
           mid, Nominated(nominee), owner, Some(rid))
  }

  function AfterAccept(db: Db, rid: Rid, signed: Declaration): Db
    requires rid in db.nominations
  {
    var n := db.nominations[rid];
    Logged(db.(nominations := db.nominations[rid := n.(status := Accepted, signed := Some(signed))]),
           n.mid, NomineeAccepted, n.nominee, Some(rid))
  }

  // Declined by the nominee or cancelled by the owner.
  function AfterClosing(db: Db, rid: Rid, declined: bool): Db
    requires rid in db.nominations && db.nominations[rid].mid in db.memorials
  {
    var n := db.nominations[rid];
    Logged(db.(nominations := db.nominations[rid := n.(status := if declined then Declined else Cancelled)],
               memorials := db.memorials[n.mid := db.memorials[n.mid].(successor := "")]),
           n.mid, if declined then NomineeDeclined else NominationCancelled, if declined then n.nominee else n.from,
           Some(rid))
  }

  // Without the family access this account gave itself; other family access stays.
  function WithoutMember(db: Db, mid: Mid, user: UserId): set<(Mid, string)> {
    if user in db.users then db.members - {(mid, db.users[user])} else db.members
  }

  function AfterTransfer(db: Db, rid: Rid, actor: string): Db
    requires rid in db.nominations && db.nominations[rid].mid in db.memorials && db.nominations[rid].signed.Some?
  {
    var n := db.nominations[rid];
    var signed := n.signed.value;
    var moved := db.memorials[n.mid].(
      owner := n.nominee, authority := signed.authority, authorityName := signed.name, successor := "");
    Logged(db.(memorials := db.memorials[n.mid := moved],
               members := WithoutMember(db, n.mid, n.from),
               nominations := db.nominations[rid := n.(status := Completed)]),
           n.mid, Transferred(n.from, n.nominee), actor, Some(rid))
  }

  function AfterRequest(db: Db, mid: Mid, owner: UserId, rid: Rid): Db
    requires mid in db.memorials
  {
    Logged(db.(erasures := db.erasures[rid := Request(mid, owner, Pending)],
               memorials := db.memorials[mid := db.memorials[mid].(archived := true)]),
           mid, ErasureRequested, owner, Some(rid))
  }

  function AfterRequestClosed(db: Db, rid: Rid, actor: string, withdrawn: bool): Db
    requires rid in db.erasures
  {
    Logged(db.(erasures := db.erasures[rid := db.erasures[rid].(status := if withdrawn then Withdrawn else Refused)]),
           db.erasures[rid].mid, if withdrawn then ErasureWithdrawn else ErasureDeclined, actor, Some(rid))
  }

  function AfterArchiving(db: Db, mid: Mid, actor: UserId, archive: bool): Db
    requires mid in db.memorials
  {
    Logged(db.(memorials := db.memorials[mid := db.memorials[mid].(archived := archive)]),
           mid, if archive then MemorialArchived else MemorialRestored, actor, None)
  }

  // ---- soundness is kept ----

  // The database stays sound when only `rid` is altered, no memorial changes hands, and the record fits.
  lemma KeepsSound(db: Db, after: Db, e: Activity, rid: Rid)
    requires Sound(db) && !e.what.Created? && !e.what.Transferred?
    requires after.activity == db.activity && after.memorials.Keys == db.memorials.Keys && after.users == db.users
    requires forall m :: m in db.memorials ==> after.memorials[m].owner == db.memorials[m].owner
    requires forall m :: m in db.memorials ==> after.memorials[m].demo == db.memorials[m].demo
    requires forall r :: r in db.erasures && db.erasures[r].status == Pending && r != rid ==>
               ArchivedIn(after, db.erasures[r].mid)
    requires forall r :: r != rid ==> (r in after.nominations <==> r in db.nominations)
    requires forall r :: r != rid ==> (r in after.erasures <==> r in db.erasures)
    requires forall r :: r in db.nominations && r != rid ==> after.nominations[r] == db.nominations[r]
    requires forall r :: r in db.erasures && r != rid ==> after.erasures[r] == db.erasures[r]
    requires NominationSound(after, rid) && RequestSound(after, rid)
    requires forall m :: ActiveFor(after, rid, m) ==> forall r :: r != rid ==> !ActiveFor(db, r, m)
    requires forall m :: PendingFor(after, rid, m) ==> forall r :: r != rid ==> !PendingFor(db, r, m)
    requires e.request == Some(rid) && CaseOf(after, rid) == NextCase(CaseOf(db, rid), e)
    ensures Sound(after.(activity := after.activity + [e]))
  {
    var end := after.(activity := after.activity + [e]);
    LogKeepsOwners(after, e);
    LogKeepsCases(after, e);
    forall r: Rid ensures NominationSound(end, r) && RequestSound(end, r) {
      assert NominationSound(db, r) && RequestSound(db, r);
      assert r == rid ==> NominationSound(after, r) && RequestSound(after, r);
    }
    forall a, b, m | ActiveFor(end, a, m) && ActiveFor(end, b, m) ensures a == b {
      assert a != rid ==> ActiveFor(db, a, m);
      assert b != rid ==> ActiveFor(db, b, m);
      assert a == rid || b == rid ==> ActiveFor(after, rid, m);
    }
    forall a, b, m | PendingFor(end, a, m) && PendingFor(end, b, m) ensures a == b {
      assert a != rid ==> PendingFor(db, a, m);
      assert b != rid ==> PendingFor(db, b, m);
      assert a == rid || b == rid ==> PendingFor(after, rid, m);
    }
    forall r: Rid ensures CaseByActivity(end.activity, r) == CaseOf(end, r) {
      assert r == rid ==> CaseOf(end, r) == CaseOf(after, r);
    }
  }

  // Nominations and requests as they were: the record names none of them.
  lemma SameCasesKeepSound(db: Db, after: Db, e: Activity)
    requires Sound(db) && e.request.None? && !e.what.Transferred?
    requires after.activity == db.activity && after.nominations == db.nominations && after.erasures == db.erasures
    requires OneAccountPerEmail(after.users)
    requires forall m :: m in db.memorials ==> m in after.memorials
    requires forall m :: m in db.memorials ==> after.memorials[m].owner == db.memorials[m].owner
    requires forall m :: m in db.memorials ==> after.memorials[m].demo == db.memorials[m].demo
    requires forall r :: r in db.erasures && PendingFor(db, r, db.erasures[r].mid) ==>
               ArchivedIn(after, db.erasures[r].mid)
    requires e.what.Created? ==> after.memorials.Keys == db.memorials.Keys + {e.mid} && e.mid !in db.memorials
                                 && after.memorials[e.mid].owner == e.actor
    requires !e.what.Created? ==> after.memorials.Keys == db.memorials.Keys
    ensures Sound(after.(activity := after.activity + [e]))
  {
    var end := after.(activity := after.activity + [e]);
    LogKeepsOwners(after, e);
    LogKeepsCases(after, e);
    forall r: Rid ensures NominationSound(end, r) && RequestSound(end, r) {
      assert NominationSound(db, r) && RequestSound(db, r);
    }
    forall a, b, m | ActiveFor(end, a, m) && ActiveFor(end, b, m) ensures a == b {
      assert ActiveFor(db, a, m) && ActiveFor(db, b, m);
    }
    forall a, b, m | PendingFor(end, a, m) && PendingFor(end, b, m) ensures a == b {
      assert PendingFor(db, a, m) && PendingFor(db, b, m);
    }
    forall r: Rid ensures CaseByActivity(end.activity, r) == CaseOf(end, r) {
      assert CaseOf(end, r) == CaseOf(db, r);
    }
  }

  lemma CreateKeepsSound(db: Db, mid: Mid, owner: UserId, demo: bool, d: Declaration)
    requires Sound(db) && mid !in db.memorials
    ensures Sound(AfterCreate(db, mid, owner, demo, d))
  {
    var after := db.(memorials := db.memorials[mid := Memorial(owner, demo, false, d.authority, d.name, "")]);
    PendingAreArchived(db);
    SameCasesKeepSound(db, after, Activity(mid, Created, owner, None));
  }

  lemma AccessKeepsSound(db: Db, mid: Mid, owner: UserId, email: string, give: bool)
    requires Sound(db)
    ensures Sound(AfterAccess(db, mid, owner, email, give))
  {
    var after := db.(members := if give then db.members + {(mid, email)} else db.members - {(mid, email)});
    PendingAreArchived(db);
    SameCasesKeepSound(db, after, Activity(mid, if give then AccessGiven else AccessRemoved, owner, None));
  }

  lemma PendingAreArchived(db: Db)
    requires Sound(db)
    ensures forall r :: r in db.erasures && db.erasures[r].status == Pending ==> ArchivedIn(db, db.erasures[r].mid)
  {
    forall r | r in db.erasures && db.erasures[r].status == Pending ensures ArchivedIn(db, db.erasures[r].mid) {
      assert RequestSound(db, r);
    }
  }

  lemma NominateKeepsSound(db: Db, mid: Mid, owner: UserId, nominee: UserId, rid: Rid)
    requires Sound(db) && IsOwner(db, mid, owner) && nominee in db.users && nominee != owner && !HasActive(db, mid)
    requires rid !in db.nominations && rid !in db.erasures
    ensures Sound(AfterNominate(db, mid, owner, nominee, rid))
  {
    var after := db.(nominations := db.nominations[rid := Nomination(mid, owner, nominee, Offered, None)],
                     memorials := db.memorials[mid := db.memorials[mid].(successor := db.users[nominee])]);
    PendingAreArchived(db);
    forall r ensures !ActiveFor(db, r, mid) { assert r in db.nominations ==> !ActiveFor(db, r, mid); }
    KeepsSound(db, after, Activity(mid, Nominated(nominee), owner, Some(rid)), rid);
  }

  lemma AcceptKeepsSound(db: Db, rid: Rid, signed: Declaration)
    requires Sound(db) && rid in db.nominations && db.nominations[rid].status == Offered && Proper(signed)
    ensures Sound(AfterAccept(db, rid, signed))
  {
    var n := db.nominations[rid];
    var after := db.(nominations := db.nominations[rid := n.(status := Accepted, signed := Some(signed))]);
    NominationChanged(db, after, rid, Activity(n.mid, NomineeAccepted, n.nominee, Some(rid)));
  }

  lemma ClosingKeepsSound(db: Db, rid: Rid, declined: bool)
    requires Sound(db) && rid in db.nominations && Active(db.nominations[rid])
    ensures db.nominations[rid].mid in db.memorials && Sound(AfterClosing(db, rid, declined))
    ensures !HasActive(AfterClosing(db, rid, declined), db.nominations[rid].mid)
  {
    var n := db.nominations[rid];
    assert NominationSound(db, rid);
    var after := db.(nominations := db.nominations[rid := n.(status := if declined then Declined else Cancelled)],
                     memorials := db.memorials[n.mid := db.memorials[n.mid].(successor := "")]);
    NominationChanged(db, after, rid,
                      Activity(n.mid, if declined then NomineeDeclined else NominationCancelled,
                               if declined then n.nominee else n.from, Some(rid)));
    NoOtherActive(db, AfterClosing(db, rid, declined), rid);
  }

  lemma NoOtherActive(db: Db, after: Db, rid: Rid)
    requires Sound(db) && rid in db.nominations && Active(db.nominations[rid]) && rid in after.nominations
    requires after.nominations == db.nominations[rid := after.nominations[rid]] && !Active(after.nominations[rid])
    ensures !HasActive(after, db.nominations[rid].mid)
  {
    var mid := db.nominations[rid].mid;
    assert ActiveFor(db, rid, mid);
    forall r | r in after.nominations ensures !ActiveFor(after, r, mid) {
      assert r != rid && ActiveFor(after, r, mid) ==> ActiveFor(db, r, mid);
    }
  }

  lemma NominationChanged(db: Db, after: Db, rid: Rid, e: Activity)
    requires Sound(db) && !e.what.Created? && !e.what.Transferred?
    requires rid in db.nominations && Active(db.nominations[rid]) && rid in after.nominations
    requires var n, m := db.nominations[rid], after.nominations[rid];
             && m.mid == n.mid && m.from == n.from && m.nominee == n.nominee
             && (m.status == Accepted || m.status == Completed ==> ValidDeclaration(m.signed))
    requires after == db.(nominations := db.nominations[rid := after.nominations[rid]], memorials := after.memorials)
    requires after.memorials.Keys == db.memorials.Keys
    requires forall m :: m in db.memorials ==>
               after.memorials[m] == db.memorials[m].(successor := after.memorials[m].successor)
    requires e.request == Some(rid) && CaseOf(after, rid) == NextCase(CaseOf(db, rid), e)
    ensures Sound(after.(activity := after.activity + [e]))
  {
    assert NominationSound(db, rid) && RequestSound(db, rid);
    assert ActiveFor(db, rid, db.nominations[rid].mid);
    PendingAreArchived(db);
    forall m, q | PendingFor(after, rid, m) && q != rid ensures !PendingFor(db, q, m) {
      assert PendingFor(db, rid, m);
    }
    KeepsSound(db, after, e, rid);
  }

  /** A transfer moves the one active nomination's memorial on to its nominee, leaves no nomination active on it and
      no pending erasure behind. */
  lemma TransferKeepsSound(db: Db, rid: Rid, actor: string)
    requires Sound(db) && rid in db.nominations && db.nominations[rid].status == Accepted
    requires !HasPending(db, db.nominations[rid].mid)
    ensures db.nominations[rid].mid in db.memorials && db.nominations[rid].signed.Some?
    ensures Sound(AfterTransfer(db, rid, actor)) && !HasActive(AfterTransfer(db, rid, actor), db.nominations[rid].mid)
  {
    assert NominationSound(db, rid);
    var n := db.nominations[rid];
    var after := AfterTransfer(db, rid, actor);
    var e := Activity(n.mid, Transferred(n.from, n.nominee), actor, Some(rid));
    LogKeepsOwners(db, e);
    LogKeepsCases(db, e);
    assert ActiveFor(db, rid, n.mid);
    NoOtherActive(db, after, rid);
    forall r: Rid ensures NominationSound(after, r) && RequestSound(after, r) {
      assert NominationSound(db, r) && RequestSound(db, r);
      assert ActiveFor(db, r, n.mid) ==> r == rid;
      assert !PendingFor(db, r, n.mid);
    }
    forall a, b, m | ActiveFor(after, a, m) && ActiveFor(after, b, m) ensures a == b {
      assert ActiveFor(db, a, m) && ActiveFor(db, b, m);
    }
    forall a, b, m | PendingFor(after, a, m) && PendingFor(after, b, m) ensures a == b {
      assert PendingFor(db, a, m) && PendingFor(db, b, m);
    }
    forall r: Rid ensures CaseByActivity(after.activity, r) == CaseOf(after, r) {
      assert r != rid ==> CaseOf(after, r) == CaseOf(db, r);
    }
  }

  /** A transfer moves the roles: the nominee becomes the owner, the former owner is an outsider, also if they had
      given themselves family access, and nobody else's role on any memorial changes. */
  lemma TransferMovesRoles(db: Db, rid: Rid, actor: string, mid: Mid, user: UserId)
    requires Sound(db) && rid in db.nominations && db.nominations[rid].status == Accepted && mid in db.memorials
    ensures db.nominations[rid].mid in db.memorials && db.nominations[rid].signed.Some?
    ensures var n := db.nominations[rid];
            RoleOf(AfterTransfer(db, rid, actor), mid, user) ==
            if mid == n.mid && user == n.nominee then OwnerRole
            else if mid == n.mid && user == n.from then PublicRole
            else RoleOf(db, mid, user)
  {
    assert NominationSound(db, rid);
  }

  lemma RequestKeepsSound(db: Db, mid: Mid, owner: UserId, rid: Rid)
    requires Sound(db) && IsOwner(db, mid, owner) && !HasPending(db, mid)
    requires rid !in db.nominations && rid !in db.erasures
    ensures Sound(AfterRequest(db, mid, owner, rid))
  {
    var after := db.(erasures := db.erasures[rid := Request(mid, owner, Pending)],
                     memorials := db.memorials[mid := db.memorials[mid].(archived := true)]);
    PendingAreArchived(db);
    forall r ensures !PendingFor(db, r, mid) { assert r in db.erasures ==> !PendingFor(db, r, mid); }
    KeepsSound(db, after, Activity(mid, ErasureRequested, owner, Some(rid)), rid);
  }

  lemma RequestClosedKeepsSound(db: Db, rid: Rid, actor: string, withdrawn: bool)
    requires Sound(db) && rid in db.erasures && db.erasures[rid].status == Pending
    ensures Sound(AfterRequestClosed(db, rid, actor, withdrawn))
    ensures !HasPending(AfterRequestClosed(db, rid, actor, withdrawn), db.erasures[rid].mid)
  {
    var mid := db.erasures[rid].mid;
    var after := db.(erasures := db.erasures[rid :=
                       db.erasures[rid].(status := if withdrawn then Withdrawn else Refused)]);
    assert PendingFor(db, rid, mid);
    assert NominationSound(db, rid);
    PendingAreArchived(db);
    forall m, q | ActiveFor(after, rid, m) && q != rid ensures !ActiveFor(db, q, m) {
      assert ActiveFor(db, rid, m);
    }
    KeepsSound(db, after, Activity(mid, if withdrawn then ErasureWithdrawn else ErasureDeclined, actor, Some(rid)),
               rid);
    forall q | q in after.erasures ensures !PendingFor(AfterRequestClosed(db, rid, actor, withdrawn), q, mid) {
      assert q != rid && q in db.erasures && after.erasures[q] == db.erasures[q] ==> !PendingFor(db, q, mid);
    }
  }

  lemma ArchivingKeepsSound(db: Db, mid: Mid, actor: UserId, archive: bool)
    requires Sound(db) && IsOwner(db, mid, actor) && (archive || !HasPending(db, mid))
    ensures Sound(AfterArchiving(db, mid, actor, archive))
  {
    var after := db.(memorials := db.memorials[mid := db.memorials[mid].(archived := archive)]);
    PendingAreArchived(db);
    forall r | r in db.erasures && PendingFor(db, r, db.erasures[r].mid) ensures ArchivedIn(after, db.erasures[r].mid) {
      assert !archive && db.erasures[r].mid == mid ==> !PendingFor(db, r, mid);
    }
    SameCasesKeepSound(db, after, Activity(mid, if archive then MemorialArchived else MemorialRestored, actor, None));
  }

  lemma SamePending(db: Db, after: Db, mid: Mid)
    requires after.erasures == db.erasures
    ensures HasPending(after, mid) <==> HasPending(db, mid)
  {
    forall r ensures PendingFor(after, r, mid) <==> PendingFor(db, r, mid) {}
  }

  lemma RegisterKeepsSound(db: Db, user: UserId, email: string)
    requires Sound(db) && user !in db.users && email !in db.users.Values
    ensures Sound(db.(users := db.users[user := email]))
  {
    var after := db.(users := db.users[user := email]);
    forall r: Rid ensures NominationSound(after, r) && RequestSound(after, r) {
      assert NominationSound(db, r) && RequestSound(db, r);
    }
    forall a, b, m | ActiveFor(after, a, m) && ActiveFor(after, b, m) ensures a == b {
      assert ActiveFor(db, a, m) && ActiveFor(db, b, m);
    }
    forall a, b, m | PendingFor(after, a, m) && PendingFor(after, b, m) ensures a == b {
      assert PendingFor(db, a, m) && PendingFor(db, b, m);
    }
    forall r: Rid
      ensures CaseByActivity(after.activity, r) == CaseOf(after, r)
    {
      assert CaseOf(after, r) == CaseOf(db, r);
    }
  }
}
