/** Nomination and transfer of a memorial's care, with what shares its rows: erasure requests, archiving and family
    access. The service's methods are the steps of one machine, and the results hold after every sequence of them. */
module Succession {
  import opened Wrappers
  import opened CareStore

  // ---- the steps ----

  // The calls that change something; any other call leaves the database as it is.
  datatype Step =
    | Registration(user: UserId, email: string)
    | Creation(mid: Mid, owner: UserId, demo: bool, declared: Declaration)
    | AccessChange(mid: Mid, owner: UserId, email: string, code: UserId, give: bool)
    | Offer(mid: Mid, owner: UserId, nominee: UserId, rid: Rid)
    | Acceptance(rid: Rid, nominee: UserId, signed: Declaration)
    | Refusal(rid: Rid, nominee: UserId)
    | Cancellation(mid: Mid, rid: Rid, owner: UserId)
    | Handover(rid: Rid, from: UserId, to: UserId, operator: string)
    | ErasureRequest(mid: Mid, owner: UserId, rid: Rid)
    | ErasureWithdrawal(mid: Mid, rid: Rid, owner: UserId)
    | ErasureRefusal(rid: Rid, operator: string)
    | Archiving(mid: Mid, actor: UserId, archive: bool)

  predicate Fresh(db: Db, rid: Rid) {
    rid !in db.nominations && rid !in db.erasures
  }

  predicate Enabled(db: Db, step: Step) {
    match step
    case Registration(user, email) => user !in db.users && email !in db.users.Values
    case Creation(mid, owner, demo, declared) => mid !in db.memorials
    case AccessChange(mid, owner, email, code, give) =>
      IsOwner(db, mid, owner) && (give ==> code in db.users && db.users[code] == email)
    case Offer(mid, owner, nominee, rid) =>
      IsOwner(db, mid, owner) && nominee in db.users && nominee != owner && !HasActive(db, mid) && Fresh(db, rid)
    case Acceptance(rid, nominee, signed) =>
      && Proper(signed) && rid in db.nominations && db.nominations[rid].nominee == nominee
      && db.nominations[rid].status == Offered
    case Refusal(rid, nominee) =>
      && rid in db.nominations && db.nominations[rid].nominee == nominee && Active(db.nominations[rid])
      && IsOwner(db, db.nominations[rid].mid, db.nominations[rid].from)
    case Cancellation(mid, rid, owner) =>
      && IsOwner(db, mid, owner) && rid in db.nominations && db.nominations[rid].mid == mid
      && db.nominations[rid].from == owner && Active(db.nominations[rid])
    case Handover(rid, from, to, operator) =>
      && rid in db.nominations && db.nominations[rid].from == from && db.nominations[rid].nominee == to
      && db.nominations[rid].status == Accepted && db.nominations[rid].signed.Some?
      && db.nominations[rid].mid in db.memorials && !HasPending(db, db.nominations[rid].mid)
    case ErasureRequest(mid, owner, rid) => IsOwner(db, mid, owner) && !HasPending(db, mid) && Fresh(db, rid)
    case ErasureWithdrawal(mid, rid, owner) => IsOwner(db, mid, owner) && PendingFor(db, rid, mid)
    case ErasureRefusal(rid, operator) => rid in db.erasures && db.erasures[rid].status == Pending
    case Archiving(mid, actor, archive) => IsOwner(db, mid, actor) && (archive || !HasPending(db, mid))
  }

  function Do(db: Db, step: Step): Db
    requires Enabled(db, step)
  {
    match step
    case Registration(user, email) => db.(users := db.users[user := email])
    case Creation(mid, owner, demo, declared) => AfterCreate(db, mid, owner, demo, declared)
    case AccessChange(mid, owner, email, code, give) => AfterAccess(db, mid, owner, email, give)
    case Offer(mid, owner, nominee, rid) => AfterNominate(db, mid, owner, nominee, rid)
    case Acceptance(rid, nominee, signed) => AfterAccept(db, rid, signed)
    case Refusal(rid, nominee) => AfterClosing(db, rid, true)
    case Cancellation(mid, rid, owner) => AfterClosing(db, rid, false)
    case Handover(rid, from, to, operator) => AfterTransfer(db, rid, operator)
    case ErasureRequest(mid, owner, rid) => AfterRequest(db, mid, owner, rid)
    case ErasureWithdrawal(mid, rid, owner) => AfterRequestClosed(db, rid, owner, true)
    case ErasureRefusal(rid, operator) => AfterRequestClosed(db, rid, operator, false)
    case Archiving(mid, actor, archive) => AfterArchiving(db, mid, actor, archive)
  }

  ghost predicate AtMostOneStep(db: Db, after: Db) {
    after == db || exists step :: Took(db, after, step)
  }

  ghost predicate Took(db: Db, after: Db, step: Step) {
    Enabled(db, step) && after == Do(db, step)
  }

  function Replay(steps: seq<Step>): Option<Db> {
    if steps == [] then Some(EMPTY)
    else
      var before := Replay(steps[..|steps| - 1]);
      if before.Some? && Enabled(before.value, steps[|steps| - 1]) then Some(Do(before.value, steps[|steps| - 1]))
      else None
  }

  lemma StepKeepsSound(db: Db, step: Step)
    requires Sound(db) && Enabled(db, step)
    ensures Sound(Do(db, step))
  {
    match step
    case Registration(user, email) => RegisterKeepsSound(db, user, email);
    case Creation(mid, owner, demo, declared) => CreateKeepsSound(db, mid, owner, demo, declared);
    case AccessChange(mid, owner, email, _, give) => AccessKeepsSound(db, mid, owner, email, give);
    case Offer(mid, owner, nominee, rid) => NominateKeepsSound(db, mid, owner, nominee, rid);
    case Acceptance(rid, _, signed) => AcceptKeepsSound(db, rid, signed);
    case Refusal(rid, _) => ClosingKeepsSound(db, rid, true);
    case Cancellation(_, rid, _) => ClosingKeepsSound(db, rid, false);
    case Handover(rid, _, _, operator) => TransferKeepsSound(db, rid, operator);
    case ErasureRequest(mid, owner, rid) => RequestKeepsSound(db, mid, owner, rid);
    case ErasureWithdrawal(_, rid, owner) => RequestClosedKeepsSound(db, rid, owner, true);
    case ErasureRefusal(rid, operator) => RequestClosedKeepsSound(db, rid, operator, false);
    case Archiving(mid, actor, archive) => ArchivingKeepsSound(db, mid, actor, archive);
  }

  lemma {:induction false} RunKeepsSound(steps: seq<Step>)
    requires Replay(steps).Some?
    ensures Sound(Replay(steps).value)
  {
    if steps == [] {
      EmptyIsSound();
    } else {
      RunKeepsSound(steps[..|steps| - 1]);
      StepKeepsSound(Replay(steps[..|steps| - 1]).value, steps[|steps| - 1]);
    }
  }

  lemma EmptyIsSound()
    ensures Sound(EMPTY)
  {
  }

  // ---- the service ----

  class Care {
    var db: Db

    ghost predicate Valid()
      reads this
    {
      Sound(db)
    }

    constructor ()
      ensures Valid() && db == EMPTY
    {
      db := EMPTY;
    }

    method Register(user: UserId, email: string) returns (r: Result<bool, CareError>)
      requires Valid() && user !in db.users  // a new random id
      modifies this
      ensures Valid() && AtMostOneStep(old(db), db)
      ensures r == if email in old(db).users.Values then Err(EmailTaken) else Ok(true)
      ensures db == if r.Ok? then old(db).(users := old(db).users[user := email]) else old(db)
    {
      if email in db.users.Values { return Err(EmailTaken); }
      RegisterKeepsSound(db, user, email);
      db := db.(users := db.users[user := email]);
      assert Took(old(db), db, Registration(user, email));
      return Ok(true);
    }

    method CreateMemorial(mid: Mid, owner: UserId, demo: bool, authority: string, name: string)
      requires Valid() && mid !in db.memorials  // a new random id
      modifies this
      ensures Valid() && AtMostOneStep(old(db), db)
      ensures db == AfterCreate(old(db), mid, owner, demo, Declaration(name, authority))
    {
      CreateKeepsSound(db, mid, owner, demo, Declaration(name, authority));
      db := db.(memorials := db.memorials[mid := Memorial(owner, demo, false, authority, name, "")]);
      db := Logged(db, mid, Created, owner, None);
      assert Took(old(db), db, Creation(mid, owner, demo, Declaration(name, authority)));
    }

    /** Family access is given to existing accounts only. */
    method SetAccess(mid: Mid, owner: UserId, email: string, code: UserId, give: bool)
      returns (r: Result<bool, CareError>)
      requires Valid()
      modifies this
      ensures Valid() && AtMostOneStep(old(db), db)
      ensures r.Ok? <==>
              IsOwner(old(db), mid, owner) && (give ==> code in old(db).users && old(db).users[code] == email)
      ensures r.Err? ==> r.error == if IsOwner(old(db), mid, owner) then UnknownAccount else NotTheOwner
      ensures db == if r.Ok? then AfterAccess(old(db), mid, owner, email, give) else old(db)
    {
      if !IsOwner(db, mid, owner) { return Err(NotTheOwner); }
      if give && (code !in db.users || db.users[code] != email) { return Err(UnknownAccount); }
      AccessKeepsSound(db, mid, owner, email, give);
      db := db.(members := if give then db.members + {(mid, email)} else db.members - {(mid, email)});
      db := Logged(db, mid, if give then AccessGiven else AccessRemoved, owner, None);
      assert Took(old(db), db, AccessChange(mid, owner, email, code, give));
      return Ok(true);
    }

    /** `email` and `code` as typed, already trimmed and lower-cased. */
    method Nominate(mid: Mid, owner: UserId, email: string, code: UserId, rid: Rid) returns (r: Result<Rid, CareError>)
      requires Valid() && rid !in db.nominations && rid !in db.erasures  // a new random id
      modifies this
      ensures Valid() && AtMostOneStep(old(db), db)
      ensures r.Ok? <==>
              && IsOwner(old(db), mid, owner) && code in old(db).users && old(db).users[code] == email && code != owner
              && !HasActive(old(db), mid)
      ensures r.Err? ==>
                r.error == if !IsOwner(old(db), mid, owner) then NotTheOwner
                           else if code !in old(db).users || old(db).users[code] != email || code == owner
                           then UnknownNominee else AlreadyNominated
      ensures r.Ok? ==> r.value == rid && db == AfterNominate(old(db), mid, owner, code, rid)
      ensures r.Err? ==> db == old(db)
    {
      if !IsOwner(db, mid, owner) { return Err(NotTheOwner); }
      if code !in db.users || db.users[code] != email || code == owner { return Err(UnknownNominee); }
      if HasActive(db, mid) { return Err(AlreadyNominated); }
      NominateKeepsSound(db, mid, owner, code, rid);
      db := db.(nominations := db.nominations[rid := Nomination(mid, owner, code, Offered, None)]);
      db := db.(memorials := db.memorials[mid := db.memorials[mid].(successor := email)]);
      db := Logged(db, mid, Nominated(code), owner, Some(rid));
      assert Took(old(db), db, Offer(mid, owner, code, rid));
      return Ok(rid);
    }

    method Respond(rid: Rid, nominee: UserId, accept: bool, name: string, authority: string)
      returns (r: Result<bool, CareError>)
      requires Valid()
      modifies this
      ensures Valid() && AtMostOneStep(old(db), db)
      ensures r.Ok? <==>
              && (accept ==> 1 <= |name| <= 120 && authority in AUTHORITIES)
              && rid in old(db).nominations && old(db).nominations[rid].nominee == nominee
              && Active(old(db).nominations[rid])
      ensures r.Ok? ==> (r.value <==> !(accept && old(db).nominations[rid].status == Accepted))
      ensures r.Err? ==>
                r.error == if accept && !(1 <= |name| <= 120 && authority in AUTHORITIES) then InvalidForm
                           else if rid !in old(db).nominations || old(db).nominations[rid].nominee != nominee
                           then NominationNotFound
                           else if !IsOwner(old(db), old(db).nominations[rid].mid, old(db).nominations[rid].from)
                           then NotTheOwner else NominationClosed
      ensures r == Ok(true) && accept ==> db == AfterAccept(old(db), rid, Declaration(name, authority))
      ensures r == Ok(true) && !accept ==>
                && old(db).nominations[rid].mid in old(db).memorials && db == AfterClosing(old(db), rid, true)
                && !HasActive(db, old(db).nominations[rid].mid)
      ensures r != Ok(true) ==> db == old(db)
    {
      if accept && !(1 <= |name| <= 120 && authority in AUTHORITIES) { return Err(InvalidForm); }
      if rid !in db.nominations || db.nominations[rid].nominee != nominee { return Err(NominationNotFound); }
      var n := db.nominations[rid];
      assert NominationSound(db, rid);
      if !IsOwner(db, n.mid, n.from) { return Err(NotTheOwner); }
      if !Active(n) { return Err(NominationClosed); }
      if accept {
        if n.status == Accepted { return Ok(false); }
        AcceptKeepsSound(db, rid, Declaration(name, authority));
        db := db.(nominations := db.nominations[rid := n.(status := Accepted,
                                                          signed := Some(Declaration(name, authority)))]);
      } else {
        ClosingKeepsSound(db, rid, true);
        db := db.(nominations := db.nominations[rid := n.(status := Declined)]);
        db := db.(memorials := db.memorials[n.mid := db.memorials[n.mid].(successor := "")]);
      }
      db := Logged(db, n.mid, if accept then NomineeAccepted else NomineeDeclined, nominee, Some(rid));
      assert Took(old(db), db,
                  if accept then Acceptance(rid, nominee, Declaration(name, authority)) else Refusal(rid, nominee));
      return Ok(true);
    }

    method Cancel(mid: Mid, rid: Rid, owner: UserId) returns (r: Result<bool, CareError>)
      requires Valid()
      modifies this
      ensures Valid() && AtMostOneStep(old(db), db)
      ensures r.Ok? <==>
              && IsOwner(old(db), mid, owner) && rid in old(db).nominations && old(db).nominations[rid].mid == mid
              && old(db).nominations[rid].from == owner && old(db).nominations[rid].status != Completed
      ensures r.Ok? ==> (r.value <==> Active(old(db).nominations[rid]))
      ensures r.Err? ==>
                r.error == if !IsOwner(old(db), mid, owner) then NotTheOwner
                           else if rid in old(db).nominations && old(db).nominations[rid].mid == mid
                                   && old(db).nominations[rid].from == owner
                           then AlreadyCompleted else NominationNotFound
      ensures r == Ok(true) ==> db == AfterClosing(old(db), rid, false) && !HasActive(db, mid)
      ensures r != Ok(true) ==> db == old(db)
    {
      if !IsOwner(db, mid, owner) { return Err(NotTheOwner); }
      if rid !in db.nominations || db.nominations[rid].mid != mid || db.nominations[rid].from != owner {
        return Err(NominationNotFound);
      }
      var n := db.nominations[rid];
      if n.status == Cancelled || n.status == Declined { return Ok(false); }
      if n.status == Completed { return Err(AlreadyCompleted); }
      ClosingKeepsSound(db, rid, false);
      db := db.(nominations := db.nominations[rid := n.(status := Cancelled)]);
      db := db.(memorials := db.memorials[mid := db.memorials[mid].(successor := "")]);
      db := Logged(db, mid, NominationCancelled, owner, Some(rid));
      assert Took(old(db), db, Cancellation(mid, rid, owner));
      return Ok(true);
    }

    method Transfer(rid: Rid, from: UserId, to: UserId, actor: string) returns (r: Result<bool, CareError>)
      requires Valid()
      modifies this
      ensures Valid() && AtMostOneStep(old(db), db)
      ensures r.Ok? <==>
              && rid in old(db).nominations
              && old(db).nominations[rid].from == from && old(db).nominations[rid].nominee == to
              && (old(db).nominations[rid].status == Completed
                  || (old(db).nominations[rid].status == Accepted
                      && !HasPending(old(db), old(db).nominations[rid].mid)))
      ensures r.Ok? ==> (r.value <==> old(db).nominations[rid].status == Accepted)
      ensures r.Err? ==>
                r.error == if rid !in old(db).nominations || old(db).nominations[rid].from != from
                              || old(db).nominations[rid].nominee != to then CaseMismatch
                           else if old(db).nominations[rid].status != Accepted then NotAccepted else ErasurePending
      ensures r == Ok(true) ==>
                && old(db).nominations[rid].mid in old(db).memorials && old(db).nominations[rid].signed.Some?
                && db == AfterTransfer(old(db), rid, actor) && IsOwner(db, old(db).nominations[rid].mid, to)
      ensures r != Ok(true) ==> db == old(db)
    {
      if rid !in db.nominations || db.nominations[rid].from != from || db.nominations[rid].nominee != to {
        return Err(CaseMismatch);
      }
      var n := db.nominations[rid];
      if n.status == Completed { return Ok(false); }
      if n.status != Accepted { return Err(NotAccepted); }
      assert NominationSound(db, rid);
      if !IsOwner(db, n.mid, from) { return Err(NotTheOwner); }
      if HasPending(db, n.mid) { return Err(ErasurePending); }
      if !ValidDeclaration(n.signed) { return Err(InvalidDeclaration); }
      TransferKeepsSound(db, rid, actor);
      db := db.(memorials := db.memorials[n.mid := db.memorials[n.mid].(
        owner := to, authority := n.signed.value.authority, authorityName := n.signed.value.name, successor := "")]);
      db := db.(members := WithoutMember(db, n.mid, from));
      db := db.(nominations := db.nominations[rid := n.(status := Completed)]);
      db := Logged(db, n.mid, Transferred(from, to), actor, Some(rid));
      assert Took(old(db), db, Handover(rid, from, to, actor));
      return Ok(true);
    }

    method RequestErasure(mid: Mid, owner: UserId, nameLength: nat, rid: Rid) returns (r: Result<Rid, CareError>)
      requires Valid() && rid !in db.erasures && rid !in db.nominations  // a new random id
      modifies this
      ensures Valid() && AtMostOneStep(old(db), db)
      ensures r.Ok? <==> 1 <= nameLength <= 120 && IsOwner(old(db), mid, owner) && !HasPending(old(db), mid)
      ensures r.Err? ==> r.error == if !(1 <= nameLength <= 120) then InvalidForm
                                    else if !IsOwner(old(db), mid, owner) then NotTheOwner else ErasurePending
      ensures r.Ok? ==> r.value == rid && db == AfterRequest(old(db), mid, owner, rid)
      ensures r.Err? ==> db == old(db)
    {
      if !(1 <= nameLength <= 120) { return Err(InvalidForm); }
      if !IsOwner(db, mid, owner) { return Err(NotTheOwner); }
      if HasPending(db, mid) { return Err(ErasurePending); }
      RequestKeepsSound(db, mid, owner, rid);
      db := db.(erasures := db.erasures[rid := Request(mid, owner, Pending)]);
      db := db.(memorials := db.memorials[mid := db.memorials[mid].(archived := true)]);
      db := Logged(db, mid, ErasureRequested, owner, Some(rid));
      assert Took(old(db), db, ErasureRequest(mid, owner, rid));
      return Ok(rid);
    }

    method WithdrawErasure(mid: Mid, rid: Rid, owner: UserId) returns (r: Result<bool, CareError>)
      requires Valid()
      modifies this
      ensures Valid() && AtMostOneStep(old(db), db)
      ensures r.Ok? <==> IsOwner(old(db), mid, owner) && rid in old(db).erasures && old(db).erasures[rid].mid == mid
      ensures r.Err? ==> r.error == if IsOwner(old(db), mid, owner) then RequestNotFound else NotTheOwner
      ensures r.Ok? ==> (r.value <==> old(db).erasures[rid].status == Pending)
      ensures r == Ok(true) ==> db == AfterRequestClosed(old(db), rid, owner, true) && !HasPending(db, mid)
      ensures r != Ok(true) ==> db == old(db)
    {
      if !IsOwner(db, mid, owner) { return Err(NotTheOwner); }
      if rid !in db.erasures || db.erasures[rid].mid != mid { return Err(RequestNotFound); }
      if db.erasures[rid].status != Pending { return Ok(false); }
      RequestClosedKeepsSound(db, rid, owner, true);
      db := db.(erasures := db.erasures[rid := db.erasures[rid].(status := Withdrawn)]);
      db := Logged(db, mid, ErasureWithdrawn, owner, Some(rid));
      assert Took(old(db), db, ErasureWithdrawal(mid, rid, owner));
      return Ok(true);
    }

    method DeclineErasure(rid: Rid, operator: string) returns (r: Result<bool, CareError>)
      requires Valid()
      modifies this
      ensures Valid() && AtMostOneStep(old(db), db)
      ensures r.Ok? <==> rid in old(db).erasures && old(db).erasures[rid].status != Withdrawn
      ensures r.Err? ==> r.error == if rid in old(db).erasures then NotPending else RequestNotFound
      ensures r.Ok? ==> (r.value <==> old(db).erasures[rid].status == Pending)
      ensures r == Ok(true) ==> && db == AfterRequestClosed(old(db), rid, operator, false)
                                && !HasPending(db, old(db).erasures[rid].mid)
      ensures r != Ok(true) ==> db == old(db)
    {
      if rid !in db.erasures { return Err(RequestNotFound); }
      if db.erasures[rid].status == Refused { return Ok(false); }
      if db.erasures[rid].status != Pending { return Err(NotPending); }
      var mid := db.erasures[rid].mid;
      RequestClosedKeepsSound(db, rid, operator, false);
      db := db.(erasures := db.erasures[rid := db.erasures[rid].(status := Refused)]);
      db := Logged(db, mid, ErasureDeclined, operator, Some(rid));
      assert Took(old(db), db, ErasureRefusal(rid, operator));
      return Ok(true);
    }

    /** The archive and restore buttons. A pending erasure request keeps the memorial archived. */
    method SetArchived(mid: Mid, actor: UserId, archive: bool) returns (r: Result<bool, CareError>)
      requires Valid()
      modifies this
      ensures Valid() && AtMostOneStep(old(db), db)
      ensures r.Ok? <==> IsOwner(old(db), mid, actor) && (archive || !HasPending(old(db), mid))
      ensures r.Err? ==> r.error == if IsOwner(old(db), mid, actor) then ErasurePending else NotTheOwner
      ensures r.Ok? ==> r.value && db == AfterArchiving(old(db), mid, actor, archive)
      ensures r.Err? ==> db == old(db)
    {
      if !IsOwner(db, mid, actor) { return Err(NotTheOwner); }
      var saved := db;
      db := db.(memorials := db.memorials[mid := db.memorials[mid].(archived := archive)]);
      SamePending(saved, db, mid);
      if !archive && HasPending(db, mid) {
        db := saved;
        return Err(ErasurePending);
      }
      ArchivingKeepsSound(saved, mid, actor, archive);
      db := Logged(db, mid, if archive then MemorialArchived else MemorialRestored, actor, None);
      assert Took(old(db), db, Archiving(mid, actor, archive));
      return Ok(true);
    }
  }

  // ---- what holds after every run ----

  /** At most one active nomination, made by the current owner; a pending erasure request means an archived memorial
      that its requester still owns; every owner and every nomination is what the recorded activity leads to. */
  lemma CareIsConsistent(steps: seq<Step>, mid: Mid, a: Rid, b: Rid)
    requires Replay(steps).Some?
    ensures var db := Replay(steps).value;
            && (ActiveFor(db, a, mid) ==> IsOwner(db, mid, db.nominations[a].from))
            && (ActiveFor(db, a, mid) && ActiveFor(db, b, mid) ==> a == b)
            && (PendingFor(db, a, mid) ==> IsOwner(db, mid, db.erasures[a].requester) && db.memorials[mid].archived)
            && (PendingFor(db, a, mid) && PendingFor(db, b, mid) ==> a == b)
            && (mid in db.memorials ==> OwnerByActivity(db.activity, mid) == CaredBy(db.memorials[mid].owner))
            && (a in db.nominations ==> CaseByActivity(db.activity, a) == CaseOf(db, a))
  {
    RunKeepsSound(steps);
    var db := Replay(steps).value;
    assert NominationSound(db, a) && RequestSound(db, a);
  }

  lemma {:induction false} CaseOfPrefix(log: seq<Activity>, k: nat, rid: Rid)
    requires k <= |log| && !CaseByActivity(log, rid).Impossible?
    ensures !CaseByActivity(log[..k], rid).Impossible?
  {
    if k == |log| {
      assert log[..k] == log;
    } else {
      assert log[..|log| - 1][..k] == log[..k];
      CaseOfPrefix(log[..|log| - 1], k, rid);
    }
  }

  lemma {:induction false} OwnerOfPrefix(log: seq<Activity>, k: nat, mid: Mid)
    requires k <= |log| && !OwnerByActivity(log, mid).Broken?
    ensures !OwnerByActivity(log[..k], mid).Broken?
  {
    if k == |log| {
      assert log[..k] == log;
    } else {
      assert log[..|log| - 1][..k] == log[..k];
      OwnerOfPrefix(log[..|log| - 1], k, mid);
    }
  }

  lemma OwnerBeforeTransfer(log: seq<Activity>, k: nat)
    requires k < |log| && log[k].what.Transferred? && !OwnerByActivity(log, log[k].mid).Broken?
    ensures log[k].request.Some? && OwnerByActivity(log[..k], log[k].mid) == CaredBy(log[k].what.from)
  {
    OwnerOfPrefix(log, k + 1, log[k].mid);
    assert log[..k + 1][..k] == log[..k];
  }

  lemma CaseBeforeTransfer(log: seq<Activity>, k: nat, rid: Rid)
    requires k < |log| && log[k].what.Transferred? && log[k].request == Some(rid)
    requires !CaseByActivity(log, rid).Impossible?
    ensures CaseByActivity(log[..k], rid) == Case(log[k].mid, log[k].what.from, log[k].what.to, Accepted)
  {
    CaseOfPrefix(log, k + 1, rid);
    assert log[..k + 1][..k] == log[..k];
  }

  /** Whatever happened before: a transfer on record took the memorial from its owner of that moment to an account that
      this owner had nominated and that had accepted, with neither having withdrawn; so no case is transferred twice. */
  lemma EveryTransferWasAccepted(steps: seq<Step>, k: nat)
    requires Replay(steps).Some? && k < |Replay(steps).value.activity|
             && Replay(steps).value.activity[k].what.Transferred?
    ensures var log := Replay(steps).value.activity;
            var e := log[k];
            && e.request.Some?
            && OwnerByActivity(log[..k], e.mid) == CaredBy(e.what.from)
            && CaseByActivity(log[..k], e.request.value) == Case(e.mid, e.what.from, e.what.to, Accepted)
  {
    RunKeepsSound(steps);
    var log := Replay(steps).value.activity;
    OwnerBeforeTransfer(log, k);
    CaseBeforeTransfer(log, k, log[k].request.value);
  }
}
