/** What the recorded activity of a memorial's care says of each transfer, record by record, and what a transfer leaves
    (remembrance/succession.py). */
module CareHistory {
  import opened Wrappers
  import opened CareStore
  import opened Succession

  // ---- what stands behind an accepted case ----

  predicate Recorded(log: seq<Activity>, i: int, mid: Mid, what: What, actor: string, rid: Rid) {
    0 <= i < |log| && log[i] == Activity(mid, what, actor, Some(rid))
  }

  // After record i the case was neither declined nor cancelled nor transferred.
  ghost predicate OpenSince(log: seq<Activity>, i: int, rid: Rid) {
    forall m :: 0 <= m < |log| && m > i && log[m].request == Some(rid) ==>
      log[m].what != NomineeDeclined && log[m].what != NominationCancelled && !log[m].what.Transferred?
  }

  /** The owner named the account, and the account accepted later. */
  ghost predicate Agreed(log: seq<Activity>, mid: Mid, from: UserId, to: UserId, rid: Rid) {
    exists i, j :: && i < j && Recorded(log, i, mid, Nominated(to), from, rid)
                   && Recorded(log, j, mid, NomineeAccepted, to, rid) && OpenSince(log, i, rid)
  }

  ghost predicate Named(log: seq<Activity>, i: int, mid: Mid, from: UserId, to: UserId, rid: Rid) {
    Recorded(log, i, mid, Nominated(to), from, rid) && OpenSince(log, i, rid)
  }

  lemma RecordStays(log: seq<Activity>, i: int, mid: Mid, what: What, actor: string, rid: Rid)
    requires log != [] && Recorded(log[..|log| - 1], i, mid, what, actor, rid)
    ensures Recorded(log, i, mid, what, actor, rid)
  {
  }

  lemma StaysOpen(log: seq<Activity>, i: int, rid: Rid)
    requires log != [] && OpenSince(log[..|log| - 1], i, rid)
    requires var last := log[|log| - 1];
             last.request == Some(rid) ==>
               last.what != NomineeDeclined && last.what != NominationCancelled && !last.what.Transferred?
    ensures OpenSince(log, i, rid)
  {
    forall m | 0 <= m < |log| && m > i && log[m].request == Some(rid)
      ensures log[m].what != NomineeDeclined && log[m].what != NominationCancelled && !log[m].what.Transferred?
    {
      if m < |log| - 1 { assert log[..|log| - 1][m] == log[m]; }
    }
  }

  lemma {:induction false} OfferWasNamed(log: seq<Activity>, rid: Rid) returns (i: int)
    requires CaseByActivity(log, rid).Case?
    requires CaseByActivity(log, rid).status == Offered || CaseByActivity(log, rid).status == Accepted
    ensures var c := CaseByActivity(log, rid); Named(log, i, c.mid, c.from, c.nominee, rid)
  {
    var n := |log| - 1;
    var c := CaseByActivity(log, rid);
    if log[n].request == Some(rid) && log[n].what.Nominated? {
      i := n;
    } else {
      i := OfferWasNamed(log[..n], rid);
      RecordStays(log, i, c.mid, Nominated(c.nominee), c.from, rid);
      StaysOpen(log, i, rid);
    }
  }

  lemma {:induction false} AcceptedWasAgreed(log: seq<Activity>, rid: Rid)
    requires CaseByActivity(log, rid).Case? && CaseByActivity(log, rid).status == Accepted
    ensures var c := CaseByActivity(log, rid); Agreed(log, c.mid, c.from, c.nominee, rid)
  {
    var n := |log| - 1;
    var c := CaseByActivity(log, rid);
    if log[n].request == Some(rid) && log[n].what == NomineeAccepted {
      var i := OfferWasNamed(log[..n], rid);
      RecordStays(log, i, c.mid, Nominated(c.nominee), c.from, rid);
      StaysOpen(log, i, rid);
      assert Recorded(log, n, c.mid, NomineeAccepted, c.nominee, rid);
    } else {
      AcceptedWasAgreed(log[..n], rid);
      var i, j :| && i < j && Recorded(log[..n], i, c.mid, Nominated(c.nominee), c.from, rid)
                  && Recorded(log[..n], j, c.mid, NomineeAccepted, c.nominee, rid) && OpenSince(log[..n], i, rid);
      RecordStays(log, i, c.mid, Nominated(c.nominee), c.from, rid);
      RecordStays(log, j, c.mid, NomineeAccepted, c.nominee, rid);
      StaysOpen(log, i, rid);
    }
  }

  // ---- who cared for a memorial ----

  // Record i made the account the owner, and no record since made anybody else so.
  ghost predicate CaresSince(log: seq<Activity>, i: int, mid: Mid, owner: UserId) {
    && 0 <= i < |log| && log[i].mid == mid
    && ((log[i].what == Created && log[i].actor == owner) || (log[i].what.Transferred? && log[i].what.to == owner))
    && forall m :: 0 <= m < |log| && m > i && log[m].mid == mid ==> log[m].what != Created && !log[m].what.Transferred?
  }

  lemma {:induction false} OwnerWasMade(log: seq<Activity>, mid: Mid) returns (i: int)
    requires OwnerByActivity(log, mid).CaredBy?
    ensures CaresSince(log, i, mid, OwnerByActivity(log, mid).owner)
  {
    var n := |log| - 1;
    if log[n].mid == mid && (log[n].what.Created? || log[n].what.Transferred?) {
      i := n;
    } else {
      i := OwnerWasMade(log[..n], mid);
      assert log[..n][i] == log[i];
      forall m | 0 <= m < |log| && m > i && log[m].mid == mid
        ensures log[m].what != Created && !log[m].what.Transferred?
      {
        if m < n { assert log[..n][m] == log[m]; }
      }
    }
  }

  /** Behind every transfer on record stand, in this order: what made the former owner the owner, that owner's
      nomination of the new one, and the nominee's acceptance, nothing having undone any of them before. */
  lemma EveryTransferWasAgreed(steps: seq<Step>, k: nat) returns (i: int)
    requires Replay(steps).Some? && k < |Replay(steps).value.activity|
    requires Replay(steps).value.activity[k].what.Transferred?
    ensures var log := Replay(steps).value.activity;
            var e := log[k];
            && e.request.Some? && CaresSince(log[..k], i, e.mid, e.what.from)
            && Agreed(log[..k], e.mid, e.what.from, e.what.to, e.request.value)
  {
    var log := Replay(steps).value.activity;
    EveryTransferWasAccepted(steps, k);
    i := OwnerWasMade(log[..k], log[k].mid);
    AcceptedWasAgreed(log[..k], log[k].request.value);
  }

  // ---- the signature ----

  ghost predicate SignedAt(steps: seq<Step>, k: int, rid: Rid, nominee: UserId, signed: Declaration) {
    0 <= k < |steps| && steps[k] == Acceptance(rid, nominee, signed)
  }

  /** The declaration kept with a nomination is the one the nominee gave, with a name of 1 to 120 characters and one of
      the two authorities. */
  lemma {:induction false} SignatureIsTheNominees(steps: seq<Step>, rid: Rid) returns (k: int)
    requires Replay(steps).Some? && rid in Replay(steps).value.nominations
    requires Replay(steps).value.nominations[rid].signed.Some?
    ensures var n := Replay(steps).value.nominations[rid];
            && SignedAt(steps, k, rid, n.nominee, n.signed.value)
            && 1 <= |n.signed.value.name| <= 120
            && (n.signed.value.authority == "executor" || n.signed.value.authority == "family-authorized")
  {
    var n := |steps| - 1;
    var before, after := Replay(steps[..n]).value, Replay(steps).value;
    if rid in before.nominations && before.nominations[rid].signed == after.nominations[rid].signed {
      SameNominee(before, steps[n], rid);
      k := SignatureIsTheNominees(steps[..n], rid);
    } else {
      k := n;
      NewSignature(before, steps[n], rid);
    }
  }

  lemma SameNominee(db: Db, step: Step, rid: Rid)
    requires Enabled(db, step) && rid in db.nominations
    ensures rid in Do(db, step).nominations && Do(db, step).nominations[rid].nominee == db.nominations[rid].nominee
  {
  }

  lemma NewSignature(db: Db, step: Step, rid: Rid)
    requires Enabled(db, step) && rid in Do(db, step).nominations && Do(db, step).nominations[rid].signed.Some?
    requires !(rid in db.nominations && db.nominations[rid].signed == Do(db, step).nominations[rid].signed)
    ensures var n := Do(db, step).nominations[rid];
            && step == Acceptance(rid, n.nominee, n.signed.value)
            && 1 <= |n.signed.value.name| <= 120
            && (n.signed.value.authority == "executor" || n.signed.value.authority == "family-authorized")
  {
  }

  /** A transfer writes into the memorial the nominee as owner, the authority and the name the nominee signed, and no
      successor, and changes no other column of it and no other memorial. */
  lemma TransferWritesTheSignature(steps: seq<Step>, step: Step, mid: Mid)
    requires Replay(steps).Some? && Enabled(Replay(steps).value, step) && step.Handover?
    requires mid in Replay(steps).value.memorials
    ensures var db := Replay(steps).value;
            var n := db.nominations[step.rid];
            && mid in Do(db, step).memorials
            && var after := Do(db, step).memorials[mid];
            if mid != n.mid then after == db.memorials[mid]
            else
              && after.owner == step.to && after.successor == ""
              && after.authority == n.signed.value.authority && after.authorityName == n.signed.value.name
              && after.demo == db.memorials[mid].demo && after.archived == db.memorials[mid].archived
  {
  }

  // ---- read-only memorials ----

  /** No call changes an example memorial or who has family access to it. */
  lemma DemoIsReadOnly(steps: seq<Step>, step: Step, mid: Mid, email: string)
    requires Replay(steps).Some? && Enabled(Replay(steps).value, step)
    requires mid in Replay(steps).value.memorials && Replay(steps).value.memorials[mid].demo
    ensures var db, after := Replay(steps).value, Do(Replay(steps).value, step);
            && mid in after.memorials && after.memorials[mid] == db.memorials[mid]
            && ((mid, email) in after.members <==> (mid, email) in db.members)
  {
    RunKeepsSound(steps);
    var db := Replay(steps).value;
    if step.Handover? || step.Refusal? || step.Cancellation? { assert NominationSound(db, step.rid); }
  }

  /** Every call of the service is a step of a run: what holds after every run holds after every sequence of calls. */
  lemma CallExtendsTheRun(steps: seq<Step>, after: Db) returns (steps': seq<Step>)
    requires Replay(steps).Some? && AtMostOneStep(Replay(steps).value, after)
    ensures Replay(steps') == Some(after) && steps <= steps'
  {
    steps' := steps;
    if after != Replay(steps).value {
      var step :| Took(Replay(steps).value, after, step);
      steps' := steps + [step];
      assert steps'[..|steps'| - 1] == steps;
    }
  }
}
