/** The consent policy by the recorded facts alone, and that the kernel decides by it
    (remembrance-consent/app/consent/kernel.py, `decide`). */
module ConsentPolicy {
  import opened Wrappers
  import opened Collections
  import opened Kernel

  // ---- the policy ----

  // The actions a purpose may be declared for.
  predicate ServedBy(purpose: Purpose, action: Action) {
    match purpose
    case MemorialView => action.ViewMemorial?
    case VoiceSynthesis => action.InitiateVoiceSynthesis? || action.DeliverMessage?
    case ScriptGeneration => action.GenerateScript?
    case DataPortability => action.ExportData?
    case ErasureRequest => action.DeleteVoiceModel?
  }

  // Somebody recorded as dead: they gave pre-need consent and the death is known.
  ghost predicate AccountOfTheDead(user: UserId, facts: ProfileFacts) {
    && facts.dateOfDeath.Some?
    && exists g :: g in facts.grants && g.grantorType == SelfPreNeed && g.grantor == user
  }

  ghost predicate AtLeast(n: nat, named: set<Email>, acknowledged: set<Email>) {
    exists who: set<Email> :: who <= named && who <= acknowledged && |who| == n
  }

  /** All named beneficiaries have acknowledged the grant, or as many of them as it asks for. */
  ghost predicate Endorsed(g: Grant) {
    && (g.required.None? ==> forall e :: e in g.named ==> e in g.acknowledged)
    && (g.required.Some? ==> AtLeast(g.required.value, g.named, g.acknowledged))
  }

  /** A grant that meets the first n of its six conditions. */
  ghost predicate Meets(g: Grant, n: nat, action: Action, purpose: Purpose, user: UserId, successors: set<UserId>) {
    && (n >= 1 && action != ViewMemorial && g.grantorType == SelfPreNeed ==> user in successors)
    && (n >= 1 && action != ViewMemorial && g.grantorType != SelfPreNeed ==> user == g.grantor)
    && (n >= 2 ==> !g.revoked)
    && (n >= 3 ==> g.isActive)
    && (n >= 4 ==> g.verified)
    && (n >= 5 ==> purpose in g.scope)
    && (n >= 6 ==> Endorsed(g))
  }

  ghost predicate MeetsAll(facts: ProfileFacts, i: int, action: Action, purpose: Purpose, user: UserId)
    requires 0 <= i < |facts.grants|
  {
    Meets(facts.grants[i], 6, action, purpose, user, facts.successors)
  }

  // The reason given when no grant meets one condition more.
  const REASONS: seq<Denial> :=
    [RoleNotPermitted, GrantRevoked, GrantInactive, AuthorityNotVerified, PurposeNotInScope, AcknowledgmentQuorumNotMet]

  ghost predicate IsRelated(actor: Actor, facts: ProfileFacts) {
    || actor.isAdmin || actor.userId in facts.successors
    || exists g :: g in facts.grants
                   && (g.grantor == actor.userId || (actor.email.Some? && actor.email.value in g.named))
  }

  // A living person declaring a purpose of the action on a known profile.
  ghost predicate Admitted(action: Action, declared: Option<Purpose>, actor: Actor, profile: Option<ProfileFacts>) {
    && declared.Some? && ServedBy(declared.value, action) && profile.Some?
    && actor.kind.Human? && !AccountOfTheDead(actor.userId, profile.value)
  }

  predicate IsOwn(g: Grant, user: UserId) {
    g.verified && g.grantor == user
  }

  predicate IsRight(action: Action) {
    action == ExportData || action == DeleteVoiceModel
  }

  // ---- acknowledgments ----

  lemma {:induction false} PartOf(s: set<Email>, n: nat) returns (part: set<Email>)
    requires n <= |s|
    ensures part <= s && |part| == n
  {
    if n == 0 {
      part := {};
    } else {
      var e :| e in s;
      part := PartOf(s - {e}, n - 1);
      part := part + {e};
    }
  }

  /** The quorum test is met exactly when the beneficiaries have endorsed the grant. */
  lemma EndorsedExactlyWhen(g: Grant)
    ensures QuorumMet(g) <==> Endorsed(g)
  {
    var both := g.named * g.acknowledged;
    SubsetSize(both, g.named);
    if g.required.None? {
      assert both == g.named <==> forall e :: e in g.named ==> e in g.acknowledged;
    } else {
      var n := g.required.value;
      if |both| >= n {
        var part := PartOf(both, n);
        assert AtLeast(n, g.named, g.acknowledged);
      }
      if AtLeast(n, g.named, g.acknowledged) {
        var who: set<Email> :| who <= g.named && who <= g.acknowledged && |who| == n;
        SubsetSize(who, both);
      }
    }
  }

  // ---- decisions ----

  lemma PurposesAgree(action: Action, purpose: Purpose)
    ensures ActionPurpose(action) == purpose <==> ServedBy(purpose, action)
    ensures IsUse(action) <==> !IsRight(action)
  {
  }

  lemma DeadAgree(user: UserId, facts: ProfileFacts)
    ensures IsDeceasedActor(user, facts) <==> AccountOfTheDead(user, facts)
  {
  }

  lemma RelatedAgree(actor: Actor, facts: ProfileFacts)
    ensures Related(actor, facts) <==> IsRelated(actor, facts)
  {
    var roles := RolesFor(actor, facts, facts.grants);
    assert roles != {Public} <==> Admin in roles || Successor in roles || Owner in roles || Beneficiary in roles;
  }

  lemma FailureMeaning(g: Grant, action: Action, purpose: Purpose, user: UserId, successors: set<UserId>)
    ensures var failure := GrantFailure(action, purpose, user, g, successors);
            && (failure.None? <==> Meets(g, 6, action, purpose, user, successors))
            && (failure.Some? ==> Stage(failure.value) < 6)
            && (failure.Some? ==> failure == Some(REASONS[Stage(failure.value)]))
            && (failure.Some? ==> Meets(g, Stage(failure.value), action, purpose, user, successors))
            && (failure.Some? ==> !Meets(g, Stage(failure.value) + 1, action, purpose, user, successors))
  {
    EndorsedExactlyWhen(g);
  }

  lemma MeetsFewer(g: Grant, m: nat, n: nat, action: Action, purpose: Purpose, user: UserId, successors: set<UserId>)
    requires m <= n && Meets(g, n, action, purpose, user, successors)
    ensures Meets(g, m, action, purpose, user, successors)
  {
  }

  /** The gates, in order: each reason is given exactly when its condition is the first to fail. */
  lemma GateReasons(action: Action, declared: Option<Purpose>, actor: Actor, profile: Option<ProfileFacts>)
    ensures var d := Decide(action, declared, actor, profile);
            && (d.reason == Some(UnknownPurpose) <==> declared.None?)
            && (d.reason == Some(PurposeActionMismatch) <==> declared.Some? && !ServedBy(declared.value, action))
            && (d.reason == Some(ProfileNotFound) <==>
                declared.Some? && ServedBy(declared.value, action) && profile.None?)
            && (d.reason == Some(NonHumanActor) <==>
                declared.Some? && ServedBy(declared.value, action) && profile.Some? && !actor.kind.Human?)
            && (d.reason == Some(DeceasedCannotAct) <==>
                declared.Some? && ServedBy(declared.value, action) && profile.Some? && actor.kind.Human?
                && AccountOfTheDead(actor.userId, profile.value))
            && (d.allowed <==> d.reason.None?) && d.purpose == declared
            && (d.related <==>
                declared.Some? && ServedBy(declared.value, action) && profile.Some? && IsRelated(actor, profile.value))
  {
    if declared.Some? { PurposesAgree(action, declared.value); }
    if Admitted(action, declared, actor, profile) { PastTheGates(action, declared, actor, profile); }
    if profile.Some? {
      DeadAgree(actor.userId, profile.value);
      RelatedAgree(actor, profile.value);
    }
  }

  // Past the gates no gate's reason is given.
  lemma PastTheGates(action: Action, declared: Option<Purpose>, actor: Actor, profile: Option<ProfileFacts>)
    requires Admitted(action, declared, actor, profile)
    ensures var d := Decide(action, declared, actor, profile);
            && (d.allowed <==> d.reason.None?) && d.purpose == declared
            && d.reason !in {Some(UnknownPurpose), Some(PurposeActionMismatch), Some(ProfileNotFound),
                             Some(NonHumanActor), Some(DeceasedCannotAct)}
            && (d.related <==> IsRelated(actor, profile.value))
  {
    var facts := profile.value;
    PurposesAgree(action, declared.value);
    DeadAgree(actor.userId, facts);
    RelatedAgree(actor, facts);
    if IsRight(action) {
      RightDecidedByTheFacts(action, declared, actor, facts);
    } else if facts.dateOfDeath.Some? && facts.grants != [] {
      ScanShape(action, declared.value, actor, facts, 0, None);
    }
  }

  lemma {:induction false} ScanShape(
      action: Action, purpose: Purpose, actor: Actor, facts: ProfileFacts, from: nat, best: Option<Denial>)
    requires from <= |facts.grants| && (from == |facts.grants| ==> best.Some?)
    requires best.Some? ==> Stage(best.value) < 6
    ensures var d := Scan(action, purpose, actor, facts, from, best);
            && (d.allowed <==> d.reason.None?) && d.purpose == Some(purpose) && d.related == Related(actor, facts)
            && (d.reason.Some? ==> Stage(d.reason.value) < 6)
    decreases |facts.grants| - from
  {
    if from < |facts.grants| {
      var failure := GrantFailure(action, purpose, actor.userId, facts.grants[from], facts.successors);
      if failure.Some? {
        ScanShape(action, purpose, actor, facts, from + 1,
                  if best.None? || Stage(failure.value) > Stage(best.value) then failure else best);
      }
    }
  }

  /** A use is allowed exactly when some grant meets all six conditions, the first such grant being named; otherwise
      the reason is the condition that no grant gets past. */
  lemma UseDecidedByTheFacts(action: Action, declared: Option<Purpose>, actor: Actor, facts: ProfileFacts)
    requires !IsRight(action) && Admitted(action, declared, actor, Some(facts))
    ensures var d := Decide(action, declared, actor, Some(facts));
            var purpose := declared.value;
            && (d.allowed <==>
                facts.dateOfDeath.Some? && exists g ::
                  g in facts.grants && Meets(g, 6, action, purpose, actor.userId, facts.successors))
            && (d.allowed ==>
                exists i :: && 0 <= i < |facts.grants| && MeetsAll(facts, i, action, purpose, actor.userId)
                                          && d.grantId == Some(facts.grants[i].id)
                                          && forall j :: 0 <= j < i ==>
                                            !MeetsAll(facts, j, action, purpose, actor.userId))
            && (d.reason == Some(SubjectNotDeceased) <==> facts.dateOfDeath.None?)
            && (d.reason == Some(NoGrant) <==> facts.dateOfDeath.Some? && facts.grants == [])
            && (!d.allowed && facts.dateOfDeath.Some? && facts.grants != [] ==>
                  exists n: nat :: && n < 6 && d.reason == Some(REASONS[n])
                                   && (exists g ::
                                       g in facts.grants
                                       && Meets(g, n, action, purpose, actor.userId, facts.successors))
                                   && forall g :: g in facts.grants ==>
                                     !Meets(g, n + 1, action, purpose, actor.userId, facts.successors))
  {
    PurposesAgree(action, declared.value);
    DeadAgree(actor.userId, facts);
    if facts.dateOfDeath.Some? && facts.grants != [] {
      UseDecision(action, declared, actor, facts);
      ScanShape(action, declared.value, actor, facts, 0, None);
      var d := Decide(action, declared, actor, Some(facts));
      forall i | 0 <= i < |facts.grants|
        ensures Passes(action, actor.userId, facts, i) <==>
                Meets(facts.grants[i], 6, action, declared.value, actor.userId, facts.successors)
      {
        EndorsedExactlyWhen(facts.grants[i]);
      }
      if !d.allowed { ReasonNoGrantPasses(action, declared.value, actor.userId, facts, d.reason.value); }
    }
  }

  lemma ReasonNoGrantPasses(action: Action, purpose: Purpose, user: UserId, facts: ProfileFacts, reason: Denial)
    requires ActionPurpose(action) == purpose
    requires exists i :: 0 <= i < |facts.grants| && FailureAt(action, user, facts, i) == Some(reason)
    requires forall i :: 0 <= i < |facts.grants| ==>
               && FailureAt(action, user, facts, i).Some?
               && Stage(FailureAt(action, user, facts, i).value) <= Stage(reason)
    ensures Stage(reason) < 6 && reason == REASONS[Stage(reason)]
    ensures exists g :: g in facts.grants && Meets(g, Stage(reason), action, purpose, user, facts.successors)
    ensures forall g :: g in facts.grants ==> !Meets(g, Stage(reason) + 1, action, purpose, user, facts.successors)
  {
    var i :| 0 <= i < |facts.grants| && FailureAt(action, user, facts, i) == Some(reason);
    FailureMeaning(facts.grants[i], action, purpose, user, facts.successors);
    assert facts.grants[i] in facts.grants;
    forall g | g in facts.grants
      ensures !Meets(g, Stage(reason) + 1, action, purpose, user, facts.successors)
    {
      var j :| 0 <= j < |facts.grants| && facts.grants[j] == g;
      FailureMeaning(g, action, purpose, user, facts.successors);
      assert FailureAt(action, user, facts, j).Some?;
      var stage := Stage(FailureAt(action, user, facts, j).value);
      if Meets(g, Stage(reason) + 1, action, purpose, user, facts.successors) {
        MeetsFewer(g, stage + 1, Stage(reason) + 1, action, purpose, user, facts.successors);
      }
    }
  }

  /** A right is granted exactly to administrators, successors and grantors with a verified grant, whose first one is
      named. */
  lemma RightDecidedByTheFacts(action: Action, declared: Option<Purpose>, actor: Actor, facts: ProfileFacts)
    requires IsRight(action) && Admitted(action, declared, actor, Some(facts))
    ensures var d := Decide(action, declared, actor, Some(facts));
            var privileged := actor.isAdmin || actor.userId in facts.successors;
            && (d.allowed <==> privileged || exists g :: g in facts.grants && IsOwn(g, actor.userId))
            && (d.reason == if d.allowed then None else Some(RoleNotPermitted))
            && (privileged || !d.allowed ==> d.grantId.None?)
            && (d.allowed && !privileged ==>
                exists i :: && 0 <= i < |facts.grants| && IsOwn(facts.grants[i], actor.userId)
                                                         && d.grantId == Some(facts.grants[i].id)
                                                         && forall j :: 0 <= j < i ==>
                                                           !IsOwn(facts.grants[j], actor.userId))
            && d.purpose == declared && (d.related <==> IsRelated(actor, facts))
  {
    PurposesAgree(action, declared.value);
    DeadAgree(actor.userId, facts);
    RelatedAgree(actor, facts);
    FirstOwnedIsFirst(actor.userId, facts.grants, 0);
  }

  lemma {:induction false} FirstOwnedIsFirst(user: UserId, grants: seq<Grant>, from: nat)
    requires from <= |grants|
    ensures var first := FirstOwned(user, grants, from);
            && (first.Some? ==> exists i :: && from <= i < |grants| && IsOwn(grants[i], user)
                                            && first == Some(grants[i].id)
                                            && forall j :: from <= j < i ==> !IsOwn(grants[j], user))
            && (first.None? ==> forall i :: from <= i < |grants| ==> !IsOwn(grants[i], user))
    decreases |grants| - from
  {
    if from < |grants| { FirstOwnedIsFirst(user, grants, from + 1); }
  }
}
