/** The consent kernel's pure authorization gate
    (remembrance-consent/app/consent/kernel.py). */
module Kernel {
  import opened Wrappers
  import opened Collections

  type UserId = string
  type Email = string
  type GrantId = nat
  type ProfileId = nat

  datatype GrantorType = Executor | Administrator | EstateBeneficiary | SelfPreNeed

  // A grant's scope holds only the first three, which mirror PurposeScope.
  datatype Purpose = MemorialView | VoiceSynthesis | ScriptGeneration | DataPortability | ErasureRequest

  datatype Action =
    | ViewMemorial | InitiateVoiceSynthesis | GenerateScript | DeliverMessage  // use actions
    | ExportData | DeleteVoiceModel                                            // rights actions

  datatype Denial =
    | UnknownPurpose | PurposeActionMismatch | ProfileNotFound | NonHumanActor | DeceasedCannotAct
    | SubjectNotDeceased | NoGrant | RoleNotPermitted | GrantRevoked | GrantInactive
    | AuthorityNotVerified | PurposeNotInScope | AcknowledgmentQuorumNotMet

  datatype ActorKind = Human | Service

  datatype Actor = Actor(userId: UserId, email: Option<Email>, kind: ActorKind, isAdmin: bool)

  datatype Role = Owner | Beneficiary | Successor | Admin | Public

  datatype Grant = Grant(
    id: GrantId, grantorType: GrantorType, grantor: UserId, scope: set<Purpose>,
    isActive: bool, revoked: bool, verified: bool,
    named: set<Email>, acknowledged: set<Email>, required: Option<nat>)

  // `grants` is ordered by (granted_at, id).
  datatype ProfileFacts = ProfileFacts(
    dateOfDeath: Option<int>, successors: set<UserId>, grants: seq<Grant>)

  datatype Decision = Decision(
    allowed: bool, reason: Option<Denial>, grantId: Option<GrantId>, purpose: Option<Purpose>, related: bool)

  function ActionPurpose(action: Action): Purpose {
    match action
    case ViewMemorial => MemorialView
    case InitiateVoiceSynthesis => VoiceSynthesis
    case GenerateScript => ScriptGeneration
    case DeliverMessage => VoiceSynthesis
    case ExportData => DataPortability
    case DeleteVoiceModel => ErasureRequest
  }

  predicate IsUse(action: Action) {
    action.ViewMemorial? || action.InitiateVoiceSynthesis? || action.GenerateScript? || action.DeliverMessage?
  }

  predicate QuorumMet(grant: Grant) {
    |grant.named * grant.acknowledged| >= if grant.required.None? then |grant.named| else grant.required.value
  }

  function RolesFor(actor: Actor, facts: ProfileFacts, grants: seq<Grant>): set<Role> {
    {Public}
    + (if actor.isAdmin then {Admin} else {})
    + (if actor.userId in facts.successors then {Successor} else {})
    + (if exists i :: 0 <= i < |grants| && grants[i].grantor == actor.userId then {Owner} else {})
    + (if actor.email.Some? && exists i :: 0 <= i < |grants| && actor.email.value in grants[i].named
       then {Beneficiary} else {})
  }

  predicate IsDeceasedActor(user: UserId, facts: ProfileFacts) {
    facts.dateOfDeath.Some? &&
    exists i :: 0 <= i < |facts.grants| && facts.grants[i].grantorType.SelfPreNeed? && facts.grants[i].grantor == user
  }

  predicate MayUse(action: Action, user: UserId, grant: Grant, successors: set<UserId>) {
    action.ViewMemorial? || (if grant.grantorType.SelfPreNeed? then user in successors else user == grant.grantor)
  }

  function GrantFailure(
      action: Action, purpose: Purpose, user: UserId, grant: Grant, successors: set<UserId>): Option<Denial> {
    if !MayUse(action, user, grant, successors) then Some(RoleNotPermitted)
    else if grant.revoked then Some(GrantRevoked)
    else if !grant.isActive then Some(GrantInactive)
    else if !grant.verified then Some(AuthorityNotVerified)
    else if purpose !in grant.scope then Some(PurposeNotInScope)
    else if !QuorumMet(grant) then Some(AcknowledgmentQuorumNotMet)
    else None
  }

  // How far a grant got before failing.
  function Stage(failure: Denial): nat {
    match failure
    case RoleNotPermitted => 0
    case GrantRevoked => 1
    case GrantInactive => 2
    case AuthorityNotVerified => 3
    case PurposeNotInScope => 4
    case AcknowledgmentQuorumNotMet => 5
    case _ => 6
  }

  function Scan(
      action: Action, purpose: Purpose, actor: Actor, facts: ProfileFacts, from: nat, best: Option<Denial>): Decision
    requires from <= |facts.grants|
    decreases |facts.grants| - from
  {
    if from == |facts.grants| then Decision(false, best, None, Some(purpose), Related(actor, facts))
    else
      var failure := GrantFailure(action, purpose, actor.userId, facts.grants[from], facts.successors);
      if failure.None? then
        Decision(true, None, Some(facts.grants[from].id), Some(purpose), Related(actor, facts))
      else
        Scan(action, purpose, actor, facts, from + 1,
             if best.None? || Stage(failure.value) > Stage(best.value) then failure else best)
  }

  predicate Related(actor: Actor, facts: ProfileFacts) {
    RolesFor(actor, facts, facts.grants) != {Public}
  }

  predicate OwnsVerified(user: UserId, grant: Grant) {
    grant.verified && grant.grantor == user
  }

  function FirstOwned(user: UserId, grants: seq<Grant>, from: nat): Option<GrantId>
    requires from <= |grants|
    decreases |grants| - from
  {
    if from == |grants| then None
    else if OwnsVerified(user, grants[from]) then Some(grants[from].id)
    else FirstOwned(user, grants, from + 1)
  }

  // `declared` is the parsed purpose code, None when the code is not one of the five purposes.
  function Decide(action: Action, declared: Option<Purpose>, actor: Actor, profile: Option<ProfileFacts>): Decision {
    if declared.None? then Decision(false, Some(UnknownPurpose), None, None, false)
    else if ActionPurpose(action) != declared.value
    then Decision(false, Some(PurposeActionMismatch), None, declared, false)
    else if profile.None? then Decision(false, Some(ProfileNotFound), None, declared, false)
    else
      var facts := profile.value;
      var related := Related(actor, facts);
      if !actor.kind.Human? then Decision(false, Some(NonHumanActor), None, declared, related)
      else if IsDeceasedActor(actor.userId, facts)
      then Decision(false, Some(DeceasedCannotAct), None, declared, related)
      else if !IsUse(action) then
        if actor.isAdmin || actor.userId in facts.successors then Decision(true, None, None, declared, true)
        else
          var owned := FirstOwned(actor.userId, facts.grants, 0);
          if owned.Some? then Decision(true, None, owned, declared, true)
          else Decision(false, Some(RoleNotPermitted), None, declared, related)
      else if facts.dateOfDeath.None? then Decision(false, Some(SubjectNotDeceased), None, declared, related)
      else if facts.grants == [] then Decision(false, Some(NoGrant), None, declared, related)
      else Scan(action, declared.value, actor, facts, 0, None)
  }

  /** The gate as the kernel runs it: a scan over the grants that stops at the first passing one. */
  method DecideRequest(action: Action, declared: Option<Purpose>, actor: Actor, profile: Option<ProfileFacts>)
    returns (d: Decision)
    ensures d == Decide(action, declared, actor, profile)
  {
    if declared.None? { return Decision(false, Some(UnknownPurpose), None, None, false); }
    if ActionPurpose(action) != declared.value {
      return Decision(false, Some(PurposeActionMismatch), None, declared, false);
    }
    if profile.None? { return Decision(false, Some(ProfileNotFound), None, declared, false); }
    var facts := profile.value;
    var related := Related(actor, facts);
    if !actor.kind.Human? { return Decision(false, Some(NonHumanActor), None, declared, related); }
    if IsDeceasedActor(actor.userId, facts) {
      return Decision(false, Some(DeceasedCannotAct), None, declared, related);
    }
    if !IsUse(action) {
      if actor.isAdmin || actor.userId in facts.successors { return Decision(true, None, None, declared, true); }
      for i := 0 to |facts.grants|
        invariant FirstOwned(actor.userId, facts.grants, 0) == FirstOwned(actor.userId, facts.grants, i)
      {
        if facts.grants[i].verified && facts.grants[i].grantor == actor.userId {
          return Decision(true, None, Some(facts.grants[i].id), declared, true);
        }
      }
      return Decision(false, Some(RoleNotPermitted), None, declared, related);
    }
    if facts.dateOfDeath.None? { return Decision(false, Some(SubjectNotDeceased), None, declared, related); }
    if facts.grants == [] { return Decision(false, Some(NoGrant), None, declared, related); }
    var best: Option<Denial> := None;
    for i := 0 to |facts.grants|
      invariant Decide(action, declared, actor, profile) == Scan(action, declared.value, actor, facts, i, best)
    {
      var failure := GrantFailure(action, declared.value, actor.userId, facts.grants[i], facts.successors);
      if failure.None? {
        return Decision(true, None, Some(facts.grants[i].id), declared, related);
      }
      if best.None? || Stage(failure.value) > Stage(best.value) { best := failure; }
    }
    return Decision(false, best, None, declared, related);
  }

  /** What a use decision means, without the scan: grant `i` passes every per-grant check. */
  ghost predicate Passes(action: Action, user: UserId, facts: ProfileFacts, i: int) {
    0 <= i < |facts.grants| &&
    var g := facts.grants[i];
    && MayUse(action, user, g, facts.successors)
    && !g.revoked && g.isActive && g.verified && ActionPurpose(action) in g.scope && QuorumMet(g)
  }

  function FailureAt(action: Action, user: UserId, facts: ProfileFacts, i: int): Option<Denial>
    requires 0 <= i < |facts.grants|
  {
    GrantFailure(action, ActionPurpose(action), user, facts.grants[i], facts.successors)
  }

  // The checks that come before any grant is looked at.
  ghost predicate GatesOpen(action: Action, declared: Option<Purpose>, actor: Actor, profile: Option<ProfileFacts>) {
    && declared == Some(ActionPurpose(action)) && profile.Some?
    && actor.kind.Human? && !IsDeceasedActor(actor.userId, profile.value)
  }

  lemma {:induction false} ScanMeaning(
      action: Action, actor: Actor, facts: ProfileFacts, from: nat, best: Option<Denial>)
    requires from <= |facts.grants|
    ensures var d := Scan(action, ActionPurpose(action), actor, facts, from, best);
            && (d.allowed <==> exists i :: from <= i && Passes(action, actor.userId, facts, i))
            && (d.allowed ==> exists i :: && from <= i && Passes(action, actor.userId, facts, i)
                                          && d.grantId == Some(facts.grants[i].id)
                                          && forall j :: from <= j < i ==> !Passes(action, actor.userId, facts, j))
            && (!d.allowed ==>
                  && (d.reason == best || exists i ::
                      from <= i < |facts.grants| && FailureAt(action, actor.userId, facts, i) == d.reason)
                  && (from < |facts.grants| || best.Some? ==> d.reason.Some?)
                  && (best.Some? ==> Stage(best.value) <= Stage(d.reason.value))
                  && (forall i :: from <= i < |facts.grants| ==>
                        FailureAt(action, actor.userId, facts, i).Some?
                        && Stage(FailureAt(action, actor.userId, facts, i).value) <= Stage(d.reason.value)))
    decreases |facts.grants| - from
  {
    if from < |facts.grants| {
      var failure := FailureAt(action, actor.userId, facts, from);
      if failure.None? {
        assert Passes(action, actor.userId, facts, from);
      } else {
        assert !Passes(action, actor.userId, facts, from);
        ScanMeaning(action, actor, facts, from + 1,
                    if best.None? || Stage(failure.value) > Stage(best.value) then failure else best);
      }
    }
  }

  /** A use request past the gates is allowed exactly when some grant passes every check; the decision
      names the first such grant, and a denial reports the failure of a grant that got furthest. */
  lemma UseDecision(action: Action, declared: Option<Purpose>, actor: Actor, facts: ProfileFacts)
    requires IsUse(action) && GatesOpen(action, declared, actor, Some(facts))
    requires facts.dateOfDeath.Some? && facts.grants != []
    ensures var d := Decide(action, declared, actor, Some(facts));
            && (d.allowed <==> exists i :: Passes(action, actor.userId, facts, i))
            && (d.allowed ==> exists i :: && Passes(action, actor.userId, facts, i)
                                          && d.grantId == Some(facts.grants[i].id)
                                          && forall j :: 0 <= j < i ==> !Passes(action, actor.userId, facts, j))
            && (!d.allowed ==>
                  && d.reason.Some?
                  && (exists i :: 0 <= i < |facts.grants| && FailureAt(action, actor.userId, facts, i) == d.reason)
                  && forall i :: 0 <= i < |facts.grants| ==>
                       FailureAt(action, actor.userId, facts, i).Some?
                       && Stage(FailureAt(action, actor.userId, facts, i).value) <= Stage(d.reason.value))
  {
    ScanMeaning(action, actor, facts, 0, None);
  }

  lemma {:induction false} FirstOwnedMeaning(user: UserId, grants: seq<Grant>, from: nat)
    requires from <= |grants|
    ensures FirstOwned(user, grants, from).Some? <==> exists i :: from <= i < |grants| && OwnsVerified(user, grants[i])
    decreases |grants| - from
  {
    if from < |grants| { FirstOwnedMeaning(user, grants, from + 1); }
  }

  /** Every allow, for every action, by conditions alone. */
  lemma AllowedExactlyWhen(action: Action, declared: Option<Purpose>, actor: Actor, profile: Option<ProfileFacts>)
    ensures Decide(action, declared, actor, profile).allowed <==>
            && GatesOpen(action, declared, actor, profile)
            && var facts := profile.value;
               if IsUse(action) then
                 facts.dateOfDeath.Some? && exists i :: Passes(action, actor.userId, facts, i)
               else
                 || actor.isAdmin || actor.userId in facts.successors
                 || exists i :: 0 <= i < |facts.grants| && OwnsVerified(actor.userId, facts.grants[i])
  {
    if GatesOpen(action, declared, actor, profile) {
      ScanMeaning(action, actor, profile.value, 0, None);
      FirstOwnedMeaning(actor.userId, profile.value.grants, 0);
    }
  }

  function WithGrant(facts: ProfileFacts, i: nat, grant: Grant): ProfileFacts
    requires i < |facts.grants|
  {
    facts.(grants := facts.grants[i := grant])
  }

  /** Revoking a grant never turns a denial into an allow, and leaves rights decisions exactly as they were. */
  lemma RevokingNeverAllows(action: Action, declared: Option<Purpose>, actor: Actor, facts: ProfileFacts, i: nat)
    requires i < |facts.grants|
    ensures var after := WithGrant(facts, i, facts.grants[i].(revoked := true, isActive := false));
            && (Decide(action, declared, actor, Some(after)).allowed ==>
                Decide(action, declared, actor, Some(facts)).allowed)
            && (!IsUse(action) ==>
                Decide(action, declared, actor, Some(after)) == Decide(action, declared, actor, Some(facts)))
  {
    var after := WithGrant(facts, i, facts.grants[i].(revoked := true, isActive := false));
    SameTerms(actor, facts, after);
    AllowedExactlyWhen(action, declared, actor, Some(facts));
    AllowedExactlyWhen(action, declared, actor, Some(after));
    if j :| Passes(action, actor.userId, after, j) {
      assert Passes(action, actor.userId, facts, j);
    }
    FirstOwnedSame(actor.userId, facts.grants, after.grants, 0);
  }

  // Same grantors, beneficiaries and verification, grant by grant.
  ghost predicate TermsAgree(a: seq<Grant>, b: seq<Grant>) {
    |a| == |b| && forall i :: 0 <= i < |a| ==>
      && a[i].id == b[i].id && a[i].grantor == b[i].grantor && a[i].grantorType == b[i].grantorType
      && a[i].named == b[i].named && a[i].verified == b[i].verified
  }

  lemma SameTerms(actor: Actor, a: ProfileFacts, b: ProfileFacts)
    requires TermsAgree(a.grants, b.grants) && a.successors == b.successors && a.dateOfDeath == b.dateOfDeath
    ensures Related(actor, a) == Related(actor, b)
    ensures IsDeceasedActor(actor.userId, a) == IsDeceasedActor(actor.userId, b)
  {
  }

  lemma {:induction false} FirstOwnedSame(user: UserId, a: seq<Grant>, b: seq<Grant>, from: nat)
    requires TermsAgree(a, b) && from <= |a|
    ensures FirstOwned(user, a, from) == FirstOwned(user, b, from)
    decreases |a| - from
  {
    if from < |a| { FirstOwnedSame(user, a, b, from + 1); }
  }

  /** A beneficiary's acknowledgment never turns an allow into a denial. */
  lemma AcknowledgingNeverDenies(
      action: Action, declared: Option<Purpose>, actor: Actor, facts: ProfileFacts, i: nat, email: Email)
    requires i < |facts.grants|
    ensures var g := facts.grants[i];
            var after := WithGrant(facts, i, g.(acknowledged := g.acknowledged + {email}));
            Decide(action, declared, actor, Some(facts)).allowed ==>
              Decide(action, declared, actor, Some(after)).allowed
  {
    var g := facts.grants[i];
    var after := WithGrant(facts, i, g.(acknowledged := g.acknowledged + {email}));
    SameTerms(actor, facts, after);
    AllowedExactlyWhen(action, declared, actor, Some(facts));
    AllowedExactlyWhen(action, declared, actor, Some(after));
    QuorumGrows(g, after.grants[i]);
    if j :| Passes(action, actor.userId, facts, j) {
      assert Passes(action, actor.userId, after, j);
    }
    if j :| 0 <= j < |facts.grants| && OwnsVerified(actor.userId, facts.grants[j]) {
      assert OwnsVerified(actor.userId, after.grants[j]);
    }
  }

  lemma QuorumGrows(before: Grant, after: Grant)
    requires before.named == after.named && before.required == after.required
             && before.acknowledged <= after.acknowledged
    ensures QuorumMet(before) ==> QuorumMet(after)
  {
    SubsetSize(before.named * before.acknowledged, after.named * after.acknowledged);
  }
}
