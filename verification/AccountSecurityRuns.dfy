/** What every run of account security actions keeps. */
module AccountSecurityRuns {
  import opened AccountSecurity

  // ----- what one action may do to authorizations, grants and the audit log

  /** The same authorization, possibly used or expired in between; neither is ever undone. */
  predicate Progress(a: StepUp, b: StepUp) {
    a == b || (a.status.Issued? && (b.status.Used? || b.status.Expired?) && b == a.(status := b.status, usedAt := b.usedAt))
  }

  predicate SameScope(s: State, t: State) {
    && t.actorId == s.actorId && t.tenantId == s.tenantId && t.workspaceId == s.workspaceId
    && t.membership == s.membership && t.policyVersion == s.policyVersion && t.organizationActions == s.organizationActions
    && t.realmMove.sourceId == s.realmMove.sourceId
    && t.realmMove.tenantId == s.realmMove.tenantId && t.realmMove.workspaceId == s.realmMove.workspaceId
  }

  predicate StepUpsProgress(before: seq<StepUp>, after: seq<StepUp>) {
    && |before| <= |after|
    && (forall i :: 0 <= i < |before| ==> Progress(before[i], after[i]))
  }

  /** Scope and identity are fixed, grants only shrink, the log only grows, authorizations only progress. */
  predicate Extends(s: State, t: State) {
    && SameScope(s, t) && t.grants <= s.grants && s.auditEvents <= t.auditEvents
    && StepUpsProgress(s.stepUps, t.stepUps) && s.domainMutationCount <= t.domainMutationCount
    && s.realmMove.completed <= t.realmMove.completed
  }

  lemma ExtendsTransitively(s: State, t: State, u: State)
    requires Extends(s, t) && Extends(t, u)
    ensures Extends(s, u)
  {
    forall i | 0 <= i < |s.stepUps|
      ensures Progress(s.stepUps[i], u.stepUps[i])
    {
      assert Progress(s.stepUps[i], t.stepUps[i]) && Progress(t.stepUps[i], u.stepUps[i]);
    }
  }

  // ----- the invariant

  function UsedCount(stepUps: seq<StepUp>): nat {
    if stepUps == [] then 0
    else UsedCount(stepUps[..|stepUps| - 1]) + if stepUps[|stepUps| - 1].status.Used? then 1 else 0
  }

  /** Authorizations are numbered from one in the order of issue. */
  predicate Numbered(stepUps: seq<StepUp>) {
    forall i :: 0 <= i < |stepUps| ==> stepUps[i].id == i + 1
  }

  predicate Approved(s: State) {
    ExplicitApproval in s.realmMove.completed
  }

  /** The approval of the realm move is a used authorization for this actor, source and policy. */
  predicate ApprovalHolds(s: State) {
    && s.realmMove.stepUpId.Some?
    && var id := s.realmMove.stepUpId.value;
       1 <= id <= |s.stepUps| && ApprovalMatches(s, s.stepUps[id - 1])
  }

  predicate InOrder(completed: seq<RealmStep>) {
    forall i :: 0 <= i < |completed| ==> completed[i] == ExpectedStep(i)
  }

  predicate Invariant(s: State) {
    && Numbered(s.stepUps)
    && InOrder(s.realmMove.completed)
    && s.realmMove.approvalPreview == Approved(s)
    && (Approved(s) ==> ApprovalHolds(s))
    && UsedCount(s.stepUps) == s.domainMutationCount + if Approved(s) then 1 else 0
  }

  /** A state as it is created: nothing issued, logged, moved or performed; everything else is free. */
  predicate Initial(s: State) {
    && s.stepUps == [] && s.auditEvents == [] && s.domainMutationCount == 0
    && s.realmMove.completed == [] && !s.realmMove.approvalPreview && s.realmMove.stepUpId.None?
  }

  lemma UsedCountUpdates(stepUps: seq<StepUp>, a: StepUp)
    ensures UsedCount(stepUps + [a]) == UsedCount(stepUps) + if a.status.Used? then 1 else 0
    ensures stepUps != [] ==>
            UsedCount(stepUps[|stepUps| - 1 := a]) == UsedCount(stepUps)
              - (if stepUps[|stepUps| - 1].status.Used? then 1 else 0) + if a.status.Used? then 1 else 0
  {
    assert (stepUps + [a])[..|stepUps|] == stepUps;
    if stepUps != [] {
      assert stepUps[|stepUps| - 1 := a][..|stepUps| - 1] == stepUps[..|stepUps| - 1];
    }
  }

  // ----- one action

  /** An action that touches no authorization, count or step. */
  predicate Inert(s: State, t: State) {
    && SameScope(s, t) && t.grants <= s.grants && s.auditEvents <= t.auditEvents
    && t.stepUps == s.stepUps && t.domainMutationCount == s.domainMutationCount && t.realmMove == s.realmMove
  }

  lemma InertKeeps(s: State, t: State)
    requires Invariant(s) && Inert(s, t)
    ensures Invariant(t) && Extends(s, t)
  {
    hide UsedCount;
  }

  /** Replacing the latest authorization by its successor keeps all others. */
  lemma LatestProgresses(s: State, a: StepUp)
    requires s.stepUps != [] && Progress(s.stepUps[|s.stepUps| - 1], a) && Numbered(s.stepUps)
    ensures var after := s.stepUps[|s.stepUps| - 1 := a];
            Numbered(after) && StepUpsProgress(s.stepUps, after)
  {
  }

  /** A used authorization is never the one that gets used or expires. */
  lemma ApprovalSurvives(s: State, t: State)
    requires ApprovalHolds(s) && SameScope(s, t) && StepUpsProgress(s.stepUps, t.stepUps)
    requires t.realmMove.stepUpId == s.realmMove.stepUpId
    ensures ApprovalHolds(t)
  {
    var i := s.realmMove.stepUpId.value - 1;
    assert Progress(s.stepUps[i], t.stepUps[i]);
  }

  /** Any action on the authorizations alone that balances used ones against mutations. */
  lemma BalanceKeeps(s: State, t: State)
    requires Invariant(s) && SameScope(s, t) && t.grants == s.grants && s.auditEvents <= t.auditEvents
    requires t.realmMove == s.realmMove && Numbered(t.stepUps) && StepUpsProgress(s.stepUps, t.stepUps)
    requires s.domainMutationCount <= t.domainMutationCount
    requires UsedCount(t.stepUps) - t.domainMutationCount == UsedCount(s.stepUps) - s.domainMutationCount
    ensures Invariant(t) && Extends(s, t)
  {
    if Approved(s) {
      ApprovalSurvives(s, t);
    }
    hide UsedCount, Numbered, StepUpsProgress, ApprovalHolds;
  }

  lemma IssueAppends(stepUps: seq<StepUp>, a: StepUp)
    requires Numbered(stepUps) && a.id == |stepUps| + 1 && a.status.Issued?
    ensures Numbered(stepUps + [a]) && StepUpsProgress(stepUps, stepUps + [a])
    ensures UsedCount(stepUps + [a]) == UsedCount(stepUps)
  {
    UsedCountUpdates(stepUps, a);
    hide UsedCount;
  }

  lemma IssueKeeps(s: State, r: Request, expiresAt: Option<Stamp>)
    requires Invariant(s)
    ensures var t := Issue(s, r, expiresAt);
            Invariant(t) && Extends(s, t) && t.domainMutationCount == s.domainMutationCount
  {
    var t := Issue(s, r, expiresAt);
    hide AuthorizeSensitive, UsedCount, StepUpsProgress, ApprovalHolds, Extends, InOrder, Or;
    if AuthorizeSensitive(s, r, AuthorizationDenied).Some? {
      hide Invariant;
      InertKeeps(s, t);
    } else {
      IssueAppends(s.stepUps, t.stepUps[|s.stepUps|]);
      hide Numbered;
      BalanceKeeps(s, t);
    }
  }

  lemma ExpiryKeeps(s: State)
    requires Invariant(s) && s.stepUps != []
    ensures var t := ExpireStepUp(s);
            Invariant(t) && Extends(s, t) && t.domainMutationCount == s.domainMutationCount
  {
    var last := |s.stepUps| - 1;
    if s.stepUps[last].status.Issued? {
      var a := s.stepUps[last].(status := Expired);
      LatestProgresses(s, a);
      UsedCountUpdates(s.stepUps, a);
      hide UsedCount, Numbered, StepUpsProgress, ApprovalHolds, Extends;
      BalanceKeeps(s, ExpireStepUp(s));
    }
  }

  /** Using the latest issued authorization adds one to the used ones and spares the rest. */
  lemma ConsumptionCounts(s: State, now: Option<Stamp>)
    requires s.stepUps != [] && s.stepUps[|s.stepUps| - 1].status.Issued? && Numbered(s.stepUps)
    ensures var t := ConsumeStepUp(s, now);
            && Numbered(t.stepUps) && StepUpsProgress(s.stepUps, t.stepUps)
            && UsedCount(t.stepUps) == UsedCount(s.stepUps) + 1
  {
    var last := |s.stepUps| - 1;
    var a := s.stepUps[last].(status := Used, usedAt := Some(Or(now, DEFAULT_USED_AT)));
    LatestProgresses(s, a);
    UsedCountUpdates(s.stepUps, a);
  }

  /** What must hold of the latest authorization for a request to pass. */
  predicate Covers(s: State, r: Request, now: Option<Stamp>) {
    && s.stepUps != []
    && var a := s.stepUps[|s.stepUps| - 1];
       && a.status.Issued? && !After(Or(now, DEFAULT_NOW), a.expiresAt)
       && a.actor == Some(Or(r.actor, s.actorId)) && a.action == r.action && a.target == r.target
       && a.policyVersion == Some(Or(r.policyVersion, s.policyVersion))
  }

  /** The membership, not the selected role, allows the request. */
  predicate Allowed(s: State, r: Request) {
    && var d := SensitiveDefinition(s, r.action);
       && d.Some? && StartsWithOneOf(r.target, d.value.prefixes)
       && s.membership.Some? && s.membership.value.active
       && s.membership.value.role in d.value.roles
       && s.membership.value.tenantId == s.tenantId && s.membership.value.workspaceId == s.workspaceId
       && (d.value.permission.Some? ==> (s.membership.value.role, d.value.permission.value) in s.grants)
  }

  lemma AuthorizedMeansAllowed(s: State, r: Request, denied: Code)
    requires AuthorizeSensitive(s, r, denied).None?
    ensures Allowed(s, r) && Or(r.actor, s.actorId) == s.actorId && Or(r.policyVersion, s.policyVersion) == s.policyVersion
    ensures Or(r.role, s.selectedRole) == s.membership.value.role
  {
  }

  /** The three ways a sensitive action can end. */
  lemma PerformOutcomes(s: State, r: Request, now: Option<Stamp>) returns (code: Code)
    ensures var t := Perform(s, r, now);
            || t == Denied(s, r, code)
            || (s.stepUps != [] && t == Denied(ExpireStepUp(s), r, code))
            || (Covers(s, r, now) && Allowed(s, r) && t == Applied(s, r, now))
  {
    code := Or(Perform(s, r, now).safety, Fine);
    hide Applied, ExpireStepUp, Allowed;
    if AuthorizeSensitive(s, r, CurrentAccessDenied).None? {
      AuthorizedMeansAllowed(s, r, CurrentAccessDenied);
    }
    hide AuthorizeSensitive;
  }

  lemma DeniedKeeps(s: State, r: Request, code: Code)
    requires Invariant(s)
    ensures var t := Denied(s, r, code);
            Invariant(t) && Extends(s, t) && t.domainMutationCount == s.domainMutationCount
  {
    hide Invariant, Extends;
    InertKeeps(s, Denied(s, r, code));
  }

  lemma ExpiredKeeps(s: State, r: Request, code: Code)
    requires Invariant(s) && s.stepUps != []
    ensures var t := Denied(ExpireStepUp(s), r, code);
            Invariant(t) && Extends(s, t) && t.domainMutationCount == s.domainMutationCount
  {
    hide Invariant, Extends, ExpireStepUp, Denied;
    ExpiryKeeps(s);
    DeniedKeeps(ExpireStepUp(s), r, code);
    ExtendsTransitively(s, ExpireStepUp(s), Denied(ExpireStepUp(s), r, code));
  }

  lemma AppliedOutline(s: State, r: Request, now: Option<Stamp>)
    requires s.stepUps != []
    ensures var t := Applied(s, r, now);
            && SameScope(s, t) && t.grants == s.grants && s.auditEvents <= t.auditEvents && t.realmMove == s.realmMove
            && t.stepUps == ConsumeStepUp(s, now).stepUps && t.domainMutationCount == s.domainMutationCount + 1
  {
    hide RevokeDevice, Or;
  }

  lemma AppliedKeeps(s: State, r: Request, now: Option<Stamp>)
    requires Invariant(s) && Covers(s, r, now)
    ensures var t := Applied(s, r, now);
            Invariant(t) && Extends(s, t) && t.domainMutationCount == s.domainMutationCount + 1
  {
    ConsumptionCounts(s, now);
    AppliedOutline(s, r, now);
    hide UsedCount, Applied, ConsumeStepUp, Numbered, StepUpsProgress, ApprovalHolds, Extends;
    BalanceKeeps(s, Applied(s, r, now));
  }

  lemma PerformKeeps(s: State, r: Request, now: Option<Stamp>)
    requires Invariant(s)
    ensures var t := Perform(s, r, now);
            && Invariant(t) && Extends(s, t)
            && (t.domainMutationCount > s.domainMutationCount ==> Covers(s, r, now) && Allowed(s, r))
  {
    var code := PerformOutcomes(s, r, now);
    hide Perform, Invariant, Extends, Allowed, Denied, Applied, ExpireStepUp;
    DeniedKeeps(s, r, code);
    if s.stepUps != [] {
      ExpiredKeeps(s, r, code);
    }
    if Covers(s, r, now) && Perform(s, r, now) == Applied(s, r, now) {
      AppliedKeeps(s, r, now);
    }
  }

  lemma StepAppends(completed: seq<RealmStep>, step: RealmStep)
    requires InOrder(completed) && step == ExpectedStep(|completed|)
    ensures InOrder(completed + [step])
    ensures ExplicitApproval in completed + [step] <==> |completed| + 1 >= 3
    ensures ExplicitApproval in completed <==> |completed| >= 3
  {
    assert ExpectedStep(2) == ExplicitApproval;
    if |completed| >= 3 {
      assert completed[2] == ExplicitApproval;
    }
  }

  lemma ProgressesItself(stepUps: seq<StepUp>)
    ensures StepUpsProgress(stepUps, stepUps)
  {
  }

  /** Completing any step but the approval. */
  lemma CompletionKeeps(s: State, step: RealmStep)
    requires Invariant(s) && step == ExpectedStep(|s.realmMove.completed|) && !step.ExplicitApproval?
    ensures var t := Completed(s, step);
            Invariant(t) && Extends(s, t) && t.domainMutationCount == s.domainMutationCount
  {
    StepAppends(s.realmMove.completed, step);
    ProgressesItself(s.stepUps);
    hide UsedCount, InOrder, StepName, Numbered, StepUpsProgress;
    if Approved(s) {
      ApprovalSurvives(s, Completed(s, step));
    }
    hide ApprovalHolds;
  }

  lemma ApprovedKeeps(s: State, now: Option<Stamp>)
    requires Invariant(s) && Covers(s, MoveRequest(s), now)
    requires |s.realmMove.completed| == 2
    ensures var t := ApprovedMove(s, now);
            Invariant(t) && Extends(s, t) && t.domainMutationCount == s.domainMutationCount
  {
    StepAppends(s.realmMove.completed, ExplicitApproval);
    ConsumptionCounts(s, now);
    hide UsedCount, StepUpsProgress, InOrder;
    assert ApprovalHolds(ApprovedMove(s, now));
    hide Numbered, ApprovalHolds;
  }

  lemma ApprovalKeeps(s: State, now: Option<Stamp>)
    requires Invariant(s) && Covers(s, MoveRequest(s), now)
    requires |s.realmMove.completed| == 2
    ensures var t := Advance(s, ExplicitApproval, now);
            Invariant(t) && Extends(s, t) && t.domainMutationCount == s.domainMutationCount
  {
    var t := Advance(s, ExplicitApproval, now);
    if AuthorizeSensitive(s, MoveRequest(s), CurrentAccessDenied).Some? {
      hide Invariant, Extends;
      InertKeeps(s, t);
    } else {
      hide Invariant, Extends, AuthorizeSensitive;
      ApprovedKeeps(s, now);
    }
  }

  lemma AdvanceKeeps(s: State, step: RealmStep, now: Option<Stamp>)
    requires Invariant(s)
    ensures var t := Advance(s, step, now);
            Invariant(t) && Extends(s, t) && t.domainMutationCount == s.domainMutationCount
  {
    var t := Advance(s, step, now);
    hide UsedCount, AuthorizeSensitive, MoveDenial, Invariant, Extends, Completed;
    if step != ExpectedStep(|s.realmMove.completed|) {
      InertKeeps(s, t);
    } else if step.ExplicitApproval? {
      if Covers(s, MoveRequest(s), now) {
        ApprovalKeeps(s, now);
      } else {
        InertKeeps(s, t);
      }
    } else {
      CompletionKeeps(s, step);
      if t != Completed(s, step) {
        InertKeeps(s, t);
      }
    }
  }

  predicate IsOther(action: Action) {
    !action.IssueStepUp? && !action.PerformSensitiveAction? && !action.AdvanceRealmMove?
  }

  lemma OthersAreInert(s: State, action: Action)
    requires IsOther(action)
    ensures Inert(s, Transition(s, action))
  {
    hide RoleName, PermissionName, Issue, Perform, Advance, EvaluateAccess, PreviewPolicy;
    match action {
      case EvaluatePastAccess(operation) => EvaluationIsInert(s.(safety := None), operation);
      case PreviewPolicyChange(role, field) => PreviewIsInert(s.(safety := None), role, field);
      case RevokePermission(role, permission) =>
      case _ => hide Audited;
    }
  }

  lemma EvaluationIsInert(s: State, operation: string)
    ensures Inert(s, EvaluateAccess(s, operation))
  {
  }

  lemma PreviewIsInert(s: State, role: Option<Role>, field: string)
    ensures Inert(s, PreviewPolicy(s, role, field))
  {
    hide AuthorizeAccountAction;
  }

  /** Every action keeps the invariant and extends the state; only a covered, allowed request changes the domain. */
  lemma TransitionKeeps(s: State, action: Action)
    requires Invariant(s)
    ensures var t := Transition(s, action);
            && Invariant(t) && Extends(s, t)
            && (t.domainMutationCount > s.domainMutationCount ==>
                  action.PerformSensitiveAction? && Covers(s, action.request, action.now) && Allowed(s, action.request))
  {
    hide Invariant, Extends, Covers, Allowed, Issue, Perform, Advance;
    if IsOther(action) {
      OthersAreInert(s, action);
      hide Transition;
      InertKeeps(s, Transition(s, action));
    } else {
      var quiet := s.(safety := None);
      InertKeeps(s, quiet);
      if action.IssueStepUp? {
        IssueKeeps(quiet, action.request, action.expiresAt);
      } else if action.PerformSensitiveAction? {
        PerformKeeps(quiet, action.request, action.now);
        QuietChecks(s, action.request, action.now);
      } else {
        AdvanceKeeps(quiet, action.step, action.moveNow);
      }
      ExtendsTransitively(s, quiet, Transition(s, action));
    }
  }

  /** Clearing the last message does not change what a request is checked against. */
  lemma QuietChecks(s: State, r: Request, now: Option<Stamp>)
    ensures Covers(s.(safety := None), r, now) == Covers(s, r, now)
    ensures Allowed(s.(safety := None), r) == Allowed(s, r)
  {
  }

  // ----- whole runs

  lemma InitialHolds(s: State)
    requires Initial(s)
    ensures Invariant(s)
  {
  }

  /** A run keeps the invariant; scope and identity stay, grants shrink, the log and the authorizations only move on. */
  lemma {:induction false} RunKeeps(s: State, actions: seq<Action>)
    requires Invariant(s)
    ensures Invariant(Run(s, actions)) && Extends(s, Run(s, actions))
    decreases |actions|
  {
    hide Invariant, Extends, Transition;
    if actions == [] {
      ExtendsItself(s);
    } else {
      var last := |actions| - 1;
      RunKeeps(s, actions[..last]);
      var t := Run(s, actions[..last]);
      TransitionKeeps(t, actions[last]);
      ExtendsTransitively(s, t, Transition(t, actions[last]));
    }
  }

  lemma ExtendsItself(s: State)
    ensures Extends(s, s)
  {
  }

  /** Every used authorization paid for one domain mutation or for the approval of the move, and nothing else did. */
  lemma AuthorizationsBalance(s: State, actions: seq<Action>)
    requires Initial(s)
    ensures var t := Run(s, actions);
            UsedCount(t.stepUps) == t.domainMutationCount + if Approved(t) then 1 else 0
    ensures Approved(Run(s, actions)) ==> ApprovalHolds(Run(s, actions))
  {
    InitialHolds(s);
    RunKeeps(s, actions);
    hide Initial, UsedCount, Run;
  }

  lemma GrantsOnlyNarrow(s: State, t: State, r: Request)
    requires Extends(s, t) && Allowed(t, r)
    ensures Allowed(s, r)
  {
    hide StepUpsProgress;
  }

  /** The sensitive request behind an action. */
  function RequestOf(s: State, action: Action): Option<Request> {
    match action
    case IssueStepUp(r, _) => Some(r)
    case PerformSensitiveAction(r, _) => Some(r)
    case AdvanceRealmMove(_, _) => Some(MoveRequest(s))
    case _ => None
  }

  /** A new authorization, a change of the domain, or one of the four steps of the move behind the first. */
  predicate Gains(s: State, t: State) {
    || |t.stepUps| > |s.stepUps|
    || t.domainMutationCount > s.domainMutationCount
    || (1 <= |s.realmMove.completed| < |REALM_MOVE_STEPS| && |t.realmMove.completed| > |s.realmMove.completed|)
  }

  lemma IssueNeedsRole(s: State, r: Request, expiresAt: Option<Stamp>)
    requires Gains(s, Issue(s, r, expiresAt))
    ensures Allowed(s, r)
  {
    if AuthorizeSensitive(s, r, AuthorizationDenied).None? {
      AuthorizedMeansAllowed(s, r, AuthorizationDenied);
    }
    hide AuthorizeSensitive, Allowed;
  }

  lemma PerformNeedsRole(s: State, r: Request, now: Option<Stamp>)
    requires Gains(s, Perform(s, r, now))
    ensures Allowed(s, r)
  {
    var code := PerformOutcomes(s, r, now);
    hide Perform, Applied, Allowed, Covers;
  }

  lemma AdvanceNeedsRole(s: State, step: RealmStep, now: Option<Stamp>)
    requires Gains(s, Advance(s, step, now))
    ensures Allowed(s, MoveRequest(s))
  {
    if AuthorizeSensitive(s, MoveRequest(s), CurrentAccessDenied).None? {
      AuthorizedMeansAllowed(s, MoveRequest(s), CurrentAccessDenied);
    }
    if AuthorizeSensitive(s, MoveRequest(s), AuthorizationDenied).None? {
      AuthorizedMeansAllowed(s, MoveRequest(s), AuthorizationDenied);
    }
    hide AuthorizeSensitive, Allowed, StepName;
  }

  lemma GainNeedsRole(s: State, action: Action)
    requires Gains(s, Transition(s, action))
    ensures RequestOf(s, action).Some? && Allowed(s, RequestOf(s, action).value)
  {
    var quiet := s.(safety := None);
    hide Issue, Perform, Advance, Allowed, Covers;
    if IsOther(action) {
      OthersAreInert(s, action);
      hide Transition;
    } else {
      QuietChecks(s, RequestOf(s, action).value, None);
      if action.IssueStepUp? {
        IssueNeedsRole(quiet, action.request, action.expiresAt);
      } else if action.PerformSensitiveAction? {
        PerformNeedsRole(quiet, action.request, action.now);
      } else {
        AdvanceNeedsRole(quiet, action.step, action.moveNow);
      }
    }
  }

  /**
   * Main result: whatever roles were selected before, an authorization, a mutation and every step of the move behind the
   * first need the membership's own role and a grant that was there at the start.
   */
  lemma NoRoleEscalation(s: State, actions: seq<Action>, action: Action)
    requires Invariant(s) && Gains(Run(s, actions), Transition(Run(s, actions), action))
    ensures RequestOf(Run(s, actions), action).Some? && Allowed(s, RequestOf(Run(s, actions), action).value)
    ensures Transition(Run(s, actions), action).domainMutationCount > Run(s, actions).domainMutationCount ==>
              action.PerformSensitiveAction? && Covers(Run(s, actions), action.request, action.now)
  {
    hide Invariant, Extends, Transition, Run, Allowed, Covers, Gains;
    RunKeeps(s, actions);
    TransitionKeeps(Run(s, actions), action);
    GainNeedsRole(Run(s, actions), action);
    GrantsOnlyNarrow(s, Run(s, actions), RequestOf(Run(s, actions), action).value);
  }

  /** A permission denied now is denied for the same reason after any run. */
  lemma DenialsStand(s: State, actions: seq<Action>, role: Option<Role>, permission: Permission, tenantId: string,
                     workspaceId: string)
    requires Invariant(s) && AuthorizeAccountAction(s, role, permission, tenantId, workspaceId).Some?
    ensures AuthorizeAccountAction(Run(s, actions), role, permission, tenantId, workspaceId)
         == AuthorizeAccountAction(s, role, permission, tenantId, workspaceId)
  {
    RunKeeps(s, actions);
    hide Invariant, Run, StepUpsProgress;
  }

  /** One action touches at most the latest authorization and appends at most one. */
  predicate OnlyLatestMoves(before: seq<StepUp>, after: seq<StepUp>) {
    && |before| <= |after| <= |before| + 1
    && (before != [] ==> after[..|before| - 1] == before[..|before| - 1])
  }

  lemma OnlyTheLatestIsConsumed(s: State, action: Action)
    ensures OnlyLatestMoves(s.stepUps, Transition(s, action).stepUps)
  {
    hide Perform, Advance, AuthorizeSensitive;
    if IsOther(action) {
      OthersAreInert(s, action);
      hide Transition;
    } else if action.PerformSensitiveAction? {
      PerformTouches(s.(safety := None), action.request, action.now);
    } else if action.AdvanceRealmMove? {
      AdvanceTouches(s.(safety := None), action.step, action.moveNow);
    }
  }

  lemma PerformTouches(s: State, r: Request, now: Option<Stamp>)
    ensures OnlyLatestMoves(s.stepUps, Perform(s, r, now).stepUps)
  {
    var code := PerformOutcomes(s, r, now);
    if Covers(s, r, now) {
      AppliedOutline(s, r, now);
    }
    hide Perform, Applied, Allowed;
  }

  lemma AdvanceTouches(s: State, step: RealmStep, now: Option<Stamp>)
    ensures OnlyLatestMoves(s.stepUps, Advance(s, step, now).stepUps)
  {
    hide AuthorizeSensitive, MoveDenial, StepName;
  }

  // ----- the order of the realm move

  /** The completed steps are the fixed five in order, unless a finished move is advanced again without naming a step. */
  lemma StepsAreAPrefix(s: State)
    requires Invariant(s)
    ensures s.realmMove.completed <= REALM_MOVE_STEPS <==> |s.realmMove.completed| <= |REALM_MOVE_STEPS|
    ensures s.realmMove.completed[..Min(|s.realmMove.completed|, 5)] == REALM_MOVE_STEPS[..Min(|s.realmMove.completed|, 5)]
  {
    var completed := s.realmMove.completed;
    hide UsedCount, Numbered, ApprovalHolds;
    forall i | 0 <= i < |completed| && i < |REALM_MOVE_STEPS|
      ensures completed[i] == REALM_MOVE_STEPS[i]
    {
      assert completed[i] == ExpectedStep(i);
    }
  }

  function Min(x: nat, y: nat): nat {
    if x < y then x else y
  }

  lemma AdvanceAppends(s: State, action: Action)
    ensures var before, after := s.realmMove.completed, Transition(s, action).realmMove.completed;
            || after == before
            || (action.AdvanceRealmMove? && action.step == ExpectedStep(|before|) && after == before + [action.step])
  {
    hide Perform, Issue, AuthorizeSensitive, MoveDenial, StepName;
    if IsOther(action) {
      OthersAreInert(s, action);
      hide Transition;
    } else if action.PerformSensitiveAction? {
      PerformSparesMove(s.(safety := None), action.request, action.now);
    } else if action.IssueStepUp? {
      IssueSparesMove(s.(safety := None), action.request, action.expiresAt);
    }
  }

  lemma PerformSparesMove(s: State, r: Request, now: Option<Stamp>)
    ensures Perform(s, r, now).realmMove == s.realmMove
  {
    var code := PerformOutcomes(s, r, now);
    if Covers(s, r, now) {
      AppliedOutline(s, r, now);
    }
    hide Perform, Applied, Allowed;
  }

  lemma IssueSparesMove(s: State, r: Request, expiresAt: Option<Stamp>)
    ensures Issue(s, r, expiresAt).realmMove == s.realmMove
  {
    hide AuthorizeSensitive;
  }

  /** Exactly when one action breaks the order: the move is finished and the caller names no step. */
  lemma OrderBreaksExactlyWhen(s: State, action: Action)
    requires Invariant(s) && s.realmMove.completed <= REALM_MOVE_STEPS
    ensures Transition(s, action).realmMove.completed <= REALM_MOVE_STEPS
       <==> !(action.AdvanceRealmMove? && action.step.NoStep? && |s.realmMove.completed| == |REALM_MOVE_STEPS|)
  {
    var t := Transition(s, action);
    AdvanceAppends(s, action);
    TransitionKeeps(s, action);
    StepsAreAPrefix(t);
    if action.AdvanceRealmMove? && action.step.NoStep? && |s.realmMove.completed| == |REALM_MOVE_STEPS| {
      FinishedMoveAdvances(s, action);
    }
    hide Transition, Invariant, Extends;
  }

  lemma FinishedMoveAdvances(s: State, action: Action)
    requires action.AdvanceRealmMove? && action.step.NoStep? && |s.realmMove.completed| == |REALM_MOVE_STEPS|
    ensures |Transition(s, action).realmMove.completed| == |REALM_MOVE_STEPS| + 1
  {
  }

  /** A run whose callers always name the step keeps the fixed order. */
  lemma {:induction false} NamedStepsStayInOrder(s: State, actions: seq<Action>)
    requires Initial(s)
    requires forall a :: a in actions && a.AdvanceRealmMove? ==> !a.step.NoStep?
    ensures Run(s, actions).realmMove.completed <= REALM_MOVE_STEPS
    decreases |actions|
  {
    if actions != [] {
      var last := |actions| - 1;
      NamedStepsStayInOrder(s, actions[..last]);
      InitialHolds(s);
      RunKeeps(s, actions[..last]);
      OrderBreaksExactlyWhen(Run(s, actions[..last]), actions[last]);
      hide Transition, Invariant, Extends, Initial;
    }
  }
}
