/** A reachable run that finishes the realm move and then breaks its order. */
module RealmMoveOrder {
  import opened AccountSecurity
  import opened AccountSecurityRuns

  /** The state a new view starts from. */
  const START := State(
    "account", "actor-organization-admin-001", "tenant-organization-001", "workspace-release-one", OrganizationAdmin,
    "egressPolicy", "output-version-001",
    Some(Membership(OrganizationAdmin, true, "tenant-organization-001", "workspace-release-one")),
    {(OrganizationAdmin, DataRealmMove)}, "organization-policy-2026.07", {"egressPolicy"}, [], [], [], Available, [], 0,
    RealmMove("source-private-001", "tenant-organization-001", "workspace-release-one", [], false, None),
    [], None, None, None, 0)

  predicate CanMove(s: State) {
    AuthorizeSensitive(s, MoveRequest(s), CurrentAccessDenied).None?
  }

  lemma StartCanMove()
    ensures Initial(START) && CanMove(START)
  {
    var m := START.realmMove.sourceId;
    assert Find(REGISTRY, MOVE_DATA_REALM) == Some(REGISTRY[1]);
    assert REGISTRY[1].prefixes[0] <= m;
    assert StartsWithOneOf(m, REGISTRY[1].prefixes);
    hide Find, StartsWithOneOf;
  }

  lemma MoveStaysPossible(s: State, t: State)
    requires CanMove(s) && SameScope(s, t) && t.grants == s.grants && t.selectedRole == s.selectedRole
    ensures CanMove(t)
    ensures AuthorizeSensitive(t, MoveRequest(t), AuthorizationDenied).None?
  {
    hide Find, StartsWithOneOf;
  }

  /** Ready for the step after the first n, with the authorization it needs. */
  predicate Ready(s: State, n: nat) {
    && CanMove(s) && |s.realmMove.completed| == n
    && (n < 2 ==> s.stepUps == [])
    && (n == 2 ==> |s.stepUps| == 1 && Covers(s, MoveRequest(s), None) && s.stepUps[0].id == 1)
    && (n > 2 ==> MoveDenial(s).None?)
  }

  lemma FirstSteps(s: State, n: nat)
    requires n < 2 && Ready(s, n)
    ensures var t := Transition(s, AdvanceRealmMove(ExpectedStep(n), None));
            CanMove(t) && |t.realmMove.completed| == n + 1 && t.stepUps == []
  {
    var quiet, t := s.(safety := None), Transition(s, AdvanceRealmMove(ExpectedStep(n), None));
    MoveStaysPossible(s, quiet);
    hide AuthorizeSensitive, CanMove;
    MoveStaysPossible(quiet, t);
  }

  lemma IssueForMove(s: State)
    requires CanMove(s) && s.stepUps == [] && |s.realmMove.completed| == 2
    ensures Ready(Transition(s, IssueStepUp(MoveRequest(s), None)), 2)
  {
    var quiet, t := s.(safety := None), Transition(s, IssueStepUp(MoveRequest(s), None));
    MoveStaysPossible(s, quiet);
    assert MoveRequest(quiet) == MoveRequest(s);
    hide AuthorizeSensitive, CanMove;
    MoveStaysPossible(quiet, t);
  }

  lemma ApprovalIsRecorded(s: State)
    requires |s.stepUps| == 1 && Covers(s, MoveRequest(s), None) && s.stepUps[0].id == 1
    ensures var t := ApprovedMove(s, None);
            && SameScope(s, t) && t.grants == s.grants && t.selectedRole == s.selectedRole
            && |t.stepUps| == 1 && t.stepUps[0].id == 1 && t.realmMove.stepUpId == Some(1)
            && ApprovalMatches(t, t.stepUps[0]) && |t.realmMove.completed| == |s.realmMove.completed| + 1
  {
    hide StepName;
  }

  lemma ApproveMove(s: State)
    requires Ready(s, 2)
    ensures Ready(Transition(s, AdvanceRealmMove(ExplicitApproval, None)), 3)
  {
    var quiet, t := s.(safety := None), Transition(s, AdvanceRealmMove(ExplicitApproval, None));
    MoveStaysPossible(s, quiet);
    hide ApprovedMove, AuthorizeSensitive, Find, StartsWithOneOf, StepName, MoveDenial;
    assert t == ApprovedMove(quiet, None);
    ApprovalIsRecorded(quiet);
    hide CanMove, Transition, Advance, ApprovalMatches;
    MoveStaysPossible(quiet, t);
    ApprovalIsFound(t);
  }

  lemma ApprovalIsFound(t: State)
    requires CanMove(t) && |t.stepUps| == 1 && t.stepUps[0].id == 1 && t.realmMove.stepUpId == Some(1)
    requires ApprovalMatches(t, t.stepUps[0])
    ensures MoveDenial(t).None?
  {
    hide AuthorizeSensitive;
  }

  lemma LastSteps(s: State, n: nat)
    requires 3 <= n < 5 && Ready(s, n)
    ensures Ready(Transition(s, AdvanceRealmMove(ExpectedStep(n), None)), n + 1)
  {
    var quiet, t := s.(safety := None), Transition(s, AdvanceRealmMove(ExpectedStep(n), None));
    ApprovalStands(s, quiet);
    hide AuthorizeSensitive, CanMove, MoveDenial;
    assert t == Completed(quiet, ExpectedStep(n));
    ApprovalStands(quiet, t);
  }

  lemma ApprovalStands(s: State, t: State)
    requires CanMove(s) && MoveDenial(s).None? && SameScope(s, t) && t.grants == s.grants && t.selectedRole == s.selectedRole
    requires t.stepUps == s.stepUps && t.realmMove.stepUpId == s.realmMove.stepUpId
    ensures CanMove(t) && MoveDenial(t).None?
  {
    MoveStaysPossible(s, t);
    hide AuthorizeSensitive;
  }

  /** Six actions that finish a move, and a seventh that names no step. */
  const MOVE: seq<Action> := [
    AdvanceRealmMove(TargetScope, None), AdvanceRealmMove(AuthorizationSensitiveCheck, None),
    IssueStepUp(MoveRequest(START), None), AdvanceRealmMove(ExplicitApproval, None),
    AdvanceRealmMove(TransferPreview, None), AdvanceRealmMove(VersionAudit, None)]

  lemma RunsOn(s: State, actions: seq<Action>, action: Action)
    ensures Run(s, actions + [action]) == Transition(Run(s, actions), action)
  {
    assert (actions + [action])[..|actions|] == actions;
  }

  /** A reachable state in which the completed steps are no prefix of the fixed order. */
  lemma OrderCanBreak()
    ensures Run(START, MOVE).realmMove.completed == REALM_MOVE_STEPS
    ensures Run(START, MOVE + [AdvanceRealmMove(NoStep, None)]).realmMove.completed == REALM_MOVE_STEPS + [NoStep]
  {
    hide Find, AuthorizeSensitive;
    var a, s := MOVE, Run(START, MOVE[..2]);
    StartCanMove();
    FirstTwo();
    assert MoveRequest(s) == MoveRequest(START);
    IssueForMove(s);
    assert a[..3] == a[..2] + [a[2]] && a[..4] == a[..3] + [a[3]] && a[..5] == a[..4] + [a[4]] && a == a[..5] + [a[5]];
    RunsOn(START, a[..2], a[2]);
    RunsOn(START, a[..3], a[3]);
    RunsOn(START, a[..4], a[4]);
    RunsOn(START, a[..5], a[5]);
    hide Run, Transition, Initial, CanMove, Invariant, Extends;
    ApproveMove(Run(START, a[..3]));
    LastSteps(Run(START, a[..4]), 3);
    LastSteps(Run(START, a[..5]), 4);
    InitialHolds(START);
    RunKeeps(START, a);
    StepsAreAPrefix(Run(START, a));
    RunsOn(START, a, AdvanceRealmMove(NoStep, None));
    AdvanceAppends(Run(START, a), AdvanceRealmMove(NoStep, None));
    FinishedMoveAdvances(Run(START, a), AdvanceRealmMove(NoStep, None));
  }

  lemma FirstTwo()
    ensures var t := Run(START, MOVE[..2]);
            CanMove(t) && |t.realmMove.completed| == 2 && t.stepUps == [] && MoveRequest(t) == MoveRequest(START)
  {
    StartCanMove();
    var t := Transition(START, MOVE[0]);
    assert Run(START, []) == START;
    assert MOVE[..1] == [] + [MOVE[0]] && MOVE[..2] == MOVE[..1] + [MOVE[1]];
    RunsOn(START, [], MOVE[0]);
    RunsOn(START, MOVE[..1], MOVE[1]);
    hide CanMove, Run, Invariant, Extends, Transition;
    FirstSteps(START, 0);
    FirstSteps(t, 1);
    InitialHolds(START);
    RunKeeps(START, MOVE[..2]);
    SameRequest(START, Run(START, MOVE[..2]));
  }

  lemma SameRequest(s: State, t: State)
    requires Extends(s, t)
    ensures MoveRequest(t) == MoveRequest(s)
  {
  }
}
