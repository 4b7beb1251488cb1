/** What each account security action does, and exactly when: stated on the states before and after it. */
module AccountSecurityEffects {
  import opened AccountSecurity
  import opened AccountSecurityRuns

  // ----- who may act

  /** The membership allows the request, which names nobody and nowhere else, and the selected role is the membership's. */
  predicate MayAct(s: State, r: Request) {
    && Allowed(s, r)
    && (r.actor.Some? ==> r.actor.value == s.actorId) && (r.policyVersion.Some? ==> r.policyVersion.value == s.policyVersion)
    && (r.tenantId.Some? ==> r.tenantId.value == s.tenantId) && (r.workspaceId.Some? ==> r.workspaceId.value == s.workspaceId)
    && s.membership.value.role == (if r.role.Some? then r.role.value else s.selectedRole)
  }

  /** The action has no definition, or none for such a target. */
  predicate NotAllowed(s: State, r: Request) {
    var d := SensitiveDefinition(s, r.action);
    d.None? || !exists i :: 0 <= i < |d.value.prefixes| && d.value.prefixes[i] <= r.target
  }

  /** A request is authorized exactly if it may act; only an action without a definition, or on another target, is not allowed at all. */
  lemma AuthorizedExactlyWhen(s: State, r: Request, denied: Code)
    requires denied == CurrentAccessDenied || denied == AuthorizationDenied
    ensures AuthorizeSensitive(s, r, denied).None? <==> MayAct(s, r)
    ensures AuthorizeSensitive(s, r, denied) == Some(StepUpActionNotAllowed) <==> NotAllowed(s, r)
    ensures AuthorizeSensitive(s, r, denied).Some? && denied == CurrentAccessDenied ==>
              AuthorizeSensitive(s, r, denied).value in {StepUpActionNotAllowed, CurrentAccessDenied}
  {
    hide Find;
  }

  /** The first definition of an action counts. */
  lemma {:induction false} FirstDefinitionCounts(definitions: seq<Definition>, action: string, i: nat)
    requires i < |definitions| && definitions[i].action == action && forall j :: 0 <= j < i ==> definitions[j].action != action
    ensures Find(definitions, action) == Some(definitions[i])
  {
    if i > 0 {
      FirstDefinitionCounts(definitions[1..], action, i - 1);
    }
  }

  /** An action that no definition names has none. */
  lemma {:induction false} NoDefinition(definitions: seq<Definition>, action: string)
    requires forall j :: 0 <= j < |definitions| ==> definitions[j].action != action
    ensures Find(definitions, action).None?
  {
    if definitions != [] {
      NoDefinition(definitions[1..], action);
    }
  }

  /** Revoking a device needs no permission, only one of two roles; moving a realm needs its permission and one of three. */
  lemma RegisteredActions(s: State)
    ensures SensitiveDefinition(s, "revoke_device") == Some(Definition("revoke_device", None, {PersonalOwner, OrganizationAdmin}, ["device-"]))
    ensures SensitiveDefinition(s, "move_data_realm")
         == Some(Definition("move_data_realm", Some(DataRealmMove), {PersonalOwner, OrganizationAdmin, WorkspaceAdmin}, ["source-"]))
    ensures SensitiveDefinition(s, "purge_restore")
         == Some(Definition("purge_restore", Some(FinalApprovalDelivery), {PersonalOwner, OrganizationAdmin}, ["source-", "backup-"]))
    ensures SensitiveDefinition(s, "change_organization_policy")
         == Some(Definition("change_organization_policy", Some(FinalApprovalDelivery), {OrganizationAdmin}, ["tenant-organization-"]))
    ensures SensitiveDefinition(s, "final_approval_registration")
         == Some(Definition("final_approval_registration", Some(FinalApprovalDelivery),
                            {PersonalOwner, OrganizationAdmin, Approver}, ["output-", "knowledge-"]))
    ensures SensitiveDefinition(s, "external_share_download")
         == Some(Definition("external_share_download", Some(FileDownloadShare),
                            {PersonalOwner, OrganizationAdmin, WorkspaceAdmin, Editor}, ["output-", "file-"]))
    ensures SensitiveDefinition(s, "approve_external_egress")
         == Some(Definition("approve_external_egress", Some(FinalApprovalDelivery), {OrganizationAdmin, Approver}, ["output-", "export-"]))
  {
    hide Find;
    FirstDefinitionCounts(REGISTRY, "approve_external_egress", 0);
    FirstDefinitionCounts(REGISTRY, "move_data_realm", 1);
    FirstDefinitionCounts(REGISTRY, "external_share_download", 2);
    FirstDefinitionCounts(REGISTRY, "final_approval_registration", 3);
    FirstDefinitionCounts(REGISTRY, "change_organization_policy", 4);
    FirstDefinitionCounts(REGISTRY, "revoke_device", 5);
    FirstDefinitionCounts(REGISTRY, "purge_restore", 6);
  }

  // ----- a sensitive action

  /** The i-th device is the first one with an id. */
  predicate IsFirst(devices: seq<Device>, i: nat, id: string)
    requires i < |devices|
  {
    devices[i].id == id && forall j :: 0 <= j < i ==> devices[j].id != id
  }

  /** The first device with an id, if it is not yet revoked, is revoked and loses its sessions; all others stay. */
  predicate FirstRevoked(before: seq<Device>, after: seq<Device>, id: string) {
    && |after| == |before|
    && forall i :: 0 <= i < |before| ==>
         after[i] == if IsFirst(before, i, id) && !before[i].revoked then Device(id, true, 0) else before[i]
  }

  lemma FirstBehind(devices: seq<Device>, i: nat, id: string)
    requires 0 < i < |devices| && devices[0].id != id
    ensures IsFirst(devices, i, id) <==> IsFirst(devices[1..], i - 1, id)
  {
    if IsFirst(devices[1..], i - 1, id) {
      assert forall j :: 0 < j < i ==> devices[j] == devices[1..][j - 1];
    }
  }

  lemma {:induction false} RevocationIsOfFirst(devices: seq<Device>, id: string)
    ensures FirstRevoked(devices, RevokeDevice(devices, id), id)
  {
    if devices != [] && devices[0].id != id {
      RevocationIsOfFirst(devices[1..], id);
      RevokedBehind(devices, RevokeDevice(devices[1..], id), id);
    }
  }

  lemma RevokedBehind(devices: seq<Device>, rest: seq<Device>, id: string)
    requires devices != [] && devices[0].id != id && FirstRevoked(devices[1..], rest, id)
    ensures FirstRevoked(devices, [devices[0]] + rest, id)
  {
    hide IsFirst;
    assert !IsFirst(devices, 0, id) by {
      FirstIsNot(devices, id);
    }
    forall i | 0 < i < |devices|
      ensures ([devices[0]] + rest)[i] == if IsFirst(devices, i, id) && !devices[i].revoked then Device(id, true, 0) else devices[i]
    {
      FirstBehind(devices, i, id);
      assert devices[i] == devices[1..][i - 1];
    }
  }

  lemma FirstIsNot(devices: seq<Device>, id: string)
    requires devices != [] && devices[0].id != id
    ensures !IsFirst(devices, 0, id)
  {
  }

  /** What is logged about an action. */
  predicate Logged(s: State, t: State, action: string, target: string, decision: string, code: Code) {
    t.auditEvents == s.auditEvents + [AuditEvent(|s.auditEvents| + 1, s.actorId, s.selectedRole, action, target, s.policyVersion,
                                                 decision, code)]
  }

  /** Of the authorizations only the latest changes, to what is given. */
  predicate LatestBecomes(before: seq<StepUp>, after: seq<StepUp>, a: StepUp) {
    before != [] && |after| == |before| && after[|before| - 1] == a && after[..|before| - 1] == before[..|before| - 1]
  }

  /** What a performed action leaves as it was. */
  predicate PerformsOnly(s: State, t: State) {
    t == s.(safety := None, stepUps := t.stepUps, devices := t.devices, deviceRevocationPreview := t.deviceRevocationPreview,
            domainMutationCount := s.domainMutationCount + 1, auditEvents := t.auditEvents)
  }

  /**
   * Main result: an action is performed exactly if the latest authorization covers it and it may be done now. It then uses the
   * authorization and is logged; revoke_device revokes the first device with the target's id and shows that, anything else
   * touches no device.
   */
  lemma PerformedExactlyWhen(s: State, r: Request, now: Option<Stamp>)
    ensures var t := Transition(s, PerformSensitiveAction(r, now));
            && (t.domainMutationCount > s.domainMutationCount <==> Covers(s, r, now) && MayAct(s, r))
            && (Covers(s, r, now) && MayAct(s, r) ==>
                  && PerformsOnly(s, t) && Logged(s, t, r.action, r.target, "previewed", StepUpUsed)
                  && LatestBecomes(s.stepUps, t.stepUps,
                       s.stepUps[|s.stepUps| - 1].(status := Used, usedAt := Some(if now.Some? then now.value else DEFAULT_USED_AT)))
                  && (r.action == "revoke_device" ==>
                        FirstRevoked(s.devices, t.devices, r.target) && t.deviceRevocationPreview == Some(r.target))
                  && (r.action != "revoke_device" ==>
                        t.devices == s.devices && t.deviceRevocationPreview == s.deviceRevocationPreview))
  {
    hide Transition, Allowed;
    var q := s.(safety := None);
    PerformIs(s, r, now);
    QuietChecks(s, r, now);
    if Covers(s, r, now) && MayAct(s, r) {
      CoveredIsApplied(q, r, now);
      AppliedDoes(q, r, now);
    } else {
      UncoveredIsDenied(q, r, now);
    }
  }

  lemma PerformIs(s: State, r: Request, now: Option<Stamp>)
    ensures Transition(s, PerformSensitiveAction(r, now)) == Perform(s.(safety := None), r, now)
  {
  }

  lemma CoveredIsApplied(s: State, r: Request, now: Option<Stamp>)
    requires Covers(s, r, now) && MayAct(s, r)
    ensures Perform(s, r, now) == Applied(s, r, now)
  {
    hide Applied, AuthorizeSensitive, Denied, ExpireStepUp, Allowed;
    AuthorizedExactlyWhen(s, r, CurrentAccessDenied);
  }

  lemma AppliedDoes(s: State, r: Request, now: Option<Stamp>)
    requires s.stepUps != [] && s.safety.None?
    ensures var t := Applied(s, r, now);
            && PerformsOnly(s, t) && Logged(s, t, r.action, r.target, "previewed", StepUpUsed)
            && LatestBecomes(s.stepUps, t.stepUps,
                 s.stepUps[|s.stepUps| - 1].(status := Used, usedAt := Some(if now.Some? then now.value else DEFAULT_USED_AT)))
            && (r.action == "revoke_device" ==>
                  FirstRevoked(s.devices, t.devices, r.target) && t.deviceRevocationPreview == Some(r.target))
            && (r.action != "revoke_device" ==>
                  t.devices == s.devices && t.deviceRevocationPreview == s.deviceRevocationPreview)
  {
    hide RevokeDevice, FirstRevoked;
    RevocationIsOfFirst(s.devices, r.target);
  }

  /** Why an action is denied: the state of the latest authorization first, then what may be done now. */
  function DenialCode(s: State, r: Request, now: Option<Stamp>): Code {
    if s.stepUps == [] then StepUpRequired
    else
      var a := s.stepUps[|s.stepUps| - 1];
      if a.policyVersion != Some(s.policyVersion) then CurrentAccessDenied
      else if a.status.Used? then StepUpAlreadyUsed
      else if a.status.Expired? || Late(a, now) then StepUpExpired
      else if !Covers(s, r, now) then StepUpScopeMismatch
      else if NotAllowed(s, r) then StepUpActionNotAllowed
      else CurrentAccessDenied
  }

  /** Later than its expiry; by an invalid date nothing is late. */
  predicate Late(a: StepUp, now: Option<Stamp>) {
    var at := if now.Some? then now.value else DEFAULT_NOW;
    at.At? && a.expiresAt.At? && at.ms > a.expiresAt.ms
  }

  /** What a denied action leaves as it was; a late authorization expires. */
  lemma DeniedOtherwise(s: State, r: Request, now: Option<Stamp>)
    requires !(Covers(s, r, now) && MayAct(s, r))
    ensures var t, code := Transition(s, PerformSensitiveAction(r, now)), DenialCode(s, r, now);
            && t.safety == Some(code) && Logged(s, t, r.action, r.target, "denied", code)
            && t == s.(safety := t.safety, auditEvents := t.auditEvents, stepUps := t.stepUps)
            && if code.StepUpExpired? && s.stepUps[|s.stepUps| - 1].status.Issued?
               then LatestBecomes(s.stepUps, t.stepUps, s.stepUps[|s.stepUps| - 1].(status := Expired))
               else t.stepUps == s.stepUps
  {
    hide Transition, Allowed;
    PerformIs(s, r, now);
    QuietChecks(s, r, now);
    DenialDoes(s.(safety := None), r, now);
  }

  lemma DenialDoes(s: State, r: Request, now: Option<Stamp>)
    requires !(Covers(s, r, now) && MayAct(s, r))
    ensures var t, code := Perform(s, r, now), DenialCode(s, r, now);
            && t.safety == Some(code) && Logged(s, t, r.action, r.target, "denied", code)
            && t == s.(safety := t.safety, auditEvents := t.auditEvents, stepUps := t.stepUps)
            && if code.StepUpExpired? && s.stepUps[|s.stepUps| - 1].status.Issued?
               then LatestBecomes(s.stepUps, t.stepUps, s.stepUps[|s.stepUps| - 1].(status := Expired))
               else t.stepUps == s.stepUps
  {
    hide Applied, AuthorizeSensitive, MayAct, NotAllowed, ValidateStepUp, Covers, Late, Denied, ExpireStepUp, LatestBecomes;
    AuthorizedExactlyWhen(s, r, CurrentAccessDenied);
    ValidExactlyWhen(s, r, now);
    var code := DenialCode(s, r, now);
    if code.StepUpExpired? {
      assert Perform(s, r, now) == Denied(ExpireStepUp(s), r, code);
      ExpiryDoes(s, r);
    } else {
      assert Perform(s, r, now) == Denied(s, r, code);
      DeniedDoes(s, r, code);
    }
  }

  lemma DeniedDoes(s: State, r: Request, code: Code)
    ensures var t := Denied(s, r, code);
            && t.safety == Some(code) && Logged(s, t, r.action, r.target, "denied", code)
            && t == s.(safety := t.safety, auditEvents := t.auditEvents)
  {
  }

  lemma ExpiryDoes(s: State, r: Request)
    requires s.stepUps != []
    ensures var t := Denied(ExpireStepUp(s), r, StepUpExpired);
            && t.safety == Some(StepUpExpired) && Logged(s, t, r.action, r.target, "denied", StepUpExpired)
            && t == s.(safety := t.safety, auditEvents := t.auditEvents, stepUps := t.stepUps)
            && if s.stepUps[|s.stepUps| - 1].status.Issued?
               then LatestBecomes(s.stepUps, t.stepUps, s.stepUps[|s.stepUps| - 1].(status := Expired))
               else t.stepUps == s.stepUps
  {
  }

  /** The latest authorization passes exactly if it covers the request. */
  lemma ValidExactlyWhen(s: State, r: Request, now: Option<Stamp>)
    ensures ValidateStepUp(s, r, now).None? <==> Covers(s, r, now)
    ensures s.stepUps == [] ==> ValidateStepUp(s, r, now) == Some(StepUpRequired)
    ensures s.stepUps != [] ==>
              var a := s.stepUps[|s.stepUps| - 1];
              && (a.status.Used? ==> ValidateStepUp(s, r, now) == Some(StepUpAlreadyUsed))
              && (a.status.Expired? || (a.status.Issued? && Late(a, now)) ==> ValidateStepUp(s, r, now) == Some(StepUpExpired))
              && (a.status.Issued? && !Late(a, now) && !Covers(s, r, now) ==>
                    ValidateStepUp(s, r, now) == Some(StepUpScopeMismatch))
  {
  }

  lemma UncoveredIsDenied(s: State, r: Request, now: Option<Stamp>)
    requires !(Covers(s, r, now) && MayAct(s, r))
    ensures Perform(s, r, now).domainMutationCount == s.domainMutationCount
  {
    hide Perform, Allowed, Covers, SensitiveDefinition, LatestBecomes, DenialCode;
    DenialDoes(s, r, now);
  }

  // ----- issuing an authorization

  /** An authorization is issued, for just what the request names, exactly if the request may act. */
  lemma IssuedExactlyWhen(s: State, r: Request, expiresAt: Option<Stamp>)
    ensures var t := Transition(s, IssueStepUp(r, expiresAt));
            if MayAct(s, r) then
              && t == s.(safety := None, stepUps := t.stepUps, auditEvents := t.auditEvents)
              && t.stepUps == s.stepUps + [StepUp(|s.stepUps| + 1, r.actor, r.action, r.target, r.policyVersion,
                                                  if expiresAt.Some? then expiresAt.value else DEFAULT_EXPIRY, None, Issued)]
              && Logged(s, t, "issue_step_up", r.target, "prototype_fixture", StepUpIssuedPreview)
            else
              && t.safety.Some? && t == s.(safety := t.safety, auditEvents := t.auditEvents)
              && Logged(s, t, r.action, r.target, "denied", t.safety.value)
              && (t.safety.value == StepUpActionNotAllowed <==> NotAllowed(s, r))
  {
    hide AuthorizeSensitive, Allowed, NotAllowed, Perform, Advance;
    var q := s.(safety := None);
    AuthorizedExactlyWhen(q, r, AuthorizationDenied);
    QuietChecks(s, r, None);
    assert NotAllowed(q, r) == NotAllowed(s, r) by {
      QuietTargets(s, r);
    }
  }

  lemma QuietTargets(s: State, r: Request)
    ensures NotAllowed(s.(safety := None), r) == NotAllowed(s, r)
  {
  }

  /** What was issued covers the same request exactly if the request names actor and policy, until it is late. */
  lemma IssuedCovers(s: State, r: Request, expiresAt: Option<Stamp>, now: Option<Stamp>)
    requires MayAct(s, r)
    ensures var t := Transition(s, IssueStepUp(r, expiresAt));
            && t.stepUps != []
            && (Covers(t, r, now) <==> r.actor.Some? && r.policyVersion.Some? && !Late(t.stepUps[|t.stepUps| - 1], now))
            && (expiresAt.None? && now.None? ==> !Late(t.stepUps[|t.stepUps| - 1], now))
  {
    hide Transition, Allowed, NotAllowed;
    IssuedExactlyWhen(s, r, expiresAt);
    assert Allowed(s, r);
  }

  // ----- the realm move

  /** What the next step of the move needs. */
  predicate StepReady(s: State, now: Option<Stamp>) {
    var n := |s.realmMove.completed|;
    && (1 <= n < 5 ==> MayAct(s, MoveRequest(s)))
    && (n == 2 ==> Covers(s, MoveRequest(s), now))
    && (3 <= n < 5 ==> ApprovalHolds(s))
  }

  /** The five steps, and past them none. */
  function StepNamed(n: nat): RealmStep {
    if n == 0 then TargetScope else if n == 1 then AuthorizationSensitiveCheck else if n == 2 then ExplicitApproval
    else if n == 3 then TransferPreview else if n == 4 then VersionAudit else NoStep
  }

  lemma {:induction false} IssuedIsFound(stepUps: seq<StepUp>, id: nat, k: nat)
    requires k < |stepUps| && stepUps[k].id == id && forall j :: 0 <= j < k ==> stepUps[j].id != id
    ensures FindStepUp(stepUps, Some(id)) == Some(stepUps[k])
  {
    if k > 0 {
      IssuedIsFound(stepUps[1..], id, k - 1);
    }
  }

  lemma {:induction false} FoundIsThere(stepUps: seq<StepUp>, id: Option<nat>)
    requires FindStepUp(stepUps, id).Some?
    ensures exists k :: 0 <= k < |stepUps| && Some(stepUps[k].id) == id && stepUps[k] == FindStepUp(stepUps, id).value
  {
    if Some(stepUps[0].id) == id {
      assert stepUps[0] == FindStepUp(stepUps, id).value;
    } else {
      FoundIsThere(stepUps[1..], id);
      var k :| 0 <= k < |stepUps[1..]| && Some(stepUps[1..][k].id) == id && stepUps[1..][k] == FindStepUp(stepUps, id).value;
      assert stepUps[k + 1] == stepUps[1..][k];
    }
  }

  /** With authorizations numbered from one, the move is not denied exactly if it may be done and its approval holds. */
  lemma MoveAllowedExactlyWhen(s: State)
    requires Numbered(s.stepUps)
    ensures MoveDenial(s).None? <==> MayAct(s, MoveRequest(s)) && ApprovalHolds(s)
  {
    hide AuthorizeSensitive, MayAct, FindStepUp, ApprovalMatches;
    AuthorizedExactlyWhen(s, MoveRequest(s), CurrentAccessDenied);
    var id := s.realmMove.stepUpId;
    if FindStepUp(s.stepUps, id).Some? {
      FoundIsThere(s.stepUps, id);
    }
    if id.Some? && 1 <= id.value <= |s.stepUps| {
      IssuedIsFound(s.stepUps, id.value, id.value - 1);
    }
  }

  /** Main result: a step of the move is completed exactly if it is the next one and what it needs is there. */
  lemma CompletedExactlyWhen(s: State, step: RealmStep, now: Option<Stamp>)
    requires Numbered(s.stepUps)
    ensures var n, t := |s.realmMove.completed|, Transition(s, AdvanceRealmMove(step, now));
            if step == StepNamed(n) && StepReady(s, now) then t.realmMove.completed == s.realmMove.completed + [step]
            else t.realmMove == s.realmMove && t.safety.Some?
    ensures step != StepNamed(|s.realmMove.completed|) ==>
              Transition(s, AdvanceRealmMove(step, now)) == s.(safety := Some(RealmMoveStepRequired))
  {
    hide Transition, StepNamed, StepReady, Numbered;
    AdvanceIs(s, step, now);
    QuietMove(s, now);
    AdvanceDecides(s.(safety := None), step, now);
  }

  lemma AdvanceIs(s: State, step: RealmStep, now: Option<Stamp>)
    ensures Transition(s, AdvanceRealmMove(step, now)) == Advance(s.(safety := None), step, now)
    ensures step != StepNamed(|s.realmMove.completed|) ==>
              Advance(s.(safety := None), step, now) == s.(safety := Some(RealmMoveStepRequired))
  {
    hide Completed, MoveDenied, ApprovedMove, AuthorizeSensitive, MoveDenial, ValidateStepUp;
  }

  predicate Decided(s: State, t: State, step: RealmStep, completes: bool) {
    if completes then t.realmMove.completed == s.realmMove.completed + [step]
    else t.realmMove == s.realmMove && t.safety.Some?
  }

  lemma AdvanceDecides(s: State, step: RealmStep, now: Option<Stamp>)
    requires Numbered(s.stepUps) && s.safety.None?
    ensures Decided(s, Advance(s, step, now), step, step == StepNamed(|s.realmMove.completed|) && StepReady(s, now))
  {
    hide AuthorizeSensitive, MoveDenial, MayAct, ValidateStepUp, Covers, ApprovalHolds, Numbered, Completed, MoveDenied, ApprovedMove,
      Decided;
    AuthorizedExactlyWhen(s, MoveRequest(s), CurrentAccessDenied);
    AuthorizedExactlyWhen(s, MoveRequest(s), AuthorizationDenied);
    ValidExactlyWhen(s, MoveRequest(s), now);
    MoveAllowedExactlyWhen(s);
    StepEnds(s, step, now);
    MoveDeniedEnds(s, step, Or(AuthorizeSensitive(s, MoveRequest(s), AuthorizationDenied), Fine));
    MoveDeniedEnds(s, step, Or(AuthorizeSensitive(s, MoveRequest(s), CurrentAccessDenied), Fine));
    MoveDeniedEnds(s, step, Or(MoveDenial(s), Fine));
    SafetyEnds(s, step, Some(RealmMoveStepRequired));
    if ValidateStepUp(s, MoveRequest(s), now).Some? {
      SafetyEnds(s, step, ValidateStepUp(s, MoveRequest(s), now));
    }
  }

  lemma StepEnds(s: State, step: RealmStep, now: Option<Stamp>)
    ensures Decided(s, Completed(s, step), step, true)
    ensures s.stepUps != [] ==> Decided(s, ApprovedMove(s, now), ExplicitApproval, true)
  {
    hide StepName;
  }

  lemma MoveDeniedEnds(s: State, step: RealmStep, code: Code)
    ensures Decided(s, MoveDenied(s, step, code), step, false)
  {
    hide StepName;
  }

  lemma SafetyEnds(s: State, step: RealmStep, safety: Option<Code>)
    requires safety.Some?
    ensures Decided(s, s.(safety := safety), step, false)
  {
  }

  lemma QuietMove(s: State, now: Option<Stamp>)
    ensures StepReady(s.(safety := None), now) == StepReady(s, now)
  {
    hide Allowed, Covers;
    assert MoveRequest(s.(safety := None)) == MoveRequest(s);
    QuietChecks(s, MoveRequest(s), now);
  }

  // ----- permissions, policies and past results

  /** A permission is given exactly in the own scope, to the active membership's own role, by a grant. */
  lemma PermittedExactlyWhen(s: State, role: Option<Role>, permission: Permission, tenantId: string, workspaceId: string)
    ensures AuthorizeAccountAction(s, role, permission, tenantId, workspaceId).None?
       <==> && tenantId == s.tenantId && workspaceId == s.workspaceId && s.membership.Some? && s.membership.value.active
            && s.membership.value.tenantId == tenantId && s.membership.value.workspaceId == workspaceId
            && (role.Some? ==> role.value == s.membership.value.role)
            && (s.membership.value.role, permission) in s.grants
    ensures AuthorizeAccountAction(s, role, permission, tenantId, workspaceId) == Some(CurrentAccessDenied)
       <==> || tenantId != s.tenantId || workspaceId != s.workspaceId || s.membership.None? || !s.membership.value.active
            || s.membership.value.tenantId != tenantId || s.membership.value.workspaceId != workspaceId
  {
  }

  /** Revoking takes away just the one grant, after which nothing that needs it is permitted. */
  lemma RevocationTakesEffect(s: State, role: Role, permission: Permission, claimed: Option<Role>)
    ensures var t := Transition(s, RevokePermission(role, permission));
            && (forall r, p :: (r, p) in t.grants <==> (r, p) in s.grants && (r, p) != (role, permission))
            && (s.membership.Some? && s.membership.value.role == role ==>
                  AuthorizeAccountAction(t, claimed, permission, s.tenantId, s.workspaceId).Some?)
            && |t.auditEvents| == |s.auditEvents| + 1
  {
    hide RoleName, PermissionName;
  }

  /** A change of policy is shown exactly to an organization admin with the permission to approve deliveries. */
  lemma PolicyShownExactlyWhen(s: State, role: Option<Role>, field: string)
    ensures var t := Transition(s, PreviewPolicyChange(role, field));
            if && s.membership.Some? && s.membership.value.active && s.membership.value.role == OrganizationAdmin
               && s.membership.value.tenantId == s.tenantId && s.membership.value.workspaceId == s.workspaceId
               && (role.Some? ==> role.value == OrganizationAdmin) && (OrganizationAdmin, FinalApprovalDelivery) in s.grants
            then t == s.(safety := None, policyPreview := Some(field))
            else t == s.(safety := Some(AuthorizationDenied), policyPreview := None)
  {
    PermittedExactlyWhen(s.(safety := None), role, FinalApprovalDelivery, s.tenantId, s.workspaceId);
    hide AuthorizeAccountAction;
  }

  /** Past results are judged by the present access: blocked or not, always recorded, and rerun only if not blocked. */
  lemma EvaluationJudgesNow(s: State, operation: string)
    ensures var t := Transition(s, EvaluatePastAccess(operation));
            && t.accessDecisions == s.accessDecisions
                 + [if s.accessState.AccessBlocked? then CurrentAccessDenied else AccessEvaluated]
            && (t.safety == Some(CurrentAccessDenied) <==> s.accessState.AccessBlocked?)
            && (t.rerunPreviews > s.rerunPreviews <==> operation == "rerun" && !s.accessState.AccessBlocked?)
            && |t.auditEvents| == |s.auditEvents| + 1 && t.domainMutationCount == s.domainMutationCount
            && t.outputVersionId == s.outputVersionId
  {
  }
}
