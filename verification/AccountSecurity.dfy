/** The account security reducer: step-up authorizations, the realm move, grants and the audit log. */
module AccountSecurity {

  datatype Option<T> = None | Some(value: T)

  datatype Role = PersonalOwner | OrganizationAdmin | WorkspaceAdmin | Editor | Reviewer | Approver | Viewer

  datatype Permission = ExternalLlm | InternetSearch | LocalInternalLlm | DaonApprovedKnowledge
    | FileDownloadShare | KnowledgeRegistration | DataRealmMove | FinalApprovalDelivery

  datatype Code = StepUpActionNotAllowed | CurrentAccessDenied | AuthorizationDenied | StepUpRequired
    | StepUpAlreadyUsed | StepUpExpired | StepUpScopeMismatch | OrganizationPolicyLocked
    | RealmMoveStepRequired | AuditAppendOnly | StepUpIssuedPreview | StepUpUsed | AccessEvaluated | Fine

  // ----- the registry of sensitive actions

  /** Who may do what to which kind of target. */
  datatype Definition = Definition(action: string, permission: Option<Permission>, roles: set<Role>, prefixes: seq<string>)

  const MOVE_DATA_REALM := "move_data_realm"
  const REVOKE_DEVICE := "revoke_device"

  const REGISTRY: seq<Definition> := [
    Definition("approve_external_egress", Some(FinalApprovalDelivery), {OrganizationAdmin, Approver}, ["output-", "export-"]),
    Definition(MOVE_DATA_REALM, Some(DataRealmMove), {PersonalOwner, OrganizationAdmin, WorkspaceAdmin}, ["source-"]),
    Definition("external_share_download", Some(FileDownloadShare),
               {PersonalOwner, OrganizationAdmin, WorkspaceAdmin, Editor}, ["output-", "file-"]),
    Definition("final_approval_registration", Some(FinalApprovalDelivery),
               {PersonalOwner, OrganizationAdmin, Approver}, ["output-", "knowledge-"]),
    Definition("change_organization_policy", Some(FinalApprovalDelivery), {OrganizationAdmin}, ["tenant-organization-"]),
    Definition(REVOKE_DEVICE, None, {PersonalOwner, OrganizationAdmin}, ["device-"]),
    Definition("purge_restore", Some(FinalApprovalDelivery), {PersonalOwner, OrganizationAdmin}, ["source-", "backup-"])]

  function Find(definitions: seq<Definition>, action: string): Option<Definition> {
    if definitions == [] then None
    else if definitions[0].action == action then Some(definitions[0])
    else Find(definitions[1..], action)
  }

  // ----- the state

  /** A date: milliseconds since 1970, or an invalid date, which compares false with everything. */
  datatype Stamp = At(ms: int) | InvalidDate

  predicate After(x: Stamp, y: Stamp) {
    x.At? && y.At? && x.ms > y.ms
  }

  const DEFAULT_NOW := At(1_784_719_800_000)
  const DEFAULT_USED_AT := At(DEFAULT_NOW.ms + 60_000)
  const DEFAULT_EXPIRY := At(DEFAULT_NOW.ms + 600_000)

  datatype Status = Issued | Used | Expired

  /** Actor and policy version are what the issuing action named, which may be nothing. */
  datatype StepUp = StepUp(id: nat, actor: Option<string>, action: string, target: string, policyVersion: Option<string>,
                           expiresAt: Stamp, usedAt: Option<Stamp>, status: Status)

  datatype Membership = Membership(role: Role, active: bool, tenantId: string, workspaceId: string)

  datatype Device = Device(id: string, revoked: bool, sessionCount: nat)

  /** NoStep stands for a step that the caller did not name. */
  datatype RealmStep = TargetScope | AuthorizationSensitiveCheck | ExplicitApproval | TransferPreview | VersionAudit | NoStep

  const REALM_MOVE_STEPS := [TargetScope, AuthorizationSensitiveCheck, ExplicitApproval, TransferPreview, VersionAudit]

  /** The step that comes after the first n: past the end there is none. */
  function ExpectedStep(n: nat): RealmStep {
    if n < |REALM_MOVE_STEPS| then REALM_MOVE_STEPS[n] else NoStep
  }

  datatype RealmMove = RealmMove(sourceId: string, tenantId: string, workspaceId: string, completed: seq<RealmStep>,
                                 approvalPreview: bool, stepUpId: Option<nat>)

  datatype AuditEvent = AuditEvent(sequence: nat, actor: string, role: Role, action: string, target: string,
                                   policyVersion: string, decision: string, code: Code)

  datatype AccessState = Available | PartiallyRedacted | AccessBlocked

  datatype State = State(
    screen: string, actorId: string, tenantId: string, workspaceId: string, selectedRole: Role, selectedPolicy: string,
    outputVersionId: string, membership: Option<Membership>, grants: set<(Role, Permission)>, policyVersion: string,
    policies: set<string>, organizationActions: seq<Definition>, devices: seq<Device>, stepUps: seq<StepUp>,
    accessState: AccessState, accessDecisions: seq<Code>, rerunPreviews: nat, realmMove: RealmMove,
    auditEvents: seq<AuditEvent>, safety: Option<Code>, policyPreview: Option<string>,
    deviceRevocationPreview: Option<string>, domainMutationCount: nat)

  /** A request for a sensitive action; what it leaves out is taken from the state. */
  datatype Request = Request(action: string, target: string, actor: Option<string>, policyVersion: Option<string>,
                             tenantId: Option<string>, workspaceId: Option<string>, role: Option<Role>)

  datatype Action =
    | Navigate(screen: string)
    | SelectRole(role: Role)
    | SelectPolicy(policy: string)
    | SelectOutputVersion(outputVersionId: string)
    | RevokePermission(revokedRole: Role, permission: Permission)
    | AttemptTenantAccess
    | AttemptRoleEscalation
    | PreviewPolicyChange(previewRole: Option<Role>, field: string)
    | RequestPolicyRelaxation(relaxed: string)
    | IssueStepUp(request: Request, expiresAt: Option<Stamp>)
    | PerformSensitiveAction(request: Request, now: Option<Stamp>)
    | SetCurrentAccess(accessState: AccessState)
    | EvaluatePastAccess(operation: string)
    | AdvanceRealmMove(step: RealmStep, moveNow: Option<Stamp>)
    | MutateAudit
    | Unknown

  function Or<T>(x: Option<T>, default: T): T {
    if x.Some? then x.value else default
  }

  function Audited(s: State, action: string, target: string, decision: string, code: Code): State {
    s.(auditEvents := s.auditEvents + [AuditEvent(|s.auditEvents| + 1, s.actorId, s.selectedRole, action, target,
                                                  s.policyVersion, decision, code)])
  }

  // ----- authorization: None is permission, Some(code) the reason for a denial

  function AuthorizeAccountAction(s: State, role: Option<Role>, permission: Permission, tenantId: string, workspaceId: string)
    : Option<Code>
  {
    if tenantId != s.tenantId || workspaceId != s.workspaceId then Some(CurrentAccessDenied)
    else if s.membership.None? || !s.membership.value.active
            || s.membership.value.tenantId != tenantId || s.membership.value.workspaceId != workspaceId then
      Some(CurrentAccessDenied)
    else if role.Some? && role.value != s.membership.value.role then Some(AuthorizationDenied)
    else if (s.membership.value.role, permission) !in s.grants then Some(AuthorizationDenied)
    else None
  }

  function SensitiveDefinition(s: State, action: string): Option<Definition> {
    if Find(REGISTRY, action).Some? then Find(REGISTRY, action) else Find(s.organizationActions, action)
  }

  predicate StartsWithOneOf(target: string, prefixes: seq<string>) {
    exists i :: 0 <= i < |prefixes| && prefixes[i] <= target
  }

  function AuthorizeSensitive(s: State, r: Request, denied: Code): Option<Code> {
    var definition := SensitiveDefinition(s, r.action);
    if definition.None? || !StartsWithOneOf(r.target, definition.value.prefixes) then Some(StepUpActionNotAllowed)
    else if Or(r.actor, s.actorId) != s.actorId || Or(r.policyVersion, s.policyVersion) != s.policyVersion then
      Some(CurrentAccessDenied)
    else
      var tenantId, workspaceId, role := Or(r.tenantId, s.tenantId), Or(r.workspaceId, s.workspaceId), Or(r.role, s.selectedRole);
      var scoped := tenantId == s.tenantId && workspaceId == s.workspaceId;
      if s.membership.None? then Some(CurrentAccessDenied)
      else
        var m := s.membership.value;
        if !m.active || m.role != role || m.tenantId != tenantId || m.workspaceId != workspaceId || !scoped then
          Some(if !scoped || m.tenantId != s.tenantId || m.workspaceId != s.workspaceId then CurrentAccessDenied else denied)
        else if role !in definition.value.roles then Some(denied)
        else if definition.value.permission.None? then None
        else
          var decision := AuthorizeAccountAction(s, Some(role), definition.value.permission.value, tenantId, workspaceId);
          if decision.None? then None
          else if denied == CurrentAccessDenied then Some(denied)
          else decision
  }

  // ----- step-up authorizations

  function ValidateStepUp(s: State, r: Request, now: Option<Stamp>): Option<Code> {
    if s.stepUps == [] then Some(StepUpRequired)
    else
      var a := s.stepUps[|s.stepUps| - 1];
      if a.status.Used? then Some(StepUpAlreadyUsed)
      else if a.status.Expired? || After(Or(now, DEFAULT_NOW), a.expiresAt) then Some(StepUpExpired)
      else if a.actor != Some(Or(r.actor, s.actorId)) || a.action != r.action || a.target != r.target
              || a.policyVersion != Some(Or(r.policyVersion, s.policyVersion)) then
        Some(StepUpScopeMismatch)
      else None
  }

  function ConsumeStepUp(s: State, now: Option<Stamp>): State
    requires s.stepUps != []
  {
    var last := |s.stepUps| - 1;
    s.(stepUps := s.stepUps[last := s.stepUps[last].(status := Used, usedAt := Some(Or(now, DEFAULT_USED_AT)))])
  }

  function ExpireStepUp(s: State): State
    requires s.stepUps != []
  {
    var last := |s.stepUps| - 1;
    if s.stepUps[last].status.Issued? then s.(stepUps := s.stepUps[last := s.stepUps[last].(status := Expired)]) else s
  }

  function Issue(s: State, r: Request, expiresAt: Option<Stamp>): State {
    var denial := AuthorizeSensitive(s, r, AuthorizationDenied);
    if denial.Some? then Audited(s.(safety := denial), r.action, r.target, "denied", denial.value)
    else
      var a := StepUp(|s.stepUps| + 1, r.actor, r.action, r.target, r.policyVersion, Or(expiresAt, DEFAULT_EXPIRY), None, Issued);
      Audited(s.(stepUps := s.stepUps + [a]), "issue_step_up", r.target, "prototype_fixture", StepUpIssuedPreview)
  }

  function RevokeDevice(devices: seq<Device>, id: string): seq<Device> {
    if devices == [] then []
    else if devices[0].id == id then [if devices[0].revoked then devices[0] else Device(id, true, 0)] + devices[1..]
    else [devices[0]] + RevokeDevice(devices[1..], id)
  }

  function Denied(s: State, r: Request, code: Code): State {
    Audited(s.(safety := Some(code)), r.action, r.target, "denied", code)
  }

  /** A sensitive action that passed every check: its authorization is used up. */
  function Applied(s: State, r: Request, now: Option<Stamp>): State
    requires s.stepUps != []
  {
    var consumed := ConsumeStepUp(s, now);
    var applied := if r.action == REVOKE_DEVICE
                   then consumed.(devices := RevokeDevice(consumed.devices, r.target), deviceRevocationPreview := Some(r.target))
                   else consumed;
    Audited(applied.(domainMutationCount := applied.domainMutationCount + 1), r.action, r.target, "previewed", StepUpUsed)
  }

  function Perform(s: State, r: Request, now: Option<Stamp>): State {
    if s.stepUps != [] && s.stepUps[|s.stepUps| - 1].policyVersion != Some(s.policyVersion) then
      Denied(s, r, CurrentAccessDenied)
    else
      var denial := ValidateStepUp(s, r, now);
      if denial.Some? then
        Denied(if denial.value.StepUpExpired? && s.stepUps != [] then ExpireStepUp(s) else s, r, denial.value)
      else
        var access := AuthorizeSensitive(s, r, CurrentAccessDenied);
        if access.Some? then Denied(s, r, access.value)
        else
          Applied(s, r, now)
  }

  // ----- the realm move

  function MoveRequest(s: State): Request {
    Request(MOVE_DATA_REALM, s.realmMove.sourceId, Some(s.actorId), Some(s.policyVersion),
            Some(s.realmMove.tenantId), Some(s.realmMove.workspaceId), None)
  }

  /** The authorization that approved the move still matches the current actor, source and policy. */
  predicate ApprovalMatches(s: State, a: StepUp) {
    && a.status.Used? && a.actor == Some(s.actorId) && a.action == MOVE_DATA_REALM
    && a.target == s.realmMove.sourceId && a.policyVersion == Some(s.policyVersion)
  }

  function FindStepUp(stepUps: seq<StepUp>, id: Option<nat>): Option<StepUp> {
    if stepUps == [] then None
    else if Some(stepUps[0].id) == id then Some(stepUps[0])
    else FindStepUp(stepUps[1..], id)
  }

  function MoveDenial(s: State): Option<Code> {
    var denial := AuthorizeSensitive(s, MoveRequest(s), CurrentAccessDenied);
    if denial.Some? then denial
    else
      var a := FindStepUp(s.stepUps, s.realmMove.stepUpId);
      if a.None? || !ApprovalMatches(s, a.value) then Some(CurrentAccessDenied) else None
  }

  function StepName(step: RealmStep): string {
    match step
    case TargetScope => "realm_move_target_scope"
    case AuthorizationSensitiveCheck => "realm_move_authorization_sensitive_check"
    case ExplicitApproval => "realm_move_explicit_approval"
    case TransferPreview => "realm_move_transfer_preview"
    case VersionAudit => "realm_move_version_audit"
    case NoStep => "realm_move_undefined"
  }

  function MoveDenied(s: State, step: RealmStep, code: Code): State {
    Audited(s.(safety := Some(code)), StepName(step), s.realmMove.sourceId, "denied", code)
  }

  function Completed(s: State, step: RealmStep): State {
    var m := s.realmMove.(completed := s.realmMove.completed + [step]);
    Audited(s.(realmMove := m), StepName(step), m.sourceId, "prototype_fixture", Fine)
  }

  /** A successful approval of the move uses up the latest authorization and remembers it. */
  function ApprovedMove(s: State, now: Option<Stamp>): State
    requires s.stepUps != []
  {
    var consumed := ConsumeStepUp(s, now);
    var id := s.stepUps[|s.stepUps| - 1].id;
    Completed(consumed.(realmMove := consumed.realmMove.(approvalPreview := true, stepUpId := Some(id))), ExplicitApproval)
  }

  function Advance(s: State, step: RealmStep, now: Option<Stamp>): State {
    if step != ExpectedStep(|s.realmMove.completed|) then s.(safety := Some(RealmMoveStepRequired))
    else match step
      case TargetScope => Completed(s, step)
      case AuthorizationSensitiveCheck =>
        var denial := AuthorizeSensitive(s, MoveRequest(s), AuthorizationDenied);
        if denial.Some? then MoveDenied(s, step, denial.value) else Completed(s, step)
      case ExplicitApproval =>
        var denial := AuthorizeSensitive(s, MoveRequest(s), CurrentAccessDenied);
        if denial.Some? then MoveDenied(s, step, denial.value)
        else
          var invalid := ValidateStepUp(s, MoveRequest(s), now);
          if invalid.Some? then s.(safety := invalid) else ApprovedMove(s, now)
      case NoStep => Completed(s, step)
      case _ =>
        var denial := MoveDenial(s);
        if denial.Some? then MoveDenied(s, step, denial.value) else Completed(s, step)
  }

  // ----- the other actions

  function RoleName(role: Role): string {
    match role
    case PersonalOwner => "personal_owner"
    case OrganizationAdmin => "organization_admin"
    case WorkspaceAdmin => "workspace_admin"
    case Editor => "editor"
    case Reviewer => "reviewer"
    case Approver => "approver"
    case Viewer => "viewer"
  }

  function PermissionName(permission: Permission): string {
    match permission
    case ExternalLlm => "external_llm"
    case InternetSearch => "internet_search"
    case LocalInternalLlm => "local_internal_llm"
    case DaonApprovedKnowledge => "daon_approved_knowledge"
    case FileDownloadShare => "file_download_share"
    case KnowledgeRegistration => "knowledge_registration"
    case DataRealmMove => "data_realm_move"
    case FinalApprovalDelivery => "final_approval_delivery"
  }

  function EvaluateAccess(s: State, operation: string): State {
    var code := if s.accessState.AccessBlocked? then CurrentAccessDenied else AccessEvaluated;
    var decided := Audited(s.(accessDecisions := s.accessDecisions + [code]), "past_output_" + operation, s.outputVersionId,
                           if s.accessState.AccessBlocked? then "access_blocked"
                           else if s.accessState.Available? then "available" else "partially_redacted", code);
    var rerun := if operation == "rerun" && !s.accessState.AccessBlocked?
                 then decided.(rerunPreviews := decided.rerunPreviews + 1) else decided;
    if s.accessState.AccessBlocked? then rerun.(safety := Some(CurrentAccessDenied)) else rerun
  }

  function PreviewPolicy(s: State, role: Option<Role>, field: string): State {
    if AuthorizeAccountAction(s, role, FinalApprovalDelivery, s.tenantId, s.workspaceId).Some?
       || s.membership.None? || s.membership.value.role != OrganizationAdmin then
      s.(policyPreview := None, safety := Some(AuthorizationDenied))
    else s.(policyPreview := Some(field))
  }

  /** transitionAccountSecurityState */
  function Transition(current: State, action: Action): State {
    var s := current.(safety := None);
    match action
    case Navigate(screen) => if screen in {"account", "organization"} then s.(screen := screen) else current
    case SelectRole(role) => s.(selectedRole := role)
    case SelectPolicy(policy) => if policy in s.policies then s.(selectedPolicy := policy) else current
    case SelectOutputVersion(id) => if id == "output-version-001" then s.(outputVersionId := id) else current
    case RevokePermission(role, permission) =>
      Audited(s.(grants := s.grants - {(role, permission)}), "revoke_permission",
              RoleName(role) + ":" + PermissionName(permission), "previewed", Fine)
    case AttemptTenantAccess => s.(safety := Some(CurrentAccessDenied))
    case AttemptRoleEscalation => s.(safety := Some(AuthorizationDenied))
    case PreviewPolicyChange(role, field) => PreviewPolicy(s, role, field)
    case RequestPolicyRelaxation(field) =>
      if field in s.policies then s.(policyPreview := Some(field), safety := Some(OrganizationPolicyLocked)) else current
    case IssueStepUp(r, expiresAt) => Issue(s, r, expiresAt)
    case PerformSensitiveAction(r, now) => Perform(s, r, now)
    case SetCurrentAccess(accessState) => s.(accessState := accessState)
    case EvaluatePastAccess(operation) => EvaluateAccess(s, operation)
    case AdvanceRealmMove(step, now) => Advance(s, step, now)
    case MutateAudit => s.(safety := Some(AuditAppendOnly))
    case Unknown => current
  }

  /** The state after a list of actions. */
  function Run(s: State, actions: seq<Action>): State {
    if actions == [] then s
    else
      var last := |actions| - 1;
      Transition(Run(s, actions[..last]), actions[last])
  }

  // ----- the reducer as it works: a clone, changed step by step and returned

  method IssueStepUpFor(current: State, r: Request, expiresAt: Option<Stamp>) returns (state: State)
    ensures state == Issue(current, r, expiresAt)
  {
    state := current;
    var denial := AuthorizeSensitive(state, r, AuthorizationDenied);
    if denial.Some? {
      state := state.(safety := denial);
      state := Audited(state, r.action, r.target, "denied", denial.value);
      return;
    }
    var sequence := |state.stepUps| + 1;
    var expiry := if expiresAt.Some? then expiresAt.value else DEFAULT_EXPIRY;
    state := state.(stepUps := state.stepUps + [StepUp(sequence, r.actor, r.action, r.target, r.policyVersion, expiry, None, Issued)]);
    state := Audited(state, "issue_step_up", r.target, "prototype_fixture", StepUpIssuedPreview);
  }

  method RevokeFirst(devices: seq<Device>, id: string) returns (revoked: seq<Device>)
    ensures revoked == RevokeDevice(devices, id)
  {
    var i := 0;
    while i < |devices| && devices[i].id != id
      invariant 0 <= i <= |devices|
      invariant RevokeDevice(devices, id) == devices[..i] + RevokeDevice(devices[i..], id)
    {
      assert devices[i..][1..] == devices[i + 1..];
      i := i + 1;
    }
    revoked := devices;
    if i < |devices| {
      FirstIsRevoked(devices[i..]);
      hide RevokeDevice;
      if !devices[i].revoked {
        revoked := revoked[i := Device(id, true, 0)];
        assert revoked == devices[..i] + ([Device(id, true, 0)] + devices[i..][1..]);
      } else {
        assert devices == devices[..i] + devices[i..];
      }
    } else {
      assert devices[..i] == devices && devices[i..] == [];
    }
  }

  lemma FirstIsRevoked(devices: seq<Device>)
    requires devices != []
    ensures RevokeDevice(devices, devices[0].id)
         == if devices[0].revoked then devices else [Device(devices[0].id, true, 0)] + devices[1..]
  {
    assert devices == [devices[0]] + devices[1..];
  }

  method PerformSensitive(current: State, r: Request, now: Option<Stamp>) returns (state: State)
    ensures state == Perform(current, r, now)
  {
    hide RevokeDevice, AuthorizeSensitive;
    state := current;
    if state.stepUps != [] && state.stepUps[|state.stepUps| - 1].policyVersion != Some(state.policyVersion) {
      state := state.(safety := Some(CurrentAccessDenied));
      state := Audited(state, r.action, r.target, "denied", CurrentAccessDenied);
      return;
    }
    var denial := ValidateStepUp(state, r, now);
    if denial.Some? {
      state := state.(safety := denial);
      if denial.value.StepUpExpired? {
        var index := |state.stepUps| - 1;
        if state.stepUps[index].status.Issued? {
          state := state.(stepUps := state.stepUps[index := state.stepUps[index].(status := Expired)]);
        }
      }
      state := Audited(state, r.action, r.target, "denied", denial.value);
      return;
    }
    var access := AuthorizeSensitive(state, r, CurrentAccessDenied);
    if access.Some? {
      state := state.(safety := access);
      state := Audited(state, r.action, r.target, "denied", access.value);
      return;
    }
    state := ConsumeStepUp(state, now);
    if r.action == REVOKE_DEVICE {
      var revoked := RevokeFirst(state.devices, r.target);
      state := state.(devices := revoked);
      state := state.(deviceRevocationPreview := Some(r.target));
    }
    state := state.(domainMutationCount := state.domainMutationCount + 1);
    state := Audited(state, r.action, r.target, "previewed", StepUpUsed);
  }

  method AdvanceMove(current: State, step: RealmStep, now: Option<Stamp>) returns (state: State)
    ensures state == Advance(current, step, now)
  {
    hide AuthorizeSensitive;
    state := current;
    if step != ExpectedStep(|state.realmMove.completed|) {
      state := state.(safety := Some(RealmMoveStepRequired));
      return;
    }
    if step.AuthorizationSensitiveCheck? || step.ExplicitApproval? {
      var denial := AuthorizeSensitive(state, MoveRequest(state),
                                       if step.ExplicitApproval? then CurrentAccessDenied else AuthorizationDenied);
      if denial.Some? {
        state := state.(safety := denial);
        state := Audited(state, StepName(step), state.realmMove.sourceId, "denied", denial.value);
        return;
      }
    }
    if step.ExplicitApproval? {
      var denial := ValidateStepUp(state, MoveRequest(state), now);
      if denial.Some? {
        state := state.(safety := denial);
        return;
      }
      var id := state.stepUps[|state.stepUps| - 1].id;
      state := ConsumeStepUp(state, now);
      state := state.(realmMove := state.realmMove.(approvalPreview := true, stepUpId := Some(id)));
    }
    if step.TransferPreview? || step.VersionAudit? {
      var denial := MoveDenial(state);
      if denial.Some? {
        state := state.(safety := denial);
        state := Audited(state, StepName(step), state.realmMove.sourceId, "denied", denial.value);
        return;
      }
    }
    state := state.(realmMove := state.realmMove.(completed := state.realmMove.completed + [step]));
    state := Audited(state, StepName(step), state.realmMove.sourceId, "prototype_fixture", Fine);
  }

  method EvaluateAccessFor(current: State, operation: string) returns (state: State)
    ensures state == EvaluateAccess(current, operation)
  {
    state := current;
    var blocked := state.accessState.AccessBlocked?;
    var code := if blocked then CurrentAccessDenied else AccessEvaluated;
    state := state.(accessDecisions := state.accessDecisions + [code]);
    var decision := if blocked then "access_blocked"
                    else if state.accessState.Available? then "available" else "partially_redacted";
    state := Audited(state, "past_output_" + operation, state.outputVersionId, decision, code);
    if operation == "rerun" && !blocked {
      state := state.(rerunPreviews := state.rerunPreviews + 1);
    }
    if blocked {
      state := state.(safety := Some(CurrentAccessDenied));
    }
  }

  method TransitionAccountSecurityState(current: State, action: Action) returns (state: State)
    ensures state == Transition(current, action)
  {
    hide Issue, Perform, Advance, EvaluateAccess, PreviewPolicy, RoleName, PermissionName;
    state := current.(safety := None);
    match action {
      case Navigate(screen) =>
        if screen !in {"account", "organization"} {
          return current;
        }
        state := state.(screen := screen);
      case SelectRole(role) => state := state.(selectedRole := role);
      case SelectPolicy(policy) =>
        if policy !in current.policies {
          return current;
        }
        state := state.(selectedPolicy := policy);
      case SelectOutputVersion(id) =>
        if id != "output-version-001" {
          return current;
        }
        state := state.(outputVersionId := id);
      case RevokePermission(role, permission) =>
        state := state.(grants := state.grants - {(role, permission)});
        var target := RoleName(role) + ":" + PermissionName(permission);
        state := Audited(state, "revoke_permission", target, "previewed", Fine);
      case AttemptTenantAccess => state := state.(safety := Some(CurrentAccessDenied));
      case AttemptRoleEscalation => state := state.(safety := Some(AuthorizationDenied));
      case PreviewPolicyChange(role, field) => state := PreviewPolicy(state, role, field);
      case RequestPolicyRelaxation(field) =>
        if field !in current.policies {
          return current;
        }
        state := state.(policyPreview := Some(field), safety := Some(OrganizationPolicyLocked));
      case IssueStepUp(request, expiresAt) => state := IssueStepUpFor(state, request, expiresAt);
      case PerformSensitiveAction(request, now) => state := PerformSensitive(state, request, now);
      case SetCurrentAccess(accessState) => state := state.(accessState := accessState);
      case EvaluatePastAccess(operation) => state := EvaluateAccessFor(state, operation);
      case AdvanceRealmMove(step, now) => state := AdvanceMove(state, step, now);
      case MutateAudit => state := state.(safety := Some(AuditAppendOnly));
      case Unknown => return current;
    }
  }
}
