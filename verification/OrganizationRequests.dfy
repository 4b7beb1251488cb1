/** The organization console and join form: how a request of unknown result is kept, retried and let go. */
module OrganizationRequests {

  datatype Option<T> = None | Some(value: T)

  /** The two forms follow one protocol and differ in what they drop. */
  datatype Surface = Console | JoinForm

  /** Sessions are compared by all their fields at once; here they are numbered. */
  type Session = nat

  /** Tenant 0 stands for none selected. */
  type Tenant = nat

  /** What a failing call throws: no HTTP status, or a status and whether the message is ORGANIZATION_WORKFLOW_UNAVAILABLE. */
  datatype Error = NoStatus | Status(code: nat, workflowUnavailable: bool)

  datatype Phase = Checking | Sent | Done

  datatype Progress = New | Sending | Uncertain

  /** A submitted request: its idempotency key, what was submitted, and the arguments it still holds, none once set to null. */
  datatype Request = Request(key: nat, submitted: nat, args: Option<nat>, session: Session, tenant: Tenant,
                             status: Progress, phase: Phase, unconfirmed: bool)

  /** A send waiting for the session check, for the reply to transmission n, or for a reload after which it ends. */
  datatype SendStage = AwaitSession | AwaitReply(transmission: nat) | Closing | Finished

  datatype Send = Send(request: nat, generation: nat, stage: SendStage)

  /** A read waiting for the session, for the managed organizations, or for the contents of a scope. */
  datatype ReadStage = ReadSession | ReadTenants(found: Session, same: bool) | ReadScope(selected: Option<Session>) | Ended

  datatype Read = Read(generation: nat, attempt: Option<nat>, stage: ReadStage)

  /** What went over the wire, and for which request; rejected when the server has definitely refused to apply it. */
  datatype Transmission = Transmission(key: nat, request: nat, args: Option<nat>, session: Session, tenant: Tenant, rejected: bool)

  /** The page, its pending continuations, and the server that applies each key on the wire at most once. */
  datatype State = State(
    surface: Surface, epoch: nat, booting: Option<nat>, attempts: nat, operation: Option<nat>,
    currentSession: Option<Session>, currentTenant: Tenant, ready: bool, busy: bool, unavailable: bool,
    requests: seq<Request>, sends: seq<Send>, lookups: seq<Read>, wire: seq<Transmission>, effects: seq<nat>)

  /** Whom the session belongs to: an administrator chooses the tenant, anyone else has one. */
  datatype Found = Found(session: Session, systemAdmin: bool, tenant: Tenant)

  datatype Answer<T> = Good(value: T) | Invalid | Failed(error: Error)

  datatype Event =
    | Boot                                               // mount, page show, focus, navigation, or asking again
    | Hide                                               // page hide
    | SelectTenant(tenant: Tenant)
    | Submit(content: nat, key: nat)                     // the key was just drawn
    | Retry
    | SessionForSend(send: nat, freshSession: Answer<Session>)
    | Reply(send: nat, result: Answer<bool>)             // Good(_) is success
    | EndSend(send: nat)
    | SessionForRead(read: nat, found: Answer<Found>)
    | TenantsForRead(read: nat, tenants: Answer<set<Tenant>>)
    | ScopeForRead(read: nat, scope: Answer<bool>)
    | Apply(transmission: nat)                           // the server takes a transmission up
    | Reload                                             // the page is left and built anew

  const EMPTY_TENANT: Tenant := 0

  // ----- requests

  /** Nothing was submitted, sent or read in between. */
  predicate SameSizes(s: State, t: State) {
    |t.requests| == |s.requests| && t.sends == s.sends && t.lookups == s.lookups
  }

  function Put(s: State, k: nat, r: Request): State
    requires k < |s.requests|
  {
    s.(requests := s.requests[k := r])
  }

  /** Let the operation go; the console keeps the arguments where it only forgets the request. */
  function Drop(s: State, clear: bool): (t: State)
    ensures SameSizes(s, t)
  {
    if s.operation.Some? && s.operation.value < |s.requests| && clear then
      Put(s, s.operation.value, s.requests[s.operation.value].(args := None)).(operation := None)
    else s.(operation := None)
  }

  function MarkUncertain(r: Request): Request {
    r.(unconfirmed := true, status := Uncertain)
  }

  function Invalidate(s: State): (t: State)
    ensures SameSizes(s, t)
  {
    var next := s.(booting := None, epoch := s.epoch + 1);
    if s.operation.None? || s.operation.value >= |s.requests| then next
    else
      var k, r := s.operation.value, s.requests[s.operation.value];
      if r.phase.Sent? || r.unconfirmed then Put(next, k, MarkUncertain(r))
      else if s.surface.JoinForm? then Drop(next, true)
      else if r.phase.Checking? then Drop(next, false)
      else next
  }

  // ----- reading

  function FailRead(s: State, generation: nat): (t: State)
    ensures SameSizes(s, t)
  {
    if generation != s.epoch then s else Invalidate(s).(ready := false)
  }

  function StartRead(s: State, attempt: Option<nat>, stage: ReadStage): State {
    s.(lookups := s.lookups + [Read(s.epoch, attempt, stage)])
  }

  /** boot of the console and refresh of the join form. */
  function StartBoot(s: State): (t: State)
    ensures Kept(s, t)
  {
    if s.booting.Some? then s
    else
      var next := Invalidate(s);
      StartRead(next.(booting := Some(next.attempts), attempts := next.attempts + 1, ready := false), Some(next.attempts), ReadSession)
  }

  function LoadScope(s: State, tenant: Tenant, selected: Option<Session>): (t: State)
    ensures Kept(s, t)
  {
    var next := Invalidate(s).(currentTenant := tenant, ready := false);
    if tenant == EMPTY_TENANT then next else StartRead(next, None, ReadScope(selected))
  }

  /** Reading submits and sends nothing. */
  predicate Kept(s: State, t: State) {
    |t.requests| == |s.requests| && t.sends == s.sends && |s.lookups| <= |t.lookups|
  }

  /** A read continuation that is over; the boot it belongs to may start again. */
  function EndRead(s: State, n: nat): State
    requires n < |s.lookups|
  {
    var r := s.lookups[n];
    s.(lookups := s.lookups[n := r.(stage := Ended)],
       booting := if r.attempt.Some? && s.booting == r.attempt then None else s.booting)
  }

  function ReadFails(s: State, n: nat): State
    requires n < |s.lookups|
  {
    EndRead(FailRead(s, s.lookups[n].generation), n)
  }

  /** The session was read: a changed one lets the operation go. */
  function Adopt(s: State, found: Session): (t: State)
    ensures SameSizes(s, t)
  {
    var next := if s.currentSession == Some(found) then s
             else Drop(s, true).(busy := false, unavailable := if s.surface.Console? then false else s.unavailable,
                                 currentTenant := if s.surface.Console? then EMPTY_TENANT else s.currentTenant);
    next.(currentSession := Some(found))
  }

  function SessionRead(s: State, n: nat, answer: Answer<Found>): State
    requires n < |s.lookups| && s.lookups[n].stage.ReadSession?
  {
    if s.lookups[n].generation != s.epoch then EndRead(s, n)
    else match answer
      case Good(found) =>
        var same := s.currentSession == Some(found.session);
        var t := Adopt(s, found.session);
        if s.surface.JoinForm? then t.(lookups := t.lookups[n := t.lookups[n].(stage := ReadScope(None))])
        else if found.systemAdmin then t.(lookups := t.lookups[n := t.lookups[n].(stage := ReadTenants(found.session, same))])
        else EndRead(LoadScope(t, found.tenant, Some(found.session)), n)
      case _ => ReadFails(s, n)
  }

  function TenantsRead(s: State, n: nat, answer: Answer<set<Tenant>>): State
    requires n < |s.lookups| && s.lookups[n].stage.ReadTenants?
  {
    var stage := s.lookups[n].stage;
    if s.lookups[n].generation != s.epoch then EndRead(s, n)
    else if answer.Good? then
      var tenant := if stage.same && s.currentTenant in answer.value then s.currentTenant else EMPTY_TENANT;
      EndRead(LoadScope(s, tenant, Some(stage.found)), n)
    else ReadFails(s, n)
  }

  function ScopeRead(s: State, n: nat, answer: Answer<bool>): State
    requires n < |s.lookups| && s.lookups[n].stage.ReadScope?
  {
    var stage := s.lookups[n].stage;
    if s.lookups[n].generation != s.epoch then EndRead(s, n)
    else if s.surface.Console? && answer.Good? && stage.selected != s.currentSession then EndRead(s, n)
    else if answer.Good? then EndRead(s, n).(ready := true)
    else ReadFails(s, n)
  }

  // ----- sending

  function StartSend(s: State, k: nat): State
    requires k < |s.requests|
  {
    if s.operation != Some(k) || s.requests[k].status.Sending? then s
    else
      var t := Put(s, k, s.requests[k].(status := Sending, phase := Checking));
      t.(busy := true, sends := t.sends + [Send(k, t.epoch, AwaitSession)])
  }

  /** mutate and submit */
  function SubmitRequest(s: State, content: nat, key: nat): State {
    if s.operation.Some? || s.unavailable || !s.ready || s.currentSession.None? then s
    else
      var k := |s.requests|;
      var r := Request(key, content, Some(content), s.currentSession.value, s.currentTenant, New, Checking, false);
      StartSend(s.(requests := s.requests + [r], operation := Some(k)), k)
  }

  /** The button of an uncertain request, shown when the page is ready and, in the console, for the request's own tenant. */
  function RetryRequest(s: State): State {
    if s.operation.None? || s.operation.value >= |s.requests| || !s.ready then s
    else
      var k, r := s.operation.value, s.requests[s.operation.value];
      if !r.status.Uncertain? || (s.surface.Console? && r.tenant != s.currentTenant) then s else StartSend(s, k)
  }

  /** The finally block of a send. */
  function FinishSend(s: State, n: nat): State
    requires n < |s.sends| && s.sends[n].request < |s.requests|
  {
    var c := s.sends[n];
    s.(sends := s.sends[n := c.(stage := Finished)],
       busy := if Some(s.requests[c.request].session) == s.currentSession then false else s.busy)
  }

  function Await(s: State, n: nat, stage: SendStage): State
    requires n < |s.sends|
  {
    s.(sends := s.sends[n := s.sends[n].(stage := stage)])
  }

  /** Whether an error leaves open if the server has applied the request. */
  predicate LeavesOpen(surface: Surface, error: Error) {
    match error
    case NoStatus => true
    case Status(code, unavailable) =>
      if surface.Console? then !(code == 503 && unavailable) && (code == 0 || code >= 500 || code == 408)
      else code == 0 || (code >= 500 && !unavailable) || code == 408
  }

  /** The catch block for the request that is still the operation of the current session. */
  function Caught(s: State, k: nat, error: Error): (t: State)
    requires k < |s.requests|
    ensures SameSizes(s, t)
  {
    var r := s.requests[k];
    if r.unconfirmed then Put(s, k, r.(status := Uncertain))
    else if !r.phase.Sent? then Drop(s, s.surface.JoinForm?)
    else if LeavesOpen(s.surface, error) then Put(s, k, MarkUncertain(r))
    else if s.surface.Console? && error == Status(503, true) then Drop(s, false).(unavailable := true)
    else Drop(s, true)
  }

  predicate IsLive(s: State, k: nat) {
    k < |s.requests| && s.operation == Some(k) && Some(s.requests[k].session) == s.currentSession
  }

  function CatchSend(s: State, n: nat, error: Error): State
    requires n < |s.sends| && s.sends[n].request < |s.requests|
  {
    var c := s.sends[n];
    if !IsLive(s, c.request) then FinishSend(s, n)
    else
      var t := Caught(s, c.request, error);
      var denied := error.Status? && (error.code == 401 || error.code == 403);
      FinishSend(if denied then FailRead(t, c.generation) else t, n)
  }

  function Transmit(s: State, n: nat): State
    requires n < |s.sends| && s.sends[n].request < |s.requests|
  {
    var c := s.sends[n];
    var r := s.requests[c.request];
    var t := Put(s, c.request, r.(phase := Sent));
    Await(t.(wire := t.wire + [Transmission(r.key, c.request, r.args, r.session, r.tenant, false)]), n, AwaitReply(|t.wire|))
  }

  function SessionForSending(s: State, n: nat, answer: Answer<Session>): State
    requires n < |s.sends| && s.sends[n].request < |s.requests|
  {
    var c := s.sends[n];
    var r := s.requests[c.request];
    if answer.Failed? then CatchSend(s, n, answer.error)
    else if s.operation != Some(c.request) then FinishSend(s, n)
    else if answer.Invalid? then CatchSend(s, n, Status(401, false))
    else if answer.value != r.session then Await(StartBoot(Drop(s, true)), n, Closing)
    else if c.generation != s.epoch || (s.surface.Console? && r.tenant != s.currentTenant) then FinishSend(s, n)
    else Transmit(s, n)
  }

  function Succeeded(s: State, n: nat): State
    requires n < |s.sends| && s.sends[n].request < |s.requests|
  {
    var c := s.sends[n];
    var k, r := c.request, s.requests[c.request];
    var t := Put(s, k, r.(args := None, phase := Done)).(operation := None);
    if c.generation != s.epoch || (s.surface.Console? && s.currentTenant != r.tenant) then FinishSend(t, n)
    else if s.surface.Console? then Await(LoadScope(t, r.tenant, Some(r.session)), n, Closing)
    else Await(StartBoot(t), n, Closing)
  }

  /** What the server answers only when it will never apply the transmission. */
  predicate Refuses(error: Error) {
    error.Status? && ((1 <= error.code < 500 && error.code != 408) || (error.code >= 500 && error.workflowUnavailable))
  }

  /** The reply to transmission w; a definite refusal means that the server will never apply that transmission. */
  function Replied(s: State, n: nat, w: nat, answer: Answer<bool>): State
    requires n < |s.sends| && s.sends[n].request < |s.requests| && w < |s.wire|
  {
    match answer
    case Good(_) => if IsLive(s, s.sends[n].request) then Succeeded(s, n) else FinishSend(s, n)
    case Invalid =>
      if s.surface.Console? then if IsLive(s, s.sends[n].request) then Succeeded(s, n) else FinishSend(s, n)
      else CatchSend(s, n, NoStatus)
    case Failed(error) =>
      var t := if Refuses(error) then s.(wire := s.wire[w := s.wire[w].(rejected := true)]) else s;
      CatchSend(t, n, error)
  }

  // ----- the server

  predicate AppliedKey(s: State, k: nat) {
    exists i :: 0 <= i < |s.effects| && s.effects[i] < |s.wire| && s.wire[s.effects[i]].key == k
  }

  /** Success means applied, a definite refusal that this transmission is not; any other answer may come either way. */
  predicate Truthful(s: State, w: nat, answer: Answer<bool>)
    requires w < |s.wire|
  {
    match answer
    case Good(_) => AppliedKey(s, s.wire[w].key)
    case Invalid => s.surface.Console? ==> AppliedKey(s, s.wire[w].key)
    case Failed(error) => Refuses(error) ==> w !in s.effects
  }

  /** The server applies a transmission it has not refused, unless its key has been applied before. */
  function TakeUp(s: State, w: nat): State
    requires w < |s.wire|
  {
    if s.wire[w].rejected || AppliedKey(s, s.wire[w].key) then s else s.(effects := s.effects + [w])
  }

  // ----- events

  function Rebuilt(s: State): State {
    State(s.surface, 0, None, 0, None, None, EMPTY_TENANT, false, false, false,
          s.requests, [], [], s.wire, s.effects)
  }

  /** Whether an event can happen now. */
  predicate Enabled(s: State, e: Event) {
    match e
    case SessionForSend(n, _) => n < |s.sends| && s.sends[n].request < |s.requests| && s.sends[n].stage.AwaitSession?
    case Reply(n, answer) => && n < |s.sends| && s.sends[n].request < |s.requests| && s.sends[n].stage.AwaitReply?
                             && s.sends[n].stage.transmission < |s.wire|
                             && Truthful(s, s.sends[n].stage.transmission, answer)
    case EndSend(n) => n < |s.sends| && s.sends[n].request < |s.requests| && s.sends[n].stage.Closing?
    case SessionForRead(n, _) => n < |s.lookups| && s.lookups[n].stage.ReadSession?
    case TenantsForRead(n, _) => n < |s.lookups| && s.lookups[n].stage.ReadTenants?
    case ScopeForRead(n, _) => n < |s.lookups| && s.lookups[n].stage.ReadScope?
    case Apply(w) => w < |s.wire|
    case _ => true
  }

  function Step(s: State, e: Event): State {
    if !Enabled(s, e) then s
    else match e
      case Boot => StartBoot(s)
      case Hide => Invalidate(s).(ready := false)
      case SelectTenant(tenant) => if s.surface.Console? then LoadScope(s, tenant, s.currentSession) else s
      case Submit(content, key) => SubmitRequest(s, content, key)
      case Retry => RetryRequest(s)
      case SessionForSend(n, answer) => SessionForSending(s, n, answer)
      case Reply(n, answer) => Replied(s, n, s.sends[n].stage.transmission, answer)
      case EndSend(n) => FinishSend(s, n)
      case SessionForRead(n, answer) => SessionRead(s, n, answer)
      case TenantsForRead(n, answer) => TenantsRead(s, n, answer)
      case ScopeForRead(n, answer) => ScopeRead(s, n, answer)
      case Apply(w) => TakeUp(s, w)
      case Reload => Rebuilt(s)
  }

  /** The state after a list of events; those that cannot happen change nothing. */
  function Run(s: State, events: seq<Event>): State {
    if events == [] then s
    else
      var last := |events| - 1;
      Step(Run(s, events[..last]), events[last])
  }
}
