/** The desktop shell: session and route epochs decide which late answers may still show a notebook or a list. */
module DesktopShell {

  datatype Option<T> = None | Some(value: T)

  /** A native session as the bridge reports it; only its identity matters here. */
  datatype Session = Session(authenticated: bool, sessionId: nat, workspaceId: nat)

  const NO_SESSION := Session(false, 0, 0)

  /** The route: the home list or one notebook. */
  datatype Route = Home | Selected(notebookId: nat)

  datatype Stage = AwaitList | AwaitNotebook | AwaitContext | AwaitCreated | Over

  /**
   * A request begun by beginNotebookRequest: the epoch and target it noted, the session of the render it belongs to, and,
   * for the proof, the session that was current when it began.
   */
  datatype Request = Request(epoch: nat, target: Route, closure: Session, begunUnder: Session, notebookId: nat,
                             protecting: bool, stage: Stage)

  /** A revalidation and what it noted. */
  datatype Protection = Protection(epoch: nat, closure: Session, route: Route, over: bool)

  /** A notebook on the screen, the request that brought it, and the session and workspace it was fetched for. */
  datatype Shown = Shown(request: nat, notebookId: nat, sessionId: nat, workspaceId: nat)

  /** The home list, and the request whose answer it shows; none while it is loading. */
  datatype List = List(answered: Option<nat>, notebooks: seq<Shown>)

  const LOADING := List(None, [])

  datatype State = State(
    mounted: bool, requestEpoch: nat, protectionEpoch: nat, desired: Route, route: Route, current: Session, native: Session,
    rendered: Session, selected: Option<Shown>, home: List,
    requests: seq<Request>, protections: seq<Protection>)

  datatype Event =
    | Status(session: Session)                       // a report of the session bridge
    | Render                                         // callbacks now see the native session
    | GoHome
    | Open(notebookId: nat)
    | Navigate(route: Route)                         // the address changes by itself
    | Revalidate                                     // popstate, hashchange, or a page shown again
    | StatusForProtection(protection: nat, status: Option<Session>)
    | PageHide
    | ListReply(request: nat, list: Option<seq<nat>>)
    | NotebookReply(request: nat, ok: bool)
    | ContextReply(request: nat, ok: bool)
    | CreateNotebook
    | CreatedReply(request: nat, notebook: Option<nat>)
    | Logout
    | Unmount

  // ----- sessions

  function Identity(s: Session): Session {
    if s.authenticated then s else NO_SESSION
  }

  /** applyNativeSession, up to its await: another identity starts new epochs and leaves the notebook. */
  function Apply(s: State, status: Session): State {
    var changed := s.current != status;
    var t := if changed then
               s.(requestEpoch := s.requestEpoch + 1, protectionEpoch := s.protectionEpoch + 1, desired := Home, route := Home,
                  selected := None)
             else s;
    t.(current := status, native := status)
  }

  // ----- requests

  function BeginRequest(s: State, target: Route, closure: Session, notebookId: nat, protecting: bool, stage: Stage): State {
    s.(requestEpoch := s.requestEpoch + 1, desired := target,
       requests := s.requests + [Request(s.requestEpoch + 1, target, closure, s.current, notebookId, protecting, stage)])
  }

  /** isNotebookRequestCurrent */
  predicate IsCurrent(s: State, r: Request) {
    && s.mounted && s.requestEpoch == r.epoch && s.desired == r.target && s.current.authenticated
    && s.current.sessionId == r.closure.sessionId && s.current.workspaceId == r.closure.workspaceId
  }

  function End(s: State, n: nat, stage: Stage): State
    requires n < |s.requests|
  {
    s.(requests := s.requests[n := s.requests[n].(stage := stage)])
  }

  /** loadHome; a revalidation passes its protection request, so that it does not end itself. */
  function LoadHome(s: State, closure: Session, protecting: bool): State {
    var t := if protecting then s else s.(protectionEpoch := s.protectionEpoch + 1);
    var begun := BeginRequest(t, Home, closure, 0, protecting, if closure.authenticated then AwaitList else Over)
                 .(selected := None, route := Home);
    if closure.authenticated then begun.(home := LOADING) else begun
  }

  function OpenNotebook(s: State, closure: Session, notebookId: nat, protecting: bool): State {
    if !closure.authenticated then s
    else
      BeginRequest(if protecting then s else s.(protectionEpoch := s.protectionEpoch + 1),
                   Selected(notebookId), closure, notebookId, protecting, AwaitNotebook)
  }

  function ShownFor(s: State, n: nat, notebookId: nat): Shown
    requires n < |s.requests|
  {
    Shown(n, notebookId, s.requests[n].closure.sessionId, s.requests[n].closure.workspaceId)
  }

  /** The list, or an error with nothing in it. */
  function Fetched(s: State, n: nat, list: Option<seq<nat>>): List
    requires n < |s.requests|
  {
    List(Some(n), if list.Some? then seq(|list.value|, i requires 0 <= i < |list.value| => ShownFor(s, n, list.value[i])) else [])
  }

  function ListReplied(s: State, n: nat, list: Option<seq<nat>>): State
    requires n < |s.requests|
  {
    var over := End(s, n, Over);
    if IsCurrent(s, s.requests[n]) then over.(home := Fetched(s, n, list)) else over
  }

  /** A failing or mismatching answer goes home, if the request still is the current one. */
  function OpenFails(s: State, n: nat): State
    requires n < |s.requests|
  {
    var over := End(s, n, Over);
    if IsCurrent(s, s.requests[n]) then LoadHome(over, s.requests[n].closure, s.requests[n].protecting) else over
  }

  function NotebookReplied(s: State, n: nat, ok: bool): State
    requires n < |s.requests|
  {
    if !ok then OpenFails(s, n)
    else if IsCurrent(s, s.requests[n]) then End(s, n, AwaitContext)
    else End(s, n, Over)
  }

  function ContextReplied(s: State, n: nat, ok: bool): State
    requires n < |s.requests|
  {
    if !ok then OpenFails(s, n)
    else if !IsCurrent(s, s.requests[n]) then End(s, n, Over)
    else End(s, n, Over).(selected := Some(ShownFor(s, n, s.requests[n].notebookId)), route := s.requests[n].target)
  }

  /** The list without one notebook. */
  function Without(notebooks: seq<Shown>, id: nat): (r: seq<Shown>)
    ensures forall x :: x in r ==> x in notebooks && x.notebookId != id
  {
    if notebooks == [] then []
    else if notebooks[0].notebookId == id then Without(notebooks[1..], id)
    else [notebooks[0]] + Without(notebooks[1..], id)
  }

  /** createNotebook, after the answer: the notebook comes first, whatever the list shows. */
  function CreatedReplied(s: State, n: nat, notebook: Option<nat>): State
    requires n < |s.requests|
  {
    var over := End(s, n, Over);
    if notebook.None? || !IsCurrent(s, s.requests[n]) then over
    else
      var created := ShownFor(s, n, notebook.value);
      over.(home := s.home.(notebooks := [created] + Without(s.home.notebooks, notebook.value)))
  }

  // ----- revalidation

  function BeginRevalidation(s: State): State {
    s.(protectionEpoch := s.protectionEpoch + 1, requestEpoch := s.requestEpoch + 1, desired := s.route,
       protections := s.protections + [Protection(s.protectionEpoch + 1, s.rendered, s.route, false)])
  }

  predicate IsProtecting(s: State, p: Protection) {
    && s.mounted && s.protectionEpoch == p.epoch && s.current.authenticated && s.route == p.route
    && s.current.sessionId == p.closure.sessionId && s.current.workspaceId == p.closure.workspaceId
  }

  function EndProtection(s: State, n: nat): State
    requires n < |s.protections|
  {
    s.(protections := s.protections[n := s.protections[n].(over := true)])
  }

  function Revalidated(s: State, n: nat, status: Option<Session>): State
    requires n < |s.protections|
  {
    var p := s.protections[n];
    if !IsProtecting(s, p) then EndProtection(s, n)
    else if status.None? then EndProtection(Apply(s, NO_SESSION), n)
    else if status.value != p.closure then EndProtection(Apply(s, status.value), n)
    else if p.route.Selected? then EndProtection(OpenNotebook(s, p.closure, p.route.notebookId, true), n)
    else EndProtection(LoadHome(s, p.closure, true), n)
  }

  predicate Enabled(s: State, e: Event) {
    match e
    case StatusForProtection(n, _) => n < |s.protections| && !s.protections[n].over
    case ListReply(n, _) => n < |s.requests| && s.requests[n].stage.AwaitList?
    case NotebookReply(n, _) => n < |s.requests| && s.requests[n].stage.AwaitNotebook?
    case ContextReply(n, _) => n < |s.requests| && s.requests[n].stage.AwaitContext?
    case CreatedReply(n, _) => n < |s.requests| && s.requests[n].stage.AwaitCreated?
    case _ => true
  }

  function Step(s: State, e: Event): State {
    if !Enabled(s, e) then s
    else match e
      case Status(session) => Apply(s, Identity(session))
      case Render => s.(rendered := s.native)
      case GoHome => LoadHome(s, s.rendered, false)
      case Open(id) => OpenNotebook(s, s.rendered, id, false)
      case Navigate(route) => s.(route := route)
      case Revalidate => BeginRevalidation(s)
      case StatusForProtection(n, status) => Revalidated(s, n, if status.Some? then Some(Identity(status.value)) else None)
      case PageHide => s.(requestEpoch := s.requestEpoch + 1, protectionEpoch := s.protectionEpoch + 1)
      case ListReply(n, list) => ListReplied(s, n, list)
      case NotebookReply(n, ok) => NotebookReplied(s, n, ok)
      case ContextReply(n, ok) => ContextReplied(s, n, ok)
      case CreateNotebook => BeginRequest(s, s.desired, s.rendered, 0, false, AwaitCreated)
      case CreatedReply(n, notebook) => CreatedReplied(s, n, notebook)
      case Logout => Apply(s.(requestEpoch := s.requestEpoch + 1, protectionEpoch := s.protectionEpoch + 1, desired := Home,
                              selected := None), NO_SESSION)
      case Unmount => s.(mounted := false, requestEpoch := s.requestEpoch + 1, protectionEpoch := s.protectionEpoch + 1)
  }

  function Run(s: State, events: seq<Event>): State {
    if events == [] then s
    else
      var last := |events| - 1;
      Step(Run(s, events[..last]), events[last])
  }

  const START := State(true, 0, 0, Home, Home, NO_SESSION, NO_SESSION, NO_SESSION, None, LOADING, [], [])

  // ----- what every run keeps

  /** A shown notebook belongs to the current session and workspace. */
  predicate SelectedRight(s: State) {
    s.selected.Some? ==>
      && s.current.authenticated && s.selected.value.sessionId == s.current.sessionId
      && s.selected.value.workspaceId == s.current.workspaceId
  }

  /** A request of the current epoch began under the session that still is the current one. */
  predicate RequestsRight(s: State) {
    forall n :: 0 <= n < |s.requests| ==>
      s.requests[n].epoch <= s.requestEpoch && (s.requests[n].epoch == s.requestEpoch ==> s.requests[n].begunUnder == s.current)
  }

  /** Every request has an epoch of its own. */
  predicate RequestsOrdered(s: State) {
    forall m, n :: 0 <= m < n < |s.requests| ==> s.requests[m].epoch < s.requests[n].epoch
  }

  /** What is on the screen came with a request that is over, for the session and workspace of that request. */
  predicate CameWith(s: State, x: Shown) {
    && x.request < |s.requests| && s.requests[x.request].stage.Over?
    && x.sessionId == s.requests[x.request].closure.sessionId && x.workspaceId == s.requests[x.request].closure.workspaceId
  }

  predicate ShownRight(s: State) {
    && (s.selected.Some? ==> CameWith(s, s.selected.value))
    && (forall i :: 0 <= i < |s.home.notebooks| ==> CameWith(s, s.home.notebooks[i]))
    && (s.home.answered.Some? ==> s.home.answered.value < |s.requests| && s.requests[s.home.answered.value].stage.Over?)
  }

  predicate Invariant(s: State) {
    SelectedRight(s) && RequestsRight(s) && RequestsOrdered(s) && ShownRight(s)
  }

  lemma EndKeeps(s: State, n: nat, stage: Stage)
    requires Invariant(s) && n < |s.requests| && !s.requests[n].stage.Over?
    ensures Invariant(End(s, n, stage))
  {
  }

  lemma BeginKeeps(s: State, target: Route, closure: Session, notebookId: nat, protecting: bool, stage: Stage)
    requires Invariant(s)
    ensures Invariant(BeginRequest(s, target, closure, notebookId, protecting, stage))
  {
  }

  /** Whatever moves to later epochs may leave the notebook and change the rest of the page. */
  lemma LaterKeeps(s: State, t: State)
    requires Invariant(s) && t.requests == s.requests && t.requestEpoch >= s.requestEpoch
    requires t.requestEpoch > s.requestEpoch || t.current == s.current
    requires t.selected.None? || (t.selected == s.selected && t.current == s.current)
    requires t.home == s.home
    ensures Invariant(t)
  {
  }

  lemma LoadHomeKeeps(s: State, closure: Session, protecting: bool)
    requires Invariant(s)
    ensures Invariant(LoadHome(s, closure, protecting))
  {
  }

  lemma OpenKeeps(s: State, closure: Session, notebookId: nat, protecting: bool)
    requires Invariant(s)
    ensures Invariant(OpenNotebook(s, closure, notebookId, protecting))
  {
  }

  lemma OpenFailsKeeps(s: State, n: nat)
    requires Invariant(s) && n < |s.requests| && !s.requests[n].stage.Over?
    ensures Invariant(OpenFails(s, n))
  {
    hide Invariant, LoadHome;
    EndKeeps(s, n, Over);
    LoadHomeKeeps(End(s, n, Over), s.requests[n].closure, s.requests[n].protecting);
  }

  lemma ContextKeeps(s: State, n: nat, ok: bool)
    requires Invariant(s) && n < |s.requests| && !s.requests[n].stage.Over?
    ensures Invariant(ContextReplied(s, n, ok))
  {
    OpenFailsKeeps(s, n);
    EndKeeps(s, n, Over);
    hide OpenFails, RequestsRight, RequestsOrdered;
  }

  lemma ListKeeps(s: State, n: nat, list: Option<seq<nat>>)
    requires Invariant(s) && n < |s.requests| && !s.requests[n].stage.Over?
    ensures Invariant(ListReplied(s, n, list))
  {
    EndKeeps(s, n, Over);
    hide RequestsRight, RequestsOrdered, SelectedRight;
  }

  lemma CreatedKeeps(s: State, n: nat, notebook: Option<nat>)
    requires Invariant(s) && n < |s.requests| && !s.requests[n].stage.Over?
    ensures Invariant(CreatedReplied(s, n, notebook))
  {
    EndKeeps(s, n, Over);
    hide RequestsRight, RequestsOrdered, SelectedRight, Without;
    var over := End(s, n, Over);
    assert forall x :: x in over.home.notebooks ==> CameWith(over, x);
  }

  lemma ApplyKeeps(s: State, status: Session)
    requires Invariant(s)
    ensures Invariant(Apply(s, status))
  {
  }

  lemma RevalidatedKeeps(s: State, n: nat, status: Option<Session>)
    requires Invariant(s) && n < |s.protections|
    ensures Invariant(Revalidated(s, n, status))
  {
    var p, t := s.protections[n], Revalidated(s, n, status);
    hide Invariant, Apply, OpenNotebook, LoadHome, IsProtecting;
    LaterKeeps(s, EndProtection(s, n));
    var next := Decided(s, p, status);
    ApplyKeeps(s, if status.Some? then status.value else NO_SESSION);
    OpenKeeps(s, p.closure, if p.route.Selected? then p.route.notebookId else 0, true);
    LoadHomeKeeps(s, p.closure, true);
    ProtectionsStay(s, p, status);
    LaterKeeps(next, EndProtection(next, n));
  }

  /** What a revalidation does with the status it has read. */
  function Decided(s: State, p: Protection, status: Option<Session>): State {
    if status.None? then Apply(s, NO_SESSION)
    else if status.value != p.closure then Apply(s, status.value)
    else if p.route.Selected? then OpenNotebook(s, p.closure, p.route.notebookId, true)
    else LoadHome(s, p.closure, true)
  }

  lemma ProtectionsStay(s: State, p: Protection, status: Option<Session>)
    ensures Decided(s, p, status).protections == s.protections
  {
  }

  lemma StepKeeps(s: State, e: Event)
    requires Invariant(s)
    ensures Invariant(Step(s, e))
  {
    hide Invariant, Apply, OpenNotebook, LoadHome, Revalidated, ContextReplied, OpenFails, BeginRequest, IsCurrent,
      ListReplied, CreatedReplied;
    if Enabled(s, e) {
      match e {
        case Status(session) => ApplyKeeps(s, Identity(session));
        case GoHome => LoadHomeKeeps(s, s.rendered, false);
        case Open(id) => OpenKeeps(s, s.rendered, id, false);
        case StatusForProtection(n, status) =>
          RevalidatedKeeps(s, n, if status.Some? then Some(Identity(status.value)) else None);
        case NotebookReply(n, ok) => OpenFailsKeeps(s, n); EndKeeps(s, n, AwaitContext); EndKeeps(s, n, Over);
        case ContextReply(n, ok) => ContextKeeps(s, n, ok);
        case ListReply(n, list) => ListKeeps(s, n, list);
        case CreatedReply(n, notebook) => CreatedKeeps(s, n, notebook);
        case CreateNotebook => BeginKeeps(s, s.desired, s.rendered, 0, false, AwaitCreated);
        case Logout =>
          var t := s.(requestEpoch := s.requestEpoch + 1, protectionEpoch := s.protectionEpoch + 1, desired := Home, selected := None);
          LaterKeeps(s, t);
          ApplyKeeps(t, NO_SESSION);
        case Render => LaterKeeps(s, Step(s, e));
        case Navigate(route) => LaterKeeps(s, Step(s, e));
        case Revalidate => LaterKeeps(s, Step(s, e));
        case PageHide => LaterKeeps(s, Step(s, e));
        case Unmount => LaterKeeps(s, Step(s, e));
      }
    }
  }

  lemma {:induction false} RunKeeps(events: seq<Event>)
    ensures Invariant(Run(START, events))
    decreases |events|
  {
    if events != [] {
      hide Invariant, Step;
      var last := |events| - 1;
      RunKeeps(events[..last]);
      StepKeeps(Run(START, events[..last]), events[last]);
    }
  }

  // ----- what that means

  /** Main result: a shown notebook always belongs to the current session and workspace. */
  lemma {:induction false} ShownNotebookIsCurrent(events: seq<Event>)
    ensures SelectedRight(Run(START, events))
  {
    RunKeeps(events);
    hide Run, SelectedRight, RequestsRight, RequestsOrdered, ShownRight;
  }

  predicate Brought(notebooks: seq<Shown>, n: nat) {
    exists i :: 0 <= i < |notebooks| && notebooks[i].request == n
  }

  /** A step puts on the screen what request n brought: a notebook, a list, or a notebook in the list. */
  predicate Installs(s: State, t: State, n: nat) {
    || (t.selected.Some? && t.selected.value.request == n && !(s.selected.Some? && s.selected.value.request == n))
    || (t.home.answered == Some(n) && s.home.answered != Some(n))
    || (Brought(t.home.notebooks, n) && !Brought(s.home.notebooks, n))
  }

  /** The event answers request n, not with a failure to open or create. */
  predicate Answers(s: State, e: Event, n: nat) {
    && Enabled(s, e)
    && match e
       case ListReply(k, _) => k == n
       case ContextReply(k, ok) => k == n && ok
       case CreatedReply(k, notebook) => k == n && notebook.Some?
       case _ => false
  }

  /** The latest request, begun under the session that is current, and still for the route that is wanted. */
  predicate IsLatest(s: State, n: nat) {
    && n < |s.requests| && s.requests[n].epoch == s.requestEpoch && s.requests[n].begunUnder == s.current
    && (forall k :: 0 <= k < |s.requests| && k != n ==> s.requests[k].epoch < s.requests[n].epoch)
    && s.mounted && s.current.authenticated && s.desired == s.requests[n].target
    && s.requests[n].closure.sessionId == s.current.sessionId && s.requests[n].closure.workspaceId == s.current.workspaceId
  }

  /**
   * Main result: a step shows what request n brought exactly if it answers n and n is the latest request, begun under the
   * very session that is current; nothing begun before a change of session, even one and back, is ever shown.
   */
  lemma OnlyTheLatestInstalls(s: State, e: Event, n: nat)
    requires Invariant(s)
    ensures Installs(s, Step(s, e), n) <==> Answers(s, e, n) && IsLatest(s, n)
  {
    hide Invariant, Installs, Step, IsLatest;
    if Installs(s, Step(s, e), n) {
      InstallsByReply(s, e, n);
      CurrentIsLatest(s, n);
    }
    if Answers(s, e, n) && IsLatest(s, n) {
      LatestInstalls(s, e, n);
    }
  }

  lemma CurrentIsLatest(s: State, n: nat)
    requires Invariant(s) && n < |s.requests| && IsCurrent(s, s.requests[n])
    ensures IsLatest(s, n)
  {
    hide SelectedRight, ShownRight;
  }

  lemma LatestInstalls(s: State, e: Event, n: nat)
    requires Invariant(s) && Answers(s, e, n) && IsLatest(s, n)
    ensures Installs(s, Step(s, e), n)
  {
    hide RequestsRight, RequestsOrdered, SelectedRight, Without;
    if e.CreatedReply? {
      var t := Step(s, e);
      assert t.home.notebooks[0].request == n;
    }
  }

  lemma InstallsByReply(s: State, e: Event, n: nat)
    requires Installs(s, Step(s, e), n)
    ensures Answers(s, e, n) && IsCurrent(s, s.requests[n])
  {
    hide IsCurrent, LoadHome, OpenNotebook, Apply, Revalidated, Brought, Installs, ListReplied, ContextReplied, NotebookReplied,
      CreatedReplied, BeginRequest;
    if Enabled(s, e) {
      match e {
        case ListReply(k, list) => ListInstalls(s, k, list, n);
        case ContextReply(k, ok) => ContextInstalls(s, k, ok, n);
        case NotebookReply(k, ok) => NotebookInstalls(s, k, ok, n);
        case CreatedReply(k, notebook) => CreatedInstalls(s, k, notebook, n);
        case StatusForProtection(k, status) =>
          RevalidationClears(s, k, if status.Some? then Some(Identity(status.value)) else None);
        case Status(session) => ApplyClears(s, Identity(session));
        case GoHome => HomeClears(s, s.rendered, false);
        case Open(id) => OpenClears(s, s.rendered, id, false);
        case CreateNotebook => BeginClears(s, s.desired, s.rendered, 0, false, AwaitCreated);
        case Logout => ApplyClears(s.(requestEpoch := s.requestEpoch + 1, protectionEpoch := s.protectionEpoch + 1, desired := Home,
                                      selected := None), NO_SESSION);
        case Render =>
        case Navigate(route) =>
        case Revalidate =>
        case PageHide =>
        case Unmount =>
      }
      if Clears(s, Step(s, e)) {
        ClearingInstallsNothing(s, Step(s, e), n);
      }
    } else {
      ClearingInstallsNothing(s, s, n);
    }
  }

  /** What is on the screen stays or goes. */
  predicate Clears(s: State, t: State) {
    (t.selected.None? || t.selected == s.selected) && (t.home == LOADING || t.home == s.home)
  }

  lemma ClearingInstallsNothing(s: State, t: State, n: nat)
    requires Clears(s, t)
    ensures !Installs(s, t, n)
  {
  }

  lemma BeginClears(s: State, target: Route, closure: Session, notebookId: nat, protecting: bool, stage: Stage)
    ensures Clears(s, BeginRequest(s, target, closure, notebookId, protecting, stage))
  {
  }

  lemma HomeClears(s: State, closure: Session, protecting: bool)
    ensures Clears(s, LoadHome(s, closure, protecting))
  {
  }

  lemma OpenClears(s: State, closure: Session, id: nat, protecting: bool)
    ensures Clears(s, OpenNotebook(s, closure, id, protecting))
  {
  }

  lemma ApplyClears(s: State, status: Session)
    ensures Clears(s, Apply(s, status))
  {
  }

  lemma RevalidationClears(s: State, n: nat, status: Option<Session>)
    requires n < |s.protections|
    ensures Clears(s, Revalidated(s, n, status))
  {
  }

  lemma ListInstalls(s: State, k: nat, list: Option<seq<nat>>, n: nat)
    requires k < |s.requests|
    ensures Installs(s, ListReplied(s, k, list), n) ==> k == n && IsCurrent(s, s.requests[k])
  {
    hide IsCurrent;
  }

  lemma ContextInstalls(s: State, k: nat, ok: bool, n: nat)
    requires k < |s.requests|
    ensures Installs(s, ContextReplied(s, k, ok), n) ==> k == n && ok && IsCurrent(s, s.requests[k])
  {
    hide IsCurrent;
  }

  lemma NotebookInstalls(s: State, k: nat, ok: bool, n: nat)
    requires k < |s.requests|
    ensures !Installs(s, NotebookReplied(s, k, ok), n)
  {
    hide IsCurrent;
  }

  lemma CreatedInstalls(s: State, k: nat, notebook: Option<nat>, n: nat)
    requires k < |s.requests|
    ensures Installs(s, CreatedReplied(s, k, notebook), n) ==> k == n && notebook.Some? && IsCurrent(s, s.requests[k])
  {
    hide IsCurrent, Without;
    if IsCurrent(s, s.requests[k]) && notebook.Some? && k != n && Brought(CreatedReplied(s, k, notebook).home.notebooks, n) {
      StillBrought(s.home.notebooks, notebook.value, ShownFor(s, k, notebook.value), n);
    }
  }

  lemma StillBrought(notebooks: seq<Shown>, id: nat, created: Shown, n: nat)
    requires Brought([created] + Without(notebooks, id), n) && created.request != n
    ensures Brought(notebooks, n)
  {
    hide Without;
    var rest := Without(notebooks, id);
    var i :| 0 <= i < |[created] + rest| && ([created] + rest)[i].request == n;
    assert rest[i - 1] in notebooks;
  }

  /** Epochs only grow, and a request keeps its own. */
  predicate Ages(s: State, t: State) {
    && |s.requests| <= |t.requests| && s.requestEpoch <= t.requestEpoch
    && forall n :: 0 <= n < |s.requests| ==> t.requests[n].epoch == s.requests[n].epoch
  }

  lemma PiecesAge(s: State, closure: Session, id: nat, protecting: bool, status: Session)
    ensures Ages(s, LoadHome(s, closure, protecting)) && Ages(s, OpenNotebook(s, closure, id, protecting)) && Ages(s, Apply(s, status))
  {
  }

  lemma RepliesAge(s: State, n: nat, ok: bool)
    requires n < |s.requests|
    ensures Ages(s, NotebookReplied(s, n, ok)) && Ages(s, ContextReplied(s, n, ok))
  {
  }

  lemma ListsAge(s: State, n: nat, list: Option<seq<nat>>, notebook: Option<nat>)
    requires n < |s.requests|
    ensures Ages(s, ListReplied(s, n, list)) && Ages(s, CreatedReplied(s, n, notebook))
  {
    hide IsCurrent, Without, Fetched;
  }

  /** Nothing that a request notes changes with the epochs moving on. */
  lemma EpochsAge(s: State, t: State)
    requires t.requests == s.requests && s.requestEpoch <= t.requestEpoch
    ensures Ages(s, t)
  {
  }

  lemma StepAges(s: State, e: Event)
    ensures Ages(s, Step(s, e))
  {
    PiecesAge(s, s.rendered, if e.Open? then e.notebookId else 0, false, if e.Status? then Identity(e.session) else NO_SESSION);
    hide LoadHome, OpenNotebook, Apply, NotebookReplied, ContextReplied, ListReplied, CreatedReplied, IsCurrent,
      Revalidated, Identity, Ages, BeginRequest;
    EpochsAge(s, s);
    if Enabled(s, e) {
      match e {
        case NotebookReply(n, ok) => RepliesAge(s, n, ok);
        case ContextReply(n, ok) => RepliesAge(s, n, ok);
        case StatusForProtection(n, status) =>
          RevalidatedAges(s, n, if status.Some? then Some(Identity(status.value)) else None);
        case Logout =>
          LogoutAges(s);
        case CreateNotebook => BeginAges(s, s.desired, s.rendered, 0, false, AwaitCreated);
        case ListReply(n, list) => ListsAge(s, n, list, None);
        case CreatedReply(n, notebook) => ListsAge(s, n, None, notebook);
        case Status(session) =>
        case Render => EpochsAge(s, Step(s, e));
        case GoHome =>
        case Open(id) =>
        case Navigate(route) => EpochsAge(s, Step(s, e));
        case Revalidate => EpochsAge(s, Step(s, e));
        case PageHide => EpochsAge(s, Step(s, e));
        case Unmount => EpochsAge(s, Step(s, e));
      }
    }
  }

  lemma LogoutAges(s: State)
    ensures Ages(s, Step(s, Logout))
  {
  }

  lemma BeginAges(s: State, target: Route, closure: Session, notebookId: nat, protecting: bool, stage: Stage)
    ensures Ages(s, BeginRequest(s, target, closure, notebookId, protecting, stage))
  {
  }

  lemma RevalidatedAges(s: State, n: nat, status: Option<Session>)
    requires n < |s.protections|
    ensures Ages(s, Revalidated(s, n, status))
  {
  }

  /** What was begun in an earlier epoch is stale for good, whatever sessions come and go. */
  lemma {:induction false} OldRequestsStayStale(s: State, events: seq<Event>, n: nat)
    requires n < |s.requests| && s.requests[n].epoch < s.requestEpoch
    ensures var t := Run(s, events); n < |t.requests| && t.requests[n].epoch < t.requestEpoch && !IsCurrent(t, t.requests[n])
    decreases |events|
  {
    hide Step;
    if events != [] {
      var last := |events| - 1;
      OldRequestsStayStale(s, events[..last], n);
      StepAges(Run(s, events[..last]), events[last]);
    }
  }

  /** A change of identity makes every request so far stale for good. */
  lemma IdentityChangeEndsRequests(s: State, status: Session, events: seq<Event>, n: nat)
    requires Invariant(s) && s.current != status && n < |s.requests|
    ensures var t := Run(Apply(s, status), events); n < |t.requests| && !IsCurrent(t, t.requests[n])
  {
    OldRequestsStayStale(Apply(s, status), events, n);
    hide Run, IsCurrent, SelectedRight, RequestsOrdered, ShownRight;
  }

  /**
   * Main result: what was begun before a change of identity is never put on the screen after it, though the first session
   * come back.
   */
  lemma NothingOldInstalls(s: State, status: Session, events: seq<Event>, e: Event, n: nat)
    requires Invariant(s) && s.current != status && n < |s.requests|
    ensures var t := Run(Apply(s, status), events); !Installs(t, Step(t, e), n)
  {
    IdentityChangeEndsRequests(s, status, events, n);
    hide Run, Step, Installs, IsCurrent, Apply, Invariant;
    var t := Run(Apply(s, status), events);
    if Installs(t, Step(t, e), n) {
      InstallsByReply(t, e, n);
    }
  }

  // ----- the home list

  /** Every notebook of the list belongs to the current session and workspace. */
  predicate HomeRight(s: State) {
    forall i :: 0 <= i < |s.home.notebooks| ==>
      s.home.notebooks[i].sessionId == s.current.sessionId && s.home.notebooks[i].workspaceId == s.current.workspaceId
  }

  predicate SamePlace(x: Session, y: Session) {
    x.sessionId == y.sessionId && x.workspaceId == y.workspaceId
  }

  /**
   * A change of session leaves the list as it is until home is loaded again: a list that belongs to the current session and
   * workspace goes on doing so exactly if these stay or it is empty.
   */
  lemma HomeStaysRightExactlyWhen(s: State, e: Event)
    requires HomeRight(s)
    ensures var t := Step(s, e); HomeRight(t) <==> SamePlace(s.current, t.current) || t.home.notebooks == []
  {
    hide HomeRight, IsCurrent, LoadHome, OpenNotebook, Apply, Revalidated, ListReplied, ContextReplied, NotebookReplied,
      CreatedReplied, BeginRequest;
    if !Enabled(s, e) {
      KeptList(s, s);
    } else if e.ListReply? {
      ListStaysRight(s, e.request, e.list);
    } else if e.CreatedReply? {
      CreatedStaysRight(s, e.request, e.notebook);
    } else {
      OthersClear(s, e);
      KeptList(s, Step(s, e));
    }
  }

  lemma OthersClear(s: State, e: Event)
    requires !e.ListReply? && !e.CreatedReply?
    ensures Step(s, e).home == LOADING || Step(s, e).home == s.home
  {
    hide IsCurrent;
  }

  lemma KeptList(s: State, t: State)
    requires HomeRight(s) && (t.home == LOADING || t.home == s.home)
    ensures HomeRight(t) <==> SamePlace(s.current, t.current) || t.home.notebooks == []
  {
    if t.home.notebooks != [] && HomeRight(t) {
      assert t.home.notebooks[0].sessionId == s.current.sessionId;
    }
  }

  lemma ListStaysRight(s: State, n: nat, list: Option<seq<nat>>)
    requires HomeRight(s) && n < |s.requests|
    ensures var t := ListReplied(s, n, list); HomeRight(t) && t.current == s.current
  {
  }

  lemma CreatedStaysRight(s: State, n: nat, notebook: Option<nat>)
    requires HomeRight(s) && n < |s.requests|
    ensures var t := CreatedReplied(s, n, notebook); HomeRight(t) && t.current == s.current
  {
    hide Without;
    assert forall x :: x in s.home.notebooks ==> x.sessionId == s.current.sessionId && x.workspaceId == s.current.workspaceId;
  }

  /** The list of one session is still there when another has come. */
  lemma ListOutlivesSession(a: Session, b: Session, id: nat)
    requires a.authenticated && b.authenticated && !SamePlace(a, b)
    ensures var t := Run(START, [Status(a), Render, GoHome, ListReply(0, Some([id])), Status(b)]);
            t.current == b && t.home.notebooks == [Shown(0, id, a.sessionId, a.workspaceId)] && !HomeRight(t)
  {
    RunFive(Status(a), Render, GoHome, ListReply(0, Some([id])), Status(b));
    hide Run, HomeRight;
    var s3 := Step(Step(Step(START, Status(a)), Render), GoHome);
    assert s3.requests == [Request(s3.requestEpoch, Home, a, a, 0, false, AwaitList)] && s3.current == a;
    var s4 := Step(s3, ListReply(0, Some([id])));
    assert s4.home.notebooks == [Shown(0, id, a.sessionId, a.workspaceId)];
    Elsewhere(Step(s4, Status(b)));
  }

  lemma Elsewhere(s: State)
    requires s.home.notebooks != []
    requires s.home.notebooks[0].sessionId != s.current.sessionId || s.home.notebooks[0].workspaceId != s.current.workspaceId
    ensures !HomeRight(s)
  {
  }

  lemma RunFive(e1: Event, e2: Event, e3: Event, e4: Event, e5: Event)
    ensures Run(START, [e1, e2, e3, e4, e5]) == Step(Step(Step(Step(Step(START, e1), e2), e3), e4), e5)
  {
    hide Step;
    var all := [e1, e2, e3, e4, e5];
    assert all[..4] == [e1, e2, e3, e4] && all[..4][..3] == [e1, e2, e3] && all[..4][..3][..2] == [e1, e2];
    assert [e1, e2][..1] == [e1] && [e1][..0] == [];
    assert Run(START, [e1]) == Step(START, e1);
    assert Run(START, [e1, e2]) == Step(Step(START, e1), e2);
    assert Run(START, [e1, e2, e3]) == Step(Step(Step(START, e1), e2), e3);
    assert Run(START, [e1, e2, e3, e4]) == Step(Step(Step(Step(START, e1), e2), e3), e4);
  }
}
