/** The desktop shell as it works: epochs, the desired route and the current session as references. */
module DesktopShellPage {
  import opened DesktopShell

  class Shell {
    var mounted: bool
    var requestEpoch: nat
    var protectionEpoch: nat
    var desired: Route
    var route: Route
    var current: Session
    var native: Session
    var rendered: Session
    var selected: Option<Shown>
    var home: List
    var requests: seq<Request>
    var protections: seq<Protection>

    constructor ()
      ensures Now() == START
    {
      mounted, requestEpoch, protectionEpoch, desired, route := true, 0, 0, Home, Home;
      current, native, rendered := NO_SESSION, NO_SESSION, NO_SESSION;
      selected, home, requests, protections := None, LOADING, [], [];
    }

    ghost function Now(): State
      reads this
    {
      State(mounted, requestEpoch, protectionEpoch, desired, route, current, native, rendered, selected, home, requests, protections)
    }

    /** applyNativeSession, up to its await */
    method ApplySession(status: Session)
      modifies this`requestEpoch, this`protectionEpoch, this`desired, this`route, this`selected, this`current, this`native
      ensures Now() == Apply(old(Now()), status)
    {
      if current != status {
        requestEpoch := requestEpoch + 1;
        protectionEpoch := protectionEpoch + 1;
        desired := Home;
        selected := None;
        route := Home;
      }
      current := status;
      native := status;
    }

    method BeginNotebookRequest(target: Route, closure: Session, notebookId: nat, protecting: bool, stage: Stage)
      modifies this`requestEpoch, this`desired, this`requests
      ensures Now() == BeginRequest(old(Now()), target, closure, notebookId, protecting, stage)
    {
      requestEpoch := requestEpoch + 1;
      desired := target;
      requests := requests + [Request(requestEpoch, target, closure, current, notebookId, protecting, stage)];
    }

    method EndRequest(n: nat, stage: Stage)
      requires n < |requests|
      modifies this`requests
      ensures Now() == End(old(Now()), n, stage)
    {
      requests := requests[n := requests[n].(stage := stage)];
    }

    method GoHome(closure: Session, protecting: bool)
      modifies this`requestEpoch, this`protectionEpoch, this`desired, this`requests, this`selected, this`route, this`home
      ensures Now() == LoadHome(old(Now()), closure, protecting)
    {
      if !protecting {
        protectionEpoch := protectionEpoch + 1;
      }
      BeginNotebookRequest(Home, closure, 0, protecting, if closure.authenticated then AwaitList else Over);
      selected := None;
      route := Home;
      if closure.authenticated {
        home := LOADING;
      }
    }

    method Open(closure: Session, notebookId: nat, protecting: bool)
      modifies this`requestEpoch, this`protectionEpoch, this`desired, this`requests
      ensures Now() == OpenNotebook(old(Now()), closure, notebookId, protecting)
    {
      if !closure.authenticated {
        return;
      }
      if !protecting {
        protectionEpoch := protectionEpoch + 1;
      }
      BeginNotebookRequest(Selected(notebookId), closure, notebookId, protecting, AwaitNotebook);
    }

    method IsNotebookRequestCurrent(n: nat) returns (yes: bool)
      requires n < |requests|
      ensures yes == IsCurrent(Now(), requests[n])
    {
      var request := requests[n];
      yes := mounted && requestEpoch == request.epoch && desired == request.target && current.authenticated
             && current.sessionId == request.closure.sessionId && current.workspaceId == request.closure.workspaceId;
    }

    /** loadHome goes on after the list. */
    method ListArrived(n: nat, list: Option<seq<nat>>)
      requires n < |requests|
      modifies this`requests, this`home
      ensures Now() == ListReplied(old(Now()), n, list)
    {
      var isLatest := IsNotebookRequestCurrent(n);
      var request := requests[n];
      EndRequest(n, Over);
      if !isLatest {
        return;
      }
      var notebooks: seq<Shown> := [];
      if list.Some? {
        for i := 0 to |list.value|
          invariant requests == old(requests)[n := request.(stage := Over)]
          invariant |notebooks| == i
          invariant forall k :: 0 <= k < i ==>
            notebooks[k] == Shown(n, list.value[k], request.closure.sessionId, request.closure.workspaceId)
        {
          notebooks := notebooks + [Shown(n, list.value[i], request.closure.sessionId, request.closure.workspaceId)];
        }
      }
      home := List(Some(n), notebooks);
      assert notebooks == Fetched(old(Now()), n, list).notebooks;
    }

    /** openNotebook goes on after the notebook has come. */
    method NotebookArrived(n: nat, ok: bool)
      requires n < |requests|
      modifies this`requestEpoch, this`protectionEpoch, this`desired, this`requests, this`selected, this`route, this`home
      ensures Now() == NotebookReplied(old(Now()), n, ok)
    {
      var isLatest := IsNotebookRequestCurrent(n);
      var request := requests[n];
      if ok && isLatest {
        EndRequest(n, AwaitContext);
        return;
      }
      EndRequest(n, Over);
      if isLatest {
        GoHome(request.closure, request.protecting);
      }
    }

    /** createNotebook goes on after the notebook has been created. */
    method CreatedArrived(n: nat, notebook: Option<nat>)
      requires n < |requests|
      modifies this`requests, this`home
      ensures Now() == CreatedReplied(old(Now()), n, notebook)
    {
      var isLatest := IsNotebookRequestCurrent(n);
      var request := requests[n];
      EndRequest(n, Over);
      if notebook.None? || !isLatest {
        return;
      }
      var created := Shown(n, notebook.value, request.closure.sessionId, request.closure.workspaceId);
      home := home.(notebooks := [created] + Without(home.notebooks, notebook.value));
    }

    /** openNotebook goes on after the context has come. */
    method ContextArrived(n: nat, ok: bool)
      requires n < |requests|
      modifies this`requestEpoch, this`protectionEpoch, this`desired, this`requests, this`selected, this`route, this`home
      ensures Now() == ContextReplied(old(Now()), n, ok)
    {
      var request := requests[n];
      var isLatest := IsNotebookRequestCurrent(n);
      EndRequest(n, Over);
      if !isLatest {
        return;
      }
      if ok {
        selected := Some(Shown(n, request.notebookId, request.closure.sessionId, request.closure.workspaceId));
        route := request.target;
      } else {
        GoHome(request.closure, request.protecting);
      }
    }

    /** revalidate, up to its await */
    method Revalidate()
      modifies this`protectionEpoch, this`requestEpoch, this`desired, this`protections
      ensures Now() == BeginRevalidation(old(Now()))
    {
      protectionEpoch := protectionEpoch + 1;
      protections := protections + [Protection(protectionEpoch, rendered, route, false)];
      requestEpoch := requestEpoch + 1;
      desired := route;
    }

    /** revalidate goes on after the status has come, or failed to. */
    method StatusArrived(n: nat, status: Option<Session>)
      requires n < |protections|
      modifies this
      ensures Now() == Revalidated(old(Now()), n, status)
    {
      hide Apply, OpenNotebook, LoadHome;
      var p := protections[n];
      var isLatest := mounted && protectionEpoch == p.epoch && current.authenticated && route == p.route
                      && current.sessionId == p.closure.sessionId && current.workspaceId == p.closure.workspaceId;
      ProtectionsStay(Now(), p, status);
      if isLatest {
        if status.None? {
          ApplySession(NO_SESSION);
        } else if status.value != p.closure {
          ApplySession(status.value);
        } else if p.route.Selected? {
          Open(p.closure, p.route.notebookId, true);
        } else {
          GoHome(p.closure, true);
        }
      }
      protections := protections[n := p.(over := true)];
    }

    /** Callbacks of the page that was shown can do nothing more. */
    method EndEpochs()
      modifies this`requestEpoch, this`protectionEpoch
      ensures Now() == old(Now()).(requestEpoch := old(requestEpoch) + 1, protectionEpoch := old(protectionEpoch) + 1)
    {
      requestEpoch := requestEpoch + 1;
      protectionEpoch := protectionEpoch + 1;
    }

    method Logout()
      modifies this
      ensures Now() == Step(old(Now()), Event.Logout)
    {
      EndEpochs();
      desired := Home;
      selected := None;
      ApplySession(NO_SESSION);
    }

    /** One callback. */
    method Handle(e: Event)
      modifies this
      ensures Now() == Step(old(Now()), e)
    {
      hide Apply, LoadHome, OpenNotebook, Revalidated, ListReplied, NotebookReplied, ContextReplied, CreatedReplied, BeginRequest,
        BeginRevalidation;
      var now := State(mounted, requestEpoch, protectionEpoch, desired, route, current, native, rendered, selected, home,
                       requests, protections);
      if !Enabled(now, e) {
        return;
      }
      match e {
        case Status(session) => ApplySession(Identity(session));
        case Render => rendered := native;
        case GoHome => GoHome(rendered, false);
        case Open(id) => Open(rendered, id, false);
        case Navigate(address) => route := address;
        case Revalidate => Revalidate();
        case StatusForProtection(n, status) => StatusArrived(n, if status.Some? then Some(Identity(status.value)) else None);
        case PageHide => EndEpochs();
        case ListReply(n, list) => ListArrived(n, list);
        case NotebookReply(n, ok) => NotebookArrived(n, ok);
        case ContextReply(n, ok) => ContextArrived(n, ok);
        case CreateNotebook => BeginNotebookRequest(desired, rendered, 0, false, AwaitCreated);
        case CreatedReply(n, notebook) => CreatedArrived(n, notebook);
        case Logout => Logout();
        case Unmount =>
          mounted := false;
          EndEpochs();
      }
    }
  }

  /** A shell that has handled any events, one after the other, is in the state that the model runs to. */
  method Replay(events: seq<Event>) returns (shell: Shell)
    ensures fresh(shell) && shell.Now() == Run(START, events) && SelectedRight(shell.Now())
  {
    shell := new Shell();
    for n := 0 to |events|
      invariant fresh(shell) && shell.Now() == Run(START, events[..n])
    {
      hide Step;
      assert events[..n + 1][..n] == events[..n];
      shell.Handle(events[n]);
    }
    assert events[..|events|] == events;
    ShownNotebookIsCurrent(events);
  }
}
