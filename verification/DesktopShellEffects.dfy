/** What each event of the desktop shell does: which notebook and which list are shown, and where a revalidation leads. */
module DesktopShellEffects {
  import opened DesktopShell

  // ----- beginning a request

  /** The newest request is for a target, under the rendered session, and everything before it is stale. */
  predicate Begins(s: State, t: State, target: Route, closure: Session, stage: Stage) {
    && |t.requests| == |s.requests| + 1 && t.requests[..|s.requests|] == s.requests
    && t.requestEpoch == s.requestEpoch + 1 && t.desired == target
    && var r := t.requests[|s.requests|];
       && r.epoch == t.requestEpoch && r.target == target && r.closure == closure && r.begunUnder == s.current && r.stage == stage
  }

  /** Opening a notebook begins a request for exactly that one, if the rendered session is signed in. */
  lemma OpenBegins(s: State, id: nat)
    ensures var t := Step(s, Open(id));
            if s.rendered.authenticated then
              Begins(s, t, Selected(id), s.rendered, AwaitNotebook) && t.selected == s.selected && t.home == s.home
              && t.protectionEpoch == s.protectionEpoch + 1
            else t == s
  {
  }

  /** Going home leaves the notebook and begins a request for the list, if the rendered session is signed in. */
  lemma GoHomeBegins(s: State)
    ensures var t := Step(s, GoHome);
            && Begins(s, t, Home, s.rendered, if s.rendered.authenticated then AwaitList else Over)
            && t.selected.None? && t.route == Home && t.protectionEpoch == s.protectionEpoch + 1
            && t.home == (if s.rendered.authenticated then LOADING else s.home)
  {
  }

  lemma CreateBegins(s: State)
    ensures var t := Step(s, CreateNotebook);
            Begins(s, t, s.desired, s.rendered, AwaitCreated) && t.selected == s.selected && t.home == s.home
  {
  }

  // ----- what is shown

  /** A request for a notebook names it in its target. */
  predicate RequestsNamed(s: State) {
    forall n :: 0 <= n < |s.requests| && (s.requests[n].stage.AwaitNotebook? || s.requests[n].stage.AwaitContext?) ==>
      s.requests[n].target == Selected(s.requests[n].notebookId)
  }

  /** The notebook that is shown is the one that the request which brought it was for. */
  predicate SelectedNamed(s: State) {
    s.selected.Some? ==>
      && s.selected.value.request < |s.requests|
      && s.requests[s.selected.value.request].target == Selected(s.selected.value.notebookId)
  }

  /** Requests keep their targets, and none begins to wait for a context that did not wait for its notebook. */
  predicate Keeps(s: State, t: State) {
    && |s.requests| <= |t.requests|
    && (forall n :: 0 <= n < |s.requests| ==>
          && t.requests[n].target == s.requests[n].target && t.requests[n].notebookId == s.requests[n].notebookId
          && (t.requests[n].stage.AwaitNotebook? ==> s.requests[n].stage.AwaitNotebook?)
          && (t.requests[n].stage.AwaitContext? ==> s.requests[n].stage.AwaitContext? || s.requests[n].stage.AwaitNotebook?))
    && (forall n :: |s.requests| <= n < |t.requests| && (t.requests[n].stage.AwaitNotebook? || t.requests[n].stage.AwaitContext?) ==>
          t.requests[n].target == Selected(t.requests[n].notebookId))
  }

  lemma PiecesKeep(s: State, closure: Session, id: nat, protecting: bool, status: Session)
    ensures Keeps(s, LoadHome(s, closure, protecting)) && Keeps(s, OpenNotebook(s, closure, id, protecting)) && Keeps(s, Apply(s, status))
  {
  }

  lemma EndKeepsRequests(s: State, n: nat, stage: Stage)
    requires n < |s.requests| && !stage.AwaitNotebook? && (stage.AwaitContext? ==> s.requests[n].stage.AwaitNotebook?)
    ensures Keeps(s, End(s, n, stage))
  {
  }

  lemma KeepsFurther(s: State, t: State, u: State)
    requires Keeps(s, t) && Keeps(t, u)
    ensures Keeps(s, u)
  {
  }

  lemma FailureKeeps(s: State, n: nat)
    requires n < |s.requests|
    ensures Keeps(s, OpenFails(s, n))
  {
    hide Keeps, LoadHome, End, IsCurrent;
    var over, r := End(s, n, Over), s.requests[n];
    EndKeepsRequests(s, n, Over);
    PiecesKeep(over, r.closure, 0, r.protecting, NO_SESSION);
    KeepsFurther(s, over, LoadHome(over, r.closure, r.protecting));
  }

  lemma ShowingKeeps(s: State, t: State, u: State)
    requires Keeps(s, t) && u.requests == t.requests
    ensures Keeps(s, u)
  {
  }

  lemma RepliesKeep(s: State, n: nat, ok: bool, list: Option<seq<nat>>, notebook: Option<nat>)
    requires n < |s.requests|
    ensures s.requests[n].stage.AwaitNotebook? ==> Keeps(s, NotebookReplied(s, n, ok))
    ensures Keeps(s, ContextReplied(s, n, ok)) && Keeps(s, ListReplied(s, n, list)) && Keeps(s, CreatedReplied(s, n, notebook))
  {
    hide Keeps, IsCurrent, Fetched, Without, OpenFails, End;
    EndKeepsRequests(s, n, Over);
    if s.requests[n].stage.AwaitNotebook? {
      EndKeepsRequests(s, n, AwaitContext);
    }
    FailureKeeps(s, n);
    ShowingKeeps(s, End(s, n, Over), ContextReplied(s, n, true));
    ShowingKeeps(s, End(s, n, Over), ListReplied(s, n, list));
    ShowingKeeps(s, End(s, n, Over), CreatedReplied(s, n, notebook));
  }

  lemma RevalidatedKeepsRequests(s: State, n: nat, status: Option<Session>)
    requires n < |s.protections|
    ensures Keeps(s, Revalidated(s, n, status))
  {
    hide IsProtecting;
  }

  lemma StepKeepsRequests(s: State, e: Event)
    ensures Keeps(s, Step(s, e))
  {
    hide LoadHome, OpenNotebook, Apply, NotebookReplied, ContextReplied, ListReplied, CreatedReplied, Revalidated, IsCurrent, Identity;
    PiecesKeep(s, s.rendered, if e.Open? then e.notebookId else 0, false, if e.Status? then Identity(e.session) else NO_SESSION);
    if Enabled(s, e) {
      match e {
        case NotebookReply(n, ok) => RepliesKeep(s, n, ok, None, None);
        case ContextReply(n, ok) => RepliesKeep(s, n, ok, None, None);
        case ListReply(n, list) => RepliesKeep(s, n, false, list, None);
        case CreatedReply(n, notebook) => RepliesKeep(s, n, false, None, notebook);
        case StatusForProtection(n, status) =>
          RevalidatedKeepsRequests(s, n, if status.Some? then Some(Identity(status.value)) else None);
        case Logout => LogoutKeepsRequests(s);
        case _ =>
      }
    }
  }

  lemma LogoutKeepsRequests(s: State)
    ensures Keeps(s, Step(s, Logout))
  {
  }

  /** A step newly shows a notebook only for an answered context, and then the one that its request names. */
  lemma SelectedByContext(s: State, e: Event)
    requires Step(s, e).selected.Some? && Step(s, e).selected != s.selected
    ensures e.ContextReply? && Enabled(s, e) && Step(s, e).selected.value.request == e.request
    ensures Step(s, e).selected.value.notebookId == s.requests[e.request].notebookId
  {
    hide IsCurrent, Fetched, Without, IsProtecting;
  }

  lemma StepKeepsNames(s: State, e: Event)
    requires RequestsNamed(s) && SelectedNamed(s)
    ensures RequestsNamed(Step(s, e)) && SelectedNamed(Step(s, e))
  {
    hide Step;
    StepKeepsRequests(s, e);
    if Step(s, e).selected.Some? && Step(s, e).selected != s.selected {
      SelectedByContext(s, e);
    }
  }

  /** Main result: in every run the notebook that is shown is the one its request was for, by its own number. */
  lemma {:induction false} ShownNotebookIsTheOneAsked(events: seq<Event>)
    ensures RequestsNamed(Run(START, events)) && SelectedNamed(Run(START, events))
    decreases |events|
  {
    if events != [] {
      hide Step, RequestsNamed, SelectedNamed;
      var last := |events| - 1;
      ShownNotebookIsTheOneAsked(events[..last]);
      StepKeepsNames(Run(START, events[..last]), events[last]);
    }
  }

  /** A current context shows the notebook of its request under its route; a failing one goes home. */
  lemma ContextShows(s: State, n: nat, ok: bool)
    requires RequestsNamed(s) && Enabled(s, ContextReply(n, ok))
    ensures var t, r := Step(s, ContextReply(n, ok)), s.requests[n];
            if !IsCurrent(s, r) then t == s.(requests := s.requests[n := r.(stage := Over)])
            else if ok then
              && t.selected == Some(Shown(n, r.notebookId, s.current.sessionId, s.current.workspaceId))
              && t.route == Selected(r.notebookId) && t.requests == s.requests[n := r.(stage := Over)]
            else t.selected.None? && t.route == Home && t.desired == Home
  {
  }

  /** A current list shows exactly the notebooks of the reply, in its order; a failing one shows none. */
  lemma ListShows(s: State, n: nat, list: Option<seq<nat>>)
    requires Enabled(s, ListReply(n, list))
    ensures var t := Step(s, ListReply(n, list));
            if IsCurrent(s, s.requests[n]) then
              && t.home.answered == Some(n)
              && |t.home.notebooks| == (if list.Some? then |list.value| else 0)
              && forall i :: 0 <= i < |t.home.notebooks| ==>
                   t.home.notebooks[i] == Shown(n, list.value[i], s.current.sessionId, s.current.workspaceId)
            else t.home == s.home
  {
  }

  lemma {:induction false} WithoutKeepsOthers(notebooks: seq<Shown>, id: nat, x: Shown)
    requires x in notebooks && x.notebookId != id
    ensures x in Without(notebooks, id)
  {
    if notebooks[0] != x {
      WithoutKeepsOthers(notebooks[1..], id, x);
    }
  }

  /** A current creation puts the notebook first and keeps every other one of the list. */
  lemma CreationShows(s: State, n: nat, notebook: Option<nat>)
    requires Enabled(s, CreatedReply(n, notebook))
    ensures var t := Step(s, CreatedReply(n, notebook));
            if IsCurrent(s, s.requests[n]) && notebook.Some? then
              && t.home.notebooks != [] && t.home.answered == s.home.answered
              && t.home.notebooks[0] == Shown(n, notebook.value, s.current.sessionId, s.current.workspaceId)
              && (forall x :: x in s.home.notebooks && x.notebookId != notebook.value ==> x in t.home.notebooks)
              && (forall i :: 0 < i < |t.home.notebooks| ==>
                    t.home.notebooks[i] in s.home.notebooks && t.home.notebooks[i].notebookId != notebook.value)
            else t.home == s.home
  {
    hide Without;
    if notebook.Some? {
      forall x | x in s.home.notebooks && x.notebookId != notebook.value
        ensures x in Without(s.home.notebooks, notebook.value)
      {
        WithoutKeepsOthers(s.home.notebooks, notebook.value, x);
      }
      assert forall x :: x in Without(s.home.notebooks, notebook.value) ==> x in s.home.notebooks && x.notebookId != notebook.value;
    }
  }

  /** A current notebook goes on to its context; a failing one goes home. */
  lemma NotebookGoesOn(s: State, n: nat, ok: bool)
    requires Enabled(s, NotebookReply(n, ok))
    ensures var t, r := Step(s, NotebookReply(n, ok)), s.requests[n];
            if !IsCurrent(s, r) then t == s.(requests := s.requests[n := r.(stage := Over)])
            else if ok then t == s.(requests := s.requests[n := r.(stage := AwaitContext)])
            else t.selected.None? && t.route == Home && t.desired == Home
  {
  }

  // ----- sessions and revalidation

  /** Another identity ends all requests and leaves the notebook; the same one changes nothing. */
  lemma StatusDecides(s: State, session: Session)
    ensures var now, t := if session.authenticated then session else NO_SESSION, Step(s, Status(session));
            && t.current == t.native == now && t.requests == s.requests && t.home == s.home
            && (if now != s.current then
                  t.requestEpoch > s.requestEpoch && t.protectionEpoch > s.protectionEpoch && t.selected.None?
                  && t.desired == Home && t.route == Home
                else t == s.(native := now))
  {
  }

  lemma LogoutEnds(s: State)
    ensures var t := Step(s, Logout);
            t.current == NO_SESSION && t.selected.None? && t.requestEpoch > s.requestEpoch && t.protectionEpoch > s.protectionEpoch
  {
  }

  /** A revalidation makes every earlier request stale and remembers the address and the session that it is for. */
  lemma RevalidationBegins(s: State)
    ensures var t := Step(s, Revalidate);
            && t.requestEpoch > s.requestEpoch && t.desired == s.route && t.selected == s.selected
            && t.protections == s.protections + [Protection(t.protectionEpoch, s.rendered, s.route, false)]
            && t.protectionEpoch > s.protectionEpoch
  {
  }

  /** The revalidation is still the one in force. */
  predicate InForce(s: State, p: Protection) {
    && s.mounted && s.protectionEpoch == p.epoch && s.current.authenticated && s.route == p.route
    && s.current.sessionId == p.closure.sessionId && s.current.workspaceId == p.closure.workspaceId
  }

  /**
   * Where a revalidation leads, if it is in force: without an answer out of the session, with another one into that, and with
   * the same one to the notebook or the list of its address, asked for anew.
   */
  lemma RevalidationLeads(s: State, n: nat, status: Option<Session>)
    requires Enabled(s, StatusForProtection(n, status)) && s.protections[n].closure.authenticated
    ensures var t, p := Step(s, StatusForProtection(n, status)), s.protections[n];
            if !InForce(s, p) then t == s.(protections := s.protections[n := p.(over := true)])
            else if status.None? || !status.value.authenticated then t.current == NO_SESSION && t.selected.None?
            else if status.value != p.closure then
              t.current == status.value && (status.value != s.current ==> t.selected.None? && t.requestEpoch > s.requestEpoch)
            else
              && t.current == s.current && t.protectionEpoch == s.protectionEpoch
              && Begins(s, t, p.route, p.closure, if p.route.Selected? then AwaitNotebook else AwaitList)
  {
    hide Keeps;
  }
}
