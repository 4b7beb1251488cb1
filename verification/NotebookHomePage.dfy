/** The notebook home as it works: references and operations changed in place by its callbacks. */
module NotebookHomePage {
  import opened TenantSwitch

  class Home {
    var epoch: nat
    var operation: Option<nat>
    var operations: seq<Operation>
    var currentSession: Option<Session>
    var shown: Option<Shown>
    var loads: seq<Load>
    var creates: seq<Create>
    var sent: seq<nat>

    constructor ()
      ensures Now() == START
    {
      epoch, operation, operations, currentSession, shown := 0, None, [], None, None;
      loads, creates, sent := [], [], [];
    }

    ghost function Now(): State
      reads this
    {
      State(epoch, operation, operations, currentSession, shown, loads, creates, sent)
    }

    /** load, up to its first await */
    method LoadStarts()
      modifies this`epoch, this`shown, this`loads
      ensures Now() == BeginLoad(old(Now()))
    {
      epoch := epoch + 1;
      var verifying: Option<nat> := None;
      var atStart: Option<(nat, Phase)> := None;
      if operation.Some? && operation.value < |operations| {
        atStart := Some((operation.value, operations[operation.value].phase));
        if operations[operation.value].phase.Unknown? {
          verifying := operation;
        }
      }
      shown := None;
      loads := loads + [Load(epoch, verifying, atStart, None, AwaitSession)];
    }

    /** load, after its session has come */
    method SessionArrives(n: nat, session: Option<Session>)
      requires n < |loads|
      modifies this`loads
      ensures Now() == SessionReadFor(old(Now()), n, session)
    {
      if loads[n].epoch != epoch || session.None? {
        loads := loads[n := loads[n].(stage := Loaded)];
        return;
      }
      loads := loads[n := loads[n].(answer := session, stage := AwaitScope(session.value))];
    }

    /** load, after the scope and the notebooks have come */
    method LoadCompletes(n: nat, scopeValid: bool, notebooks: Option<seq<nat>>)
      requires n < |loads| && loads[n].stage.AwaitScope?
      modifies this`operation, this`currentSession, this`shown, this`loads
      ensures Now() == ScopeReadFor(old(Now()), n, scopeValid, notebooks)
    {
      var load := loads[n];
      loads := loads[n := load.(stage := Loaded)];
      if load.epoch != epoch {
        return;
      }
      var session := load.stage.session;
      currentSession := Some(session);
      if scopeValid && operation.Some? && operation.value < |operations|
         && (session != operations[operation.value].source || load.verifying == operation) {
        operation := None;
      }
      shown := Some(Shown(n, session, scopeValid,
                          if scopeValid && notebooks.Some? then Tagged(notebooks.value, session) else []));
    }

    /** handleSwitchTenant, up to its session check */
    method SwitchStarts(target: nat)
      modifies this`operation, this`operations
      ensures Now() == BeginSwitch(old(Now()), target)
    {
      if operation.Some? || currentSession.None? {
        return;
      }
      operation := Some(|operations|);
      operations := operations + [Operation(currentSession.value, target, epoch, Checking, AwaitCheck)];
    }

    /** handleSwitchTenant, after its session check */
    method SwitchChecked(k: nat, session: Option<Session>)
      requires k < |operations|
      modifies this`epoch, this`operation, this`operations, this`shown, this`loads, this`sent
      ensures Now() == CheckedFor(old(Now()), k, session)
    {
      var used := operations[k];
      operations := operations[k := used.(stage := Over)];
      if session.Some? && used.epoch == epoch && session.value == used.source {
        operations := operations[k := used.(phase := Sending, stage := AwaitReply)];
        sent := sent + [k];
      } else if session.Some? && used.epoch == epoch {
        operation := None;
        LoadStarts();
      } else if operation == Some(k) && (session.None? || used.phase.Checking?) {
        operation := None;
        if session.None? && used.epoch == epoch {
          LoadStarts();
        }
      }
    }

    /** handleSwitchTenant, after the reply to what it sent */
    method SwitchReplied(k: nat, reply: Reply)
      requires k < |operations|
      modifies this`epoch, this`operation, this`operations, this`shown, this`loads
      ensures Now() == RepliedFor(old(Now()), k, reply)
    {
      var used := operations[k];
      operations := operations[k := used.(stage := Over)];
      if operation != Some(k) {
        return;
      }
      match reply {
        case Switched =>
          operation := None;
          epoch := epoch + 1;
          shown := None;
        case Refused =>
          operation := None;
        case Unclear =>
          if used.phase.Sending? {
            operations := operations[k := used.(stage := Over, phase := Unknown)];
          }
          if used.epoch == epoch {
            LoadStarts();
          }
      }
    }

    /** handleCreate, after its own session check */
    method CreateVerified(n: nat, session: Option<Session>)
      requires n < |creates| && creates[n].stage.AwaitVerified?
      modifies this`epoch, this`shown, this`loads, this`creates
      ensures Now() == VerifiedFor(old(Now()), n, session)
    {
      var create := creates[n];
      creates := creates[n := create.(stage := Created)];
      if session.None? {
        return;
      }
      if create.epoch != epoch || Some(create.source) != currentSession || create.source != session.value {
        if create.epoch == epoch {
          LoadStarts();
        }
        return;
      }
      if shown.Some? {
        var listed := [Notebook(create.stage.notebook, create.source)] + Without(shown.value.notebooks, create.stage.notebook);
        shown := Some(shown.value.(notebooks := listed));
      }
    }

    /** handleCreate, up to its first await */
    method CreateStarts()
      modifies this`creates
      ensures Now() == BeginCreate(old(Now()))
    {
      if shown.None? || currentSession != Some(shown.value.session) || operation.Some? {
        return;
      }
      creates := creates + [Create(epoch, shown.value.session, AwaitCreated)];
    }

    /** handleCreate, after the notebook has been created */
    method CreateReplied(n: nat, notebook: Option<nat>)
      requires n < |creates|
      modifies this`creates
      ensures Now() == CreatedFor(old(Now()), n, notebook)
    {
      var create := creates[n];
      if notebook.None? || create.epoch != epoch || Some(create.source) != currentSession {
        creates := creates[n := create.(stage := Created)];
      } else {
        creates := creates[n := create.(stage := AwaitVerified(notebook.value))];
      }
    }

    /** One callback. */
    method Handle(e: Event)
      modifies this
      ensures Now() == Step(old(Now()), e)
    {
      hide BeginLoad, ScopeReadFor, CheckedFor, RepliedFor, VerifiedFor, BeginSwitch, SessionReadFor, CreatedFor, BeginCreate;
      if !Enabled(State(epoch, operation, operations, currentSession, shown, loads, creates, sent), e) {
        return;
      }
      match e {
        case StartLoad => LoadStarts();
        case Conceal =>
          epoch := epoch + 1;
          shown := None;
        case SessionRead(n, session) => SessionArrives(n, session);
        case ScopeRead(n, scopeValid, notebooks) => LoadCompletes(n, scopeValid, notebooks);
        case LoadAborted(n) => loads := loads[n := loads[n].(stage := Loaded)];
        case Switch(target) => SwitchStarts(target);
        case Checked(k, session) => SwitchChecked(k, session);
        case Replied(k, reply) => SwitchReplied(k, reply);
        case StartCreate => CreateStarts();
        case CreatedNow(n, notebook) => CreateReplied(n, notebook);
        case Verified(n, session) => CreateVerified(n, session);
      }
    }
  }

  /** A page that has handled any events, one after the other, is in the state that the model runs to. */
  method Replay(events: seq<Event>) returns (home: Home)
    ensures fresh(home) && home.Now() == Run(START, events)
    ensures home.shown.Some? ==> IsLatest(home.Now(), home.shown.value.load)
  {
    home := new Home();
    for n := 0 to |events|
      invariant fresh(home) && home.Now() == Run(START, events[..n])
    {
      hide Step;
      assert events[..n + 1][..n] == events[..n];
      home.Handle(events[n]);
    }
    assert events[..|events|] == events;
    ShownIsCurrent(events);
  }
}
