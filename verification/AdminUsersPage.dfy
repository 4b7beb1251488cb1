/** The user administration console as it works: a map of markers and request objects changed in place. */
module AdminUsersPage {
  import opened AdminUsers

  class Page {
    var epoch: nat
    var modal: bool
    var session: Option<nat>
    var marks: map<User, Mark>
    var inFlight: seq<bool>
    var editing: bool
    var edits: seq<Edit>
    var loads: seq<Load>
    var log: seq<Sent>

    constructor ()
      ensures Now() == START
    {
      epoch, modal, session, marks, inFlight := 0, false, None, map[], [];
      editing, edits, loads, log := false, [], [], [];
    }

    ghost function Now(): State
      reads this
    {
      State(epoch, modal, session, marks, inFlight, editing, edits, loads, log)
    }

    /** load, after the session has been read */
    method LoadSession(n: nat, identity: Option<nat>, lost: bool)
      requires n < |loads|
      modifies this`marks, this`session, this`loads
      ensures Now() == SessionReadFor(old(Now()), n, identity, lost)
    {
      var load := loads[n];
      loads := loads[n := load.(stage := Over)];
      if load.epoch != epoch {
        return;
      }
      if identity.None? {
        if lost {
          marks := map[];
          session := None;
        }
        return;
      }
      if session != identity {
        marks := map[];
      }
      session := identity;
      var settled := map u | u in marks && marks[u].save.Some? && marks[u].save.value < |inFlight| && !inFlight[marks[u].save.value]
        :: marks[u].save.value;
      loads := loads[n := load.(stage := AwaitUsers(settled, inFlight))];
    }

    /** load, after the list has been read: the settled saves that are still the same lose their marks */
    method LoadUsers(n: nat, outcome: Outcome)
      requires n < |loads| && loads[n].stage.AwaitUsers?
      modifies this`marks, this`session, this`loads
      ensures Now() == UsersReadFor(old(Now()), n, outcome)
    {
      var load := loads[n];
      loads := loads[n := load.(stage := Over)];
      if load.epoch != epoch {
        return;
      }
      if outcome.Unauthenticated? {
        marks := map[];
        session := None;
      } else if outcome.Good? {
        var settled := load.stage.settled;
        marks := Confirmed(marks, settled);
      }
    }

    method Start(kind: Kind, u: User, request: nat, calls: nat)
      modifies this`editing, this`edits, this`log
      ensures Now() == Begin(old(Now()), kind, u, request, calls)
    {
      if !kind.Rechecking? {
        log := log + [Sent(kind, u, |edits|)];
      }
      var settled := map v | v in marks && marks[v].save.Some? && marks[v].save.value < |inFlight| && !inFlight[marks[v].save.value]
        :: marks[v].save.value;
      edits := edits + [Edit(kind, u, request, epoch, session, calls, false, settled, inFlight)];
      editing := true;
    }

    /** saveUser, up to its first await */
    method SaveUser(u: User, calls: nat)
      modifies this`marks, this`inFlight, this`editing, this`edits, this`log
      ensures Now() == BeginSave(old(Now()), u, calls)
    {
      var mark := if u in marks then marks[u] else Mark(None, None);
      if !modal || mark.save.Some? || editing || calls == 0 {
        return;
      }
      var request := |inFlight|;
      inFlight := inFlight + [true];
      marks := marks[u := mark.(save := Some(request))];
      Start(Saving, u, request, calls);
    }

    /** reset, up to its await */
    method ResetUser(u: User)
      modifies this`marks, this`inFlight, this`editing, this`edits, this`log
      ensures Now() == BeginReset(old(Now()), u)
    {
      var mark := if u in marks then marks[u] else Mark(None, None);
      if !modal || mark.save.Some? || mark.reset.Some? || editing {
        return;
      }
      var request := |inFlight|;
      inFlight := inFlight + [true];
      marks := marks[u := mark.(reset := Some(request))];
      Start(Resetting, u, request, 1);
    }

    /** The finally block of every edit. */
    method EndEdit(x: nat)
      requires x < |edits|
      modifies this`inFlight, this`editing, this`edits
      ensures Now() == Finish(old(Now()), x)
    {
      var edit := edits[x];
      var mark := if edit.user in marks then marks[edit.user] else Mark(None, None);
      if session == edit.session && edit.request < |inFlight|
         && ((edit.kind.Saving? && mark.save == Some(edit.request)) || (edit.kind.Resetting? && mark.reset == Some(edit.request))) {
        inFlight := inFlight[edit.request := false];
      }
      editing := false;
      edits := edits[x := edit.(done := true)];
    }

    method DropSave(u: User)
      modifies this`marks
      ensures Now() == old(Now()).(marks := WithoutSave(old(Now()), u))
    {
      if u in marks && marks[u].reset.Some? {
        marks := marks[u := Mark(None, marks[u].reset)];
      } else {
        marks := marks - {u};
      }
    }

    /** The success branch of an edit. */
    method Succeed(x: nat)
      requires x < |edits|
      modifies this`epoch, this`modal, this`marks
      ensures Now() == Succeeded(old(Now()), x)
    {
      var edit := edits[x];
      var mark := if edit.user in marks then marks[edit.user] else Mark(None, None);
      match edit.kind {
        case Saving =>
          if mark.save == Some(edit.request) {
            DropSave(edit.user);
          }
          epoch := epoch + 1;
          modal := false;
        case Creating =>
          epoch := epoch + 1;
          modal := false;
        case Rechecking =>
          DropSave(edit.user);
        case Resetting =>
          if mark.reset == Some(edit.request) {
            if mark.save.Some? {
              marks := marks[edit.user := Mark(mark.save, None)];
            } else {
              marks := marks - {edit.user};
            }
          }
        case Approving =>
      }
    }

    /** The catch block of an edit whose session is not lost. */
    method Fail(x: nat)
      requires x < |edits|
      modifies this`epoch, this`marks, this`inFlight
      ensures Now() == FailedEdit(old(Now()), x)
    {
      var edit := edits[x];
      if edit.kind.Saving? {
        var mark := if edit.user in marks then marks[edit.user] else Mark(None, None);
        epoch := epoch + 1;
        marks := marks[edit.user := mark.(save := Some(|inFlight|))];
        inFlight := inFlight + [false];
      } else if edit.kind.Creating? {
        epoch := epoch + 1;
      }
    }

    /** An edit goes on after the reply to its call. */
    method Continue(x: nat, outcome: Outcome)
      requires x < |edits|
      modifies this
      ensures Now() == ReplyFor(old(Now()), x, outcome)
    {
      hide Succeeded, FailedEdit, Finish;
      var edit := edits[x];
      if edit.epoch == epoch {
        if outcome.Unauthenticated? {
          epoch := epoch + 1;
          modal := false;
          marks := map[];
          session := None;
        } else if outcome.Failed? {
          Fail(x);
        } else if edit.kind.Saving? && edit.calls > 1 {
          edits := edits[x := edit.(calls := edit.calls - 1)];
          log := log + [Sent(Saving, edit.user, x)];
          return;
        } else {
          Succeed(x);
        }
      }
      EndEdit(x);
    }

    /** One callback. */
    method Handle(e: Event)
      modifies this
      ensures Now() == Step(old(Now()), e)
    {
      hide SessionReadFor, UsersReadFor, Begin, BeginSave, BeginReset, ReplyFor;
      if !Enabled(State(epoch, modal, session, marks, inFlight, editing, edits, loads, log), e) {
        return;
      }
      match e {
        case StartLoad =>
          epoch := epoch + 1;
          modal := false;
          loads := loads + [Load(epoch, AwaitSession)];
        case SessionRead(n, identity, lost) => LoadSession(n, identity, lost);
        case UsersRead(n, outcome) => LoadUsers(n, outcome);
        case Open =>
          epoch := epoch + 1;
          modal := true;
        case Close =>
          epoch := epoch + 1;
          modal := false;
        case Create => Start(Creating, 0, 0, 1);
        case Save(u, calls) => SaveUser(u, calls);
        case Recheck(u) => Start(Rechecking, u, 0, 1);
        case Approve(u) => Start(Approving, u, 0, 1);
        case Reset(u) => ResetUser(u);
        case Reply(x, outcome) => Continue(x, outcome);
      }
    }
  }

  /** A page that has handled any events, one after the other, is in the state that the model runs to. */
  method Replay(events: seq<Event>) returns (page: Page)
    ensures fresh(page) && page.Now() == Run(START, events) && Invariant(page.Now())
  {
    page := new Page();
    for n := 0 to |events|
      invariant fresh(page) && page.Now() == Run(START, events[..n])
    {
      hide Step;
      assert events[..n + 1][..n] == events[..n];
      page.Handle(events[n]);
    }
    assert events[..|events|] == events;
    RunKeeps(events);
  }
}
