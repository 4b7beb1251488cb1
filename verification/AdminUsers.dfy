/** The user administration console: markers of unconfirmed saves and what may be sent while one stands. */
module AdminUsers {

  datatype Option<T> = None | Some(value: T)

  type User = nat

  /** Saves and resets are told apart by the number of their request object. */
  datatype Mark = Mark(save: Option<nat>, reset: Option<nat>)

  datatype Kind = Creating | Saving | Rechecking | Approving | Resetting

  /**
   * One use of an edit function: whose, with which request object, how many of its calls are still to be made, which marked
   * saves had settled when it started and, for the proof, which request objects were in flight then.
   */
  datatype Edit = Edit(kind: Kind, user: User, request: nat, epoch: nat, session: Option<nat>, calls: nat, done: bool,
                       settled: map<User, nat>, asked: seq<bool>)

  /** A load asks for the list with the saves that have settled and, for the proof, what was in flight when it asked. */
  datatype LoadStage = AwaitSession | AwaitUsers(settled: map<User, nat>, asked: seq<bool>) | Over

  datatype Load = Load(epoch: nat, stage: LoadStage)

  /** A request on the wire and the edit that sent it. */
  datatype Sent = Sent(kind: Kind, user: User, edit: nat)

  datatype State = State(epoch: nat, modal: bool, session: Option<nat>, marks: map<User, Mark>, inFlight: seq<bool>, editing: bool,
                         edits: seq<Edit>, loads: seq<Load>, log: seq<Sent>)

  /** How a call ends: well, with the session lost, or with any other failure. */
  datatype Outcome = Good | Unauthenticated | Failed

  datatype Event =
    | StartLoad
    | SessionRead(load: nat, identity: Option<nat>, lost: bool)
    | UsersRead(load: nat, outcome: Outcome)
    | Open                                                   // a dialog
    | Close
    | Create
    | Save(user: User, calls: nat)
    | Recheck(user: User)
    | Approve(user: User)
    | Reset(user: User)
    | Reply(edit: nat, outcome: Outcome)

  const START := State(0, false, None, map[], [], false, [], [], [])

  function MarkOf(s: State, u: User): Mark {
    if u in s.marks then s.marks[u] else Mark(None, None)
  }

  // ----- loading the list

  /** The saves that have settled and are still marked. */
  function Settled(s: State): map<User, nat> {
    map u | u in s.marks && s.marks[u].save.Some? && s.marks[u].save.value < |s.inFlight| && !s.inFlight[s.marks[u].save.value]
      :: s.marks[u].save.value
  }

  function SetLoad(s: State, n: nat, stage: LoadStage): State
    requires n < |s.loads|
  {
    s.(loads := s.loads[n := s.loads[n].(stage := stage)])
  }

  function BeginLoad(s: State): State {
    s.(epoch := s.epoch + 1, modal := false, loads := s.loads + [Load(s.epoch + 1, AwaitSession)])
  }

  /** A lost session forgets all markers. */
  function Forget(s: State): State {
    s.(marks := map[], session := None)
  }

  function SessionReadFor(s: State, n: nat, identity: Option<nat>, lost: bool): State
    requires n < |s.loads|
  {
    var over := SetLoad(s, n, Over);
    if s.loads[n].epoch != s.epoch then over
    else if identity.None? then if lost then Forget(over) else over
    else
      var t := s.(marks := if s.session != identity then map[] else s.marks, session := identity);
      SetLoad(t, n, AwaitUsers(Settled(t), t.inFlight))
  }

  function WithoutSave(s: State, u: User): map<User, Mark> {
    if u in s.marks && s.marks[u].reset.Some? then s.marks[u := Mark(None, s.marks[u].reset)] else s.marks - {u}
  }

  /** Drop the marks of the settled saves that are still the same. */
  function Confirmed(marks: map<User, Mark>, settled: map<User, nat>): map<User, Mark> {
    map u | u in marks && !(u in settled && marks[u].save == Some(settled[u]) && marks[u].reset.None?) ::
      if u in settled && marks[u].save == Some(settled[u]) then Mark(None, marks[u].reset) else marks[u]
  }

  function UsersReadFor(s: State, n: nat, outcome: Outcome): State
    requires n < |s.loads| && s.loads[n].stage.AwaitUsers?
  {
    var over := SetLoad(s, n, Over);
    if s.loads[n].epoch != s.epoch then over
    else match outcome
      case Good => over.(marks := Confirmed(s.marks, s.loads[n].stage.settled))
      case Unauthenticated => Forget(over)
      case Failed => over
  }

  // ----- editing

  function Begin(s: State, kind: Kind, u: User, request: nat, calls: nat): State {
    s.(editing := true, edits := s.edits + [Edit(kind, u, request, s.epoch, s.session, calls, false, Settled(s), s.inFlight)],
       log := if kind.Rechecking? then s.log else s.log + [Sent(kind, u, |s.edits|)])
  }

  function BeginSave(s: State, u: User, calls: nat): State {
    if !s.modal || MarkOf(s, u).save.Some? || s.editing || calls == 0 then s
    else
      var o := |s.inFlight|;
      Begin(s.(inFlight := s.inFlight + [true], marks := s.marks[u := MarkOf(s, u).(save := Some(o))]), Saving, u, o, calls)
  }

  function BeginReset(s: State, u: User): State {
    if !s.modal || MarkOf(s, u).save.Some? || MarkOf(s, u).reset.Some? || s.editing then s
    else
      var o := |s.inFlight|;
      Begin(s.(inFlight := s.inFlight + [true], marks := s.marks[u := MarkOf(s, u).(reset := Some(o))]), Resetting, u, o, 1)
  }

  /** The finally block: the request object settles if its mark still stands in its session. */
  function Finish(s: State, x: nat): State
    requires x < |s.edits|
  {
    var e := s.edits[x];
    var settles := && s.session == e.session && e.request < |s.inFlight|
                   && ((e.kind.Saving? && MarkOf(s, e.user).save == Some(e.request))
                       || (e.kind.Resetting? && MarkOf(s, e.user).reset == Some(e.request)));
    s.(inFlight := if settles then s.inFlight[e.request := false] else s.inFlight,
       editing := false, edits := s.edits[x := e.(done := true)])
  }

  function Succeeded(s: State, x: nat): State
    requires x < |s.edits|
  {
    var e := s.edits[x];
    match e.kind
    case Saving =>
      s.(epoch := s.epoch + 1, modal := false,
         marks := if MarkOf(s, e.user).save == Some(e.request) then WithoutSave(s, e.user) else s.marks)
    case Creating => s.(epoch := s.epoch + 1, modal := false)
    case Rechecking => s.(marks := WithoutSave(s, e.user))
    case Resetting =>
      if MarkOf(s, e.user).reset != Some(e.request) then s
      else if MarkOf(s, e.user).save.Some? then s.(marks := s.marks[e.user := Mark(MarkOf(s, e.user).save, None)])
      else s.(marks := s.marks - {e.user})
    case Approving => s
  }

  function FailedEdit(s: State, x: nat): State
    requires x < |s.edits|
  {
    var e := s.edits[x];
    match e.kind
    case Saving =>
      s.(epoch := s.epoch + 1, inFlight := s.inFlight + [false],
         marks := s.marks[e.user := MarkOf(s, e.user).(save := Some(|s.inFlight|))])
    case Creating => s.(epoch := s.epoch + 1)
    case _ => s
  }

  function ReplyFor(s: State, x: nat, outcome: Outcome): State
    requires x < |s.edits|
  {
    var e := s.edits[x];
    if e.epoch != s.epoch then Finish(s, x)
    else match outcome
      case Good =>
        if e.kind.Saving? && e.calls > 1 then
          s.(edits := s.edits[x := e.(calls := e.calls - 1)], log := s.log + [Sent(Saving, e.user, x)])
        else Finish(Succeeded(s, x), x)
      case Unauthenticated => Finish(Forget(s.(epoch := s.epoch + 1, modal := false)), x)
      case Failed => Finish(FailedEdit(s, x), x)
  }

  predicate Enabled(s: State, e: Event) {
    match e
    case SessionRead(n, _, _) => n < |s.loads| && s.loads[n].stage.AwaitSession?
    case UsersRead(n, _) => n < |s.loads| && s.loads[n].stage.AwaitUsers?
    case Open => !s.editing
    case Close => !s.editing
    case Create => s.modal && !s.editing
    case Recheck(_) => s.modal && !s.editing
    case Approve(u) => s.modal && !s.editing && MarkOf(s, u).save.None?
    case Reply(x, _) => x < |s.edits| && !s.edits[x].done
    case _ => true
  }

  function Step(s: State, e: Event): State {
    if !Enabled(s, e) then s
    else match e
      case StartLoad => BeginLoad(s)
      case SessionRead(n, identity, lost) => SessionReadFor(s, n, identity, lost)
      case UsersRead(n, outcome) => UsersReadFor(s, n, outcome)
      case Open => s.(epoch := s.epoch + 1, modal := true)
      case Close => s.(epoch := s.epoch + 1, modal := false)
      case Create => Begin(s, Creating, 0, 0, 1)
      case Save(u, calls) => BeginSave(s, u, calls)
      case Recheck(u) => Begin(s, Rechecking, u, 0, 1)
      case Approve(u) => Begin(s, Approving, u, 0, 1)
      case Reset(u) => BeginReset(s, u)
      case Reply(x, outcome) => ReplyFor(s, x, outcome)
  }

  function Run(s: State, events: seq<Event>): State {
    if events == [] then s
    else
      var last := |events| - 1;
      Step(Run(s, events[..last]), events[last])
  }

  // ----- what every run keeps

  /** Edit x is the running save behind mark o of user u. */
  predicate Owns(s: State, x: nat, u: User, o: nat) {
    && x < |s.edits| && !s.edits[x].done && s.edits[x].kind.Saving? && s.edits[x].user == u && s.edits[x].request == o
    && s.edits[x].session == s.session
  }

  /** One edit runs at a time. */
  predicate OneEdit(s: State) {
    && (forall x :: 0 <= x < |s.edits| && !s.edits[x].done ==> s.editing && s.edits[x].epoch <= s.epoch)
    && (forall x, y :: 0 <= x < y < |s.edits| ==> s.edits[x].done || s.edits[y].done)
  }

  /** A marked save is settled or is the save that runs. */
  predicate MarkRight(s: State, u: User)
    requires u in s.marks
  {
    s.marks[u].save.Some? ==>
      && s.marks[u].save.value < |s.inFlight|
      && (s.inFlight[s.marks[u].save.value] ==> exists x :: 0 <= x < |s.edits| && Owns(s, x, u, s.marks[u].save.value))
  }

  predicate MarksRight(s: State) {
    forall u :: u in s.marks ==> MarkRight(s, u)
  }

  /** A running save of the current epoch still has its mark. */
  predicate RunningMarked(s: State) {
    forall x :: 0 <= x < |s.edits| && !s.edits[x].done && s.edits[x].kind.Saving? ==>
      && s.edits[x].request < |s.inFlight|
      && (s.edits[x].epoch == s.epoch ==>
            MarkOf(s, s.edits[x].user).save == Some(s.edits[x].request) && s.edits[x].session == s.session)
  }

  predicate SettledWhen(asked: seq<bool>, o: nat) {
    o < |asked| && !asked[o]
  }

  /** What a load will confirm had settled before the list was asked for. */
  predicate LoadsRight(s: State) {
    forall n :: 0 <= n < |s.loads| && s.loads[n].stage.AwaitUsers? ==>
      forall u :: u in s.loads[n].stage.settled ==>
        SettledWhen(s.loads[n].stage.asked, s.loads[n].stage.settled[u])
  }

  /** While a list is read again every marked save is one that had settled before. */
  predicate RechecksRight(s: State) {
    forall x :: 0 <= x < |s.edits| && !s.edits[x].done && s.edits[x].kind.Rechecking? ==>
      forall u :: u in s.marks && s.marks[u].save.Some? ==>
        && u in s.edits[x].settled && s.edits[x].settled[u] == s.marks[u].save.value
        && SettledWhen(s.edits[x].asked, s.marks[u].save.value)
  }

  /** While a load of the current epoch is under way no dialog is open and no edit of this epoch runs. */
  predicate QuietLoads(s: State) {
    && (forall n :: 0 <= n < |s.loads| ==> s.loads[n].epoch <= s.epoch)
    && (forall n :: 0 <= n < |s.loads| && !s.loads[n].stage.Over? && s.loads[n].epoch == s.epoch ==>
          && !s.modal
          && forall x :: 0 <= x < |s.edits| && !s.edits[x].done ==> s.edits[x].epoch < s.epoch)
  }

  predicate Invariant(s: State) {
    OneEdit(s) && MarksRight(s) && RunningMarked(s) && LoadsRight(s) && QuietLoads(s) && RechecksRight(s)
  }

  // ----- loading keeps it

  lemma BeginLoadKeeps(s: State)
    requires Invariant(s)
    ensures Invariant(BeginLoad(s))
  {
    var t := BeginLoad(s);
    MarksFrame(s, t);
  }

  /** Marks stay right while edits and request objects do. */
  lemma MarksFrame(s: State, t: State)
    requires MarksRight(s) && t.marks == s.marks && t.session == s.session && t.inFlight == s.inFlight && t.edits == s.edits
    ensures MarksRight(t)
  {
    forall u | u in t.marks
      ensures MarkRight(t, u)
    {
      assert MarkRight(s, u);
      if s.marks[u].save.Some? && s.inFlight[s.marks[u].save.value] {
        var o := s.marks[u].save.value;
        var x :| 0 <= x < |s.edits| && Owns(s, x, u, o);
        assert Owns(t, x, u, o);
      }
    }
  }

  lemma SessionReadKeeps(s: State, n: nat, identity: Option<nat>, lost: bool)
    requires Invariant(s) && n < |s.loads| && s.loads[n].stage.AwaitSession?
    ensures Invariant(SessionReadFor(s, n, identity, lost))
  {
    var t := SessionReadFor(s, n, identity, lost);
    if s.loads[n].epoch != s.epoch || (identity.None? && !lost) {
      LoadEnds(s, n);
    } else if t.marks == s.marks && t.session == s.session {
      MarksFrame(s, t);
    }
  }

  lemma LoadEnds(s: State, n: nat)
    requires Invariant(s) && n < |s.loads|
    ensures Invariant(SetLoad(s, n, Over))
  {
    MarksFrame(s, SetLoad(s, n, Over));
  }

  lemma UsersReadKeeps(s: State, n: nat, outcome: Outcome)
    requires Invariant(s) && n < |s.loads| && s.loads[n].stage.AwaitUsers?
    ensures Invariant(UsersReadFor(s, n, outcome))
  {
    var t := UsersReadFor(s, n, outcome);
    if t.marks == s.marks && t.session == s.session {
      MarksFrame(s, t);
    } else if t.session == s.session {
      FewerMarks(s, t);
    }
  }

  /** Dropping saves keeps the others right. */
  lemma FewerMarks(s: State, t: State)
    requires MarksRight(s) && t.session == s.session && t.inFlight == s.inFlight && t.edits == s.edits
    requires forall u :: u in t.marks && t.marks[u].save.Some? ==> u in s.marks && s.marks[u].save == t.marks[u].save
    ensures MarksRight(t)
  {
    forall u | u in t.marks
      ensures MarkRight(t, u)
    {
      if t.marks[u].save.Some? && t.marks[u].save.value < |t.inFlight| && t.inFlight[t.marks[u].save.value] {
        var o := s.marks[u].save.value;
        assert MarkRight(s, u);
        var x :| 0 <= x < |s.edits| && Owns(s, x, u, o);
        assert Owns(t, x, u, o);
      } else if t.marks[u].save.Some? {
        assert MarkRight(s, u);
      }
    }
  }

  // ----- editing keeps it

  lemma BeginSaveKeeps(s: State, u: User, calls: nat)
    requires Invariant(s)
    ensures Invariant(BeginSave(s, u, calls))
  {
    var t := BeginSave(s, u, calls);
    if t != s {
      forall v | v in t.marks
        ensures MarkRight(t, v)
      {
        if v == u {
          assert Owns(t, |s.edits|, u, |s.inFlight|);
        } else {
          assert MarkRight(s, v);
          SameMark(s, t, v);
        }
      }
    }
  }

  /** A mark that stays, with its object and its running save. */
  lemma SameMark(s: State, t: State, u: User)
    requires u in s.marks && MarkRight(s, u) && u in t.marks && t.marks[u].save == s.marks[u].save && t.session == s.session
    requires |s.inFlight| <= |t.inFlight| && forall o :: 0 <= o < |s.inFlight| ==> t.inFlight[o] == s.inFlight[o] || !t.inFlight[o]
    requires |s.edits| <= |t.edits|
    requires forall x :: 0 <= x < |s.edits| && !s.edits[x].done && s.edits[x].kind.Saving?
                         && s.marks[u].save == Some(s.edits[x].request) ==>
               || t.edits[x] == s.edits[x] || t.edits[x] == s.edits[x].(calls := t.edits[x].calls)
               || !t.inFlight[s.marks[u].save.value]
    ensures MarkRight(t, u)
  {
    if s.marks[u].save.Some? && t.inFlight[s.marks[u].save.value] {
      var o := s.marks[u].save.value;
      var x :| 0 <= x < |s.edits| && Owns(s, x, u, o);
      assert Owns(t, x, u, o);
    }
  }

  lemma BeginResetKeeps(s: State, u: User)
    requires Invariant(s)
    ensures Invariant(BeginReset(s, u))
  {
    var t := BeginReset(s, u);
    if t != s {
      forall v | v in t.marks
        ensures MarkRight(t, v)
      {
        if v in s.marks {
          assert MarkRight(s, v);
          SameMark(s, t, v);
        }
      }
    }
  }

  lemma BeginKeeps(s: State, kind: Kind, u: User)
    requires Invariant(s) && s.modal && !s.editing && !kind.Saving?
    ensures Invariant(Begin(s, kind, u, 0, 1))
  {
    var t := Begin(s, kind, u, 0, 1);
    forall v | v in t.marks
      ensures MarkRight(t, v)
    {
      assert MarkRight(s, v);
      SameMark(s, t, v);
    }
    forall v | v in t.marks && t.marks[v].save.Some?
      ensures v in Settled(s) && Settled(s)[v] == t.marks[v].save.value && SettledWhen(s.inFlight, t.marks[v].save.value)
    {
      NothingRuns(s, v);
    }
    hide Settled;
  }

  lemma FinishKeeps(s: State, x: nat)
    requires Invariant(s) && x < |s.edits| && !s.edits[x].done
    ensures Invariant(Finish(s, x))
  {
    var t, e := Finish(s, x), s.edits[x];
    forall v | v in t.marks
      ensures MarkRight(t, v)
    {
      assert MarkRight(s, v);
      if s.marks[v].save.Some? && s.inFlight[s.marks[v].save.value] {
        var y :| 0 <= y < |s.edits| && Owns(s, y, v, s.marks[v].save.value);
        assert y == x;
      }
    }
  }

  /** With no edit running, every marked save has settled. */
  lemma NothingRuns(s: State, u: User)
    requires Invariant(s) && !s.editing && u in s.marks && s.marks[u].save.Some?
    ensures u in Settled(s) && Settled(s)[u] == s.marks[u].save.value && SettledWhen(s.inFlight, s.marks[u].save.value)
  {
    assert MarkRight(s, u);
    hide RunningMarked, LoadsRight, QuietLoads, RechecksRight;
  }

  lemma SucceededKeeps(s: State, x: nat)
    requires Invariant(s) && x < |s.edits| && !s.edits[x].done
    requires s.edits[x].epoch == s.epoch
    ensures Invariant(Succeeded(s, x)) && Succeeded(s, x).edits == s.edits
  {
    var t := Succeeded(s, x);
    FewerMarks(s, t);
  }

  lemma FailedMarks(s: State, x: nat)
    requires Invariant(s) && x < |s.edits| && !s.edits[x].done && s.edits[x].epoch == s.epoch
    ensures MarksRight(FailedEdit(s, x))
  {
    hide LoadsRight, QuietLoads, RechecksRight;
    var t := FailedEdit(s, x);
    forall v | v in t.marks
      ensures MarkRight(t, v)
    {
      if v in s.marks && t.marks[v].save == s.marks[v].save {
        assert MarkRight(s, v);
        SameMark(s, t, v);
      }
    }
  }

  lemma FailedKeeps(s: State, x: nat)
    requires Invariant(s) && x < |s.edits| && !s.edits[x].done && s.edits[x].epoch == s.epoch
    ensures Invariant(FailedEdit(s, x)) && FailedEdit(s, x).edits == s.edits
  {
    hide MarksRight;
    FailedMarks(s, x);
  }

  lemma ForgetKeeps(s: State)
    requires Invariant(s)
    ensures Invariant(Forget(s.(epoch := s.epoch + 1, modal := false)))
  {
  }

  lemma NextCallKeeps(s: State, x: nat, log: seq<Sent>)
    requires Invariant(s) && x < |s.edits| && !s.edits[x].done && s.edits[x].calls > 1
    ensures Invariant(s.(edits := s.edits[x := s.edits[x].(calls := s.edits[x].calls - 1)], log := log))
  {
    var t := s.(edits := s.edits[x := s.edits[x].(calls := s.edits[x].calls - 1)], log := log);
    forall v | v in t.marks
      ensures MarkRight(t, v)
    {
      assert MarkRight(s, v);
      SameMark(s, t, v);
    }
  }

  lemma ReplyKeeps(s: State, x: nat, outcome: Outcome)
    requires Invariant(s) && x < |s.edits| && !s.edits[x].done
    ensures Invariant(ReplyFor(s, x, outcome))
  {
    hide Invariant, Finish, Succeeded, FailedEdit;
    var e := s.edits[x];
    if e.epoch != s.epoch {
      FinishKeeps(s, x);
    } else {
      match outcome {
        case Good =>
          if e.kind.Saving? && e.calls > 1 {
            NextCallKeeps(s, x, s.log + [Sent(Saving, e.user, x)]);
          } else {
            SucceededKeeps(s, x);
            FinishKeeps(Succeeded(s, x), x);
          }
        case Unauthenticated =>
          ForgetKeeps(s);
          FinishKeeps(Forget(s.(epoch := s.epoch + 1, modal := false)), x);
        case Failed =>
          FailedKeeps(s, x);
          FinishKeeps(FailedEdit(s, x), x);
      }
    }
  }

  lemma DialogKeeps(s: State, modal: bool)
    requires Invariant(s) && !s.editing
    ensures Invariant(s.(epoch := s.epoch + 1, modal := modal))
  {
  }

  lemma StepKeeps(s: State, e: Event)
    requires Invariant(s)
    ensures Invariant(Step(s, e))
  {
    hide Invariant, BeginLoad, SessionReadFor, UsersReadFor, Begin, BeginSave, BeginReset, ReplyFor;
    if Enabled(s, e) {
      match e {
        case StartLoad => BeginLoadKeeps(s);
        case SessionRead(n, identity, lost) => SessionReadKeeps(s, n, identity, lost);
        case UsersRead(n, outcome) => UsersReadKeeps(s, n, outcome);
        case Open => DialogKeeps(s, true);
        case Close => DialogKeeps(s, false);
        case Create => BeginKeeps(s, Creating, 0);
        case Save(u, calls) => BeginSaveKeeps(s, u, calls);
        case Recheck(u) => BeginKeeps(s, Rechecking, u);
        case Approve(u) => BeginKeeps(s, Approving, u);
        case Reset(u) => BeginResetKeeps(s, u);
        case Reply(x, outcome) => ReplyKeeps(s, x, outcome);
      }
    }
  }

  lemma {:induction false} RunKeeps(events: seq<Event>)
    ensures Invariant(Run(START, events))
    decreases |events|
  {
    if events != [] {
      hide Invariant, Step;
      var last := |events| - 1;
      RunKeeps(events[..last]);
      StepKeeps(Run(START, events[..last]), events[last]);
    }
  }

  // ----- what that means

  /** How the mark of save o of user u may go while the session stays: by its own answer, or by a later reading of the list. */
  predicate Reason(s: State, e: Event, u: User, o: nat) {
    || (e.Reply? && Owns(s, e.edit, u, o) && e.outcome.Good?)
    || (e.Reply? && Owns(s, e.edit, u, o) && e.outcome.Failed? && MarkOf(Step(s, e), u).save.Some?)
    || (e.Reply? && e.edit < |s.edits| && s.edits[e.edit].kind.Rechecking? && s.edits[e.edit].user == u && e.outcome.Good?
        && SettledWhen(s.edits[e.edit].asked, o))
    || (e.UsersRead? && e.outcome.Good? && e.load < |s.loads| && s.loads[e.load].stage.AwaitUsers?
        && u in s.loads[e.load].stage.settled && s.loads[e.load].stage.settled[u] == o
        && SettledWhen(s.loads[e.load].stage.asked, o))
  }

  lemma ReplyRemoves(s: State, x: nat, outcome: Outcome, u: User)
    requires Invariant(s) && u in s.marks && s.marks[u].save.Some? && Enabled(s, Reply(x, outcome))
    requires ReplyFor(s, x, outcome).session == s.session && MarkOf(ReplyFor(s, x, outcome), u).save != s.marks[u].save
    requires s.session.Some?
    ensures Reason(s, Reply(x, outcome), u, s.marks[u].save.value)
  {
    assert MarkRight(s, u);
    hide MarksRight, LoadsRight, QuietLoads;
  }

  /** Main result: while the session stays, a mark goes only by its own save or by a list asked for after that had settled. */
  lemma MarkRemovedOnlyBy(s: State, e: Event, u: User)
    requires Invariant(s) && s.session.Some? && Step(s, e).session == s.session
    requires u in s.marks && s.marks[u].save.Some? && MarkOf(Step(s, e), u).save != s.marks[u].save
    ensures s.marks[u].save.value < |s.inFlight| && Reason(s, e, u, s.marks[u].save.value)
  {
    assert MarkRight(s, u);
    hide MarksRight, OneEdit, RunningMarked, QuietLoads, RechecksRight, ReplyFor;
    if e.Reply? && Enabled(s, e) {
      ReplyRemoves(s, e.edit, e.outcome, u);
    }
  }

  /** Main result: while a save is marked nothing is saved, approved or reset for that user but by the save itself. */
  lemma NothingElseSent(s: State, e: Event, i: nat)
    requires Invariant(s) && |s.log| <= i < |Step(s, e).log|
    ensures var sent := Step(s, e).log[i];
            && i == |s.log|
            && (sent.kind.Creating? || MarkOf(s, sent.user).save.None?
                || Owns(s, sent.edit, sent.user, MarkOf(s, sent.user).save.value))
  {
    hide MarksRight, LoadsRight, QuietLoads, RechecksRight, Settled, WithoutSave, Confirmed;
  }

  lemma FinishSettles(s: State, x: nat, o: nat)
    requires x < |s.edits| && o < |s.inFlight| && !s.inFlight[o]
    ensures o < |Finish(s, x).inFlight| && !Finish(s, x).inFlight[o]
  {
  }

  /** A request object that settled stays settled. */
  lemma SettledStays(s: State, e: Event, o: nat)
    requires o < |s.inFlight| && !s.inFlight[o]
    ensures o < |Step(s, e).inFlight| && !Step(s, e).inFlight[o]
  {
    hide Settled, WithoutSave, Confirmed, Finish, MarkOf;
    if e.Reply? && e.edit < |s.edits| {
      FinishSettles(s, e.edit, o);
      FinishSettles(Succeeded(s, e.edit), e.edit, o);
      FinishSettles(FailedEdit(s, e.edit), e.edit, o);
      FinishSettles(Forget(s.(epoch := s.epoch + 1, modal := false)), e.edit, o);
    }
  }
}
