/** The notebook home: loads that may be overtaken, and a tenant switch whose result may stay unknown. */
module TenantSwitch {

  datatype Option<T> = None | Some(value: T)

  /** Sessions are compared by all their fields; here they are numbered, and each belongs to a user. */
  type Session = nat

  datatype Phase = Checking | Sending | Unknown

  /** Where handleSwitchTenant waits: for the session check, for the reply, or nowhere any more. */
  datatype SwitchStage = AwaitCheck | AwaitReply | Over

  /** One use of handleSwitchTenant. */
  datatype Operation = Operation(source: Session, target: nat, epoch: nat, phase: Phase, stage: SwitchStage)

  datatype LoadStage = AwaitSession | AwaitScope(session: Session) | Loaded

  /**
   * A load with the operation it may confirm. For the proof it also keeps the operation and its phase as they were when
   * the load started, and the session it has read.
   */
  datatype Load = Load(epoch: nat, verifying: Option<nat>, atStart: Option<(nat, Phase)>, answer: Option<Session>, stage: LoadStage)

  datatype CreateStage = AwaitCreated | AwaitVerified(notebook: nat) | Created

  datatype Create = Create(epoch: nat, source: Session, stage: CreateStage)

  /** A notebook and the session under which it was listed or created. */
  datatype Notebook = Notebook(id: nat, session: Session)

  /** What is on the screen: the load that brought it, its session, whether the menu of tenants is there, and the list. */
  datatype Shown = Shown(load: nat, session: Session, scope: bool, notebooks: seq<Notebook>)

  datatype State = State(epoch: nat, operation: Option<nat>, operations: seq<Operation>, currentSession: Option<Session>,
                         shown: Option<Shown>, loads: seq<Load>, creates: seq<Create>, sent: seq<nat>)

  /** The reply to a switch: done for the same user, refused for good, or anything else. */
  datatype Reply = Switched | Refused | Unclear

  datatype Event =
    | StartLoad
    | Conceal                                               // page hide
    | SessionRead(load: nat, session: Option<Session>)
    | ScopeRead(load: nat, scopeValid: bool, notebooks: Option<seq<nat>>)
    | LoadAborted(load: nat)                                // navigation away, or a failed read
    | Switch(target: nat)
    | Checked(operation: nat, session: Option<Session>)
    | Replied(operation: nat, reply: Reply)
    | StartCreate
    | CreatedNow(create: nat, notebook: Option<nat>)
    | Verified(create: nat, session: Option<Session>)

  // ----- loading

  function Put(s: State, k: nat, o: Operation): State
    requires k < |s.operations|
  {
    s.(operations := s.operations[k := o])
  }

  predicate IsUnknown(s: State) {
    s.operation.Some? && s.operation.value < |s.operations| && s.operations[s.operation.value].phase.Unknown?
  }

  function PhaseNow(s: State): Option<(nat, Phase)> {
    if s.operation.Some? && s.operation.value < |s.operations|
    then Some((s.operation.value, s.operations[s.operation.value].phase))
    else None
  }

  /** load, up to its first await. */
  function BeginLoad(s: State): State {
    var verifying := if IsUnknown(s) then s.operation else None;
    s.(epoch := s.epoch + 1, shown := None, loads := s.loads + [Load(s.epoch + 1, verifying, PhaseNow(s), None, AwaitSession)])
  }

  function EndLoad(s: State, n: nat, stage: LoadStage): State
    requires n < |s.loads|
  {
    s.(loads := s.loads[n := s.loads[n].(stage := stage)])
  }

  function SessionReadFor(s: State, n: nat, session: Option<Session>): State
    requires n < |s.loads|
  {
    if s.loads[n].epoch != s.epoch || session.None? then EndLoad(s, n, Loaded)
    else s.(loads := s.loads[n := s.loads[n].(answer := session, stage := AwaitScope(session.value))])
  }

  /** An own-session read lets the operation go if it shows another session or was started to confirm it. */
  predicate Confirms(s: State, n: nat, session: Session)
    requires n < |s.loads|
  {
    && s.operation.Some? && s.operation.value < |s.operations|
    && (session != s.operations[s.operation.value].source || s.loads[n].verifying == s.operation)
  }

  function Tagged(notebooks: seq<nat>, session: Session): (tagged: seq<Notebook>)
    ensures |tagged| == |notebooks| && forall i :: 0 <= i < |tagged| ==> tagged[i] == Notebook(notebooks[i], session)
  {
    seq(|notebooks|, i requires 0 <= i < |notebooks| => Notebook(notebooks[i], session))
  }

  function ScopeReadFor(s: State, n: nat, scopeValid: bool, notebooks: Option<seq<nat>>): State
    requires n < |s.loads| && s.loads[n].stage.AwaitScope?
  {
    if s.loads[n].epoch != s.epoch then EndLoad(s, n, Loaded)
    else
      var session := s.loads[n].stage.session;
      var listed := if scopeValid && notebooks.Some? then Tagged(notebooks.value, session) else [];
      EndLoad(s, n, Loaded).(currentSession := Some(session), shown := Some(Shown(n, session, scopeValid, listed)),
                             operation := if scopeValid && Confirms(s, n, session) then None else s.operation)
  }

  // ----- switching

  /** handleSwitchTenant, up to its session check; it does not itself look at what is shown. */
  function BeginSwitch(s: State, target: nat): State {
    if s.operation.Some? || s.currentSession.None? then s
    else
      s.(operation := Some(|s.operations|),
         operations := s.operations + [Operation(s.currentSession.value, target, s.epoch, Checking, AwaitCheck)])
  }

  function Release(s: State, k: nat): State {
    if s.operation == Some(k) then s.(operation := None) else s
  }

  /** handleSwitchTenant after its session check; a failed check has no session. */
  function CheckedFor(s: State, k: nat, session: Option<Session>): State
    requires k < |s.operations|
  {
    var o := s.operations[k];
    var over := Put(s, k, o.(stage := Over));
    if session.None? then
      if s.operation != Some(k) then over
      else if o.epoch != s.epoch then Release(over, k)
      else BeginLoad(Release(over, k))
    else if o.epoch != s.epoch then if o.phase.Checking? then Release(over, k) else over
    else if session.value != o.source then BeginLoad(over.(operation := None))
    else Put(s, k, o.(phase := Sending, stage := AwaitReply)).(sent := s.sent + [k])
  }

  /** handleSwitchTenant after the reply to what it sent. */
  function RepliedFor(s: State, k: nat, reply: Reply): State
    requires k < |s.operations|
  {
    var o := s.operations[k];
    var over := Put(s, k, o.(stage := Over));
    if s.operation != Some(k) then over
    else match reply
      case Switched => over.(operation := None, epoch := s.epoch + 1, shown := None)
      case Refused => over.(operation := None)
      case Unclear =>
        var unknown := Put(s, k, o.(stage := Over, phase := if o.phase.Sending? then Unknown else o.phase));
        if o.epoch != s.epoch then unknown else BeginLoad(unknown)
  }

  // ----- creating

  function BeginCreate(s: State): State {
    if s.shown.None? || s.currentSession != Some(s.shown.value.session) || s.operation.Some? then s
    else s.(creates := s.creates + [Create(s.epoch, s.shown.value.session, AwaitCreated)])
  }

  function EndCreate(s: State, n: nat, stage: CreateStage): State
    requires n < |s.creates|
  {
    s.(creates := s.creates[n := s.creates[n].(stage := stage)])
  }

  function CreatedFor(s: State, n: nat, notebook: Option<nat>): State
    requires n < |s.creates|
  {
    var c := s.creates[n];
    if notebook.None? || c.epoch != s.epoch || Some(c.source) != s.currentSession then EndCreate(s, n, Created)
    else EndCreate(s, n, AwaitVerified(notebook.value))
  }

  function Without(notebooks: seq<Notebook>, id: nat): (rest: seq<Notebook>)
    ensures forall x :: x in rest ==> x in notebooks
  {
    if notebooks == [] then []
    else (if notebooks[0].id == id then [] else [notebooks[0]]) + Without(notebooks[1..], id)
  }

  function VerifiedFor(s: State, n: nat, session: Option<Session>): State
    requires n < |s.creates| && s.creates[n].stage.AwaitVerified?
  {
    var c, over := s.creates[n], EndCreate(s, n, Created);
    if session.None? then over
    else if c.epoch != s.epoch || Some(c.source) != s.currentSession || c.source != session.value then
      if c.epoch == s.epoch then BeginLoad(over) else over
    else if s.shown.None? then over
    else
      var listed := [Notebook(c.stage.notebook, c.source)] + Without(s.shown.value.notebooks, c.stage.notebook);
      over.(shown := Some(s.shown.value.(notebooks := listed)))
  }

  predicate Enabled(s: State, e: Event) {
    match e
    case SessionRead(n, _) => n < |s.loads| && s.loads[n].stage.AwaitSession?
    case ScopeRead(n, _, _) => n < |s.loads| && s.loads[n].stage.AwaitScope?
    case LoadAborted(n) => n < |s.loads| && !s.loads[n].stage.Loaded?
    case Checked(k, _) => k < |s.operations| && s.operations[k].stage.AwaitCheck?
    case Replied(k, _) => k < |s.operations| && s.operations[k].stage.AwaitReply?
    case CreatedNow(n, _) => n < |s.creates| && s.creates[n].stage.AwaitCreated?
    case Verified(n, _) => n < |s.creates| && s.creates[n].stage.AwaitVerified?
    case _ => true
  }

  function Step(s: State, e: Event): State {
    if !Enabled(s, e) then s
    else match e
      case StartLoad => BeginLoad(s)
      case Conceal => s.(epoch := s.epoch + 1, shown := None)
      case SessionRead(n, session) => SessionReadFor(s, n, session)
      case ScopeRead(n, scopeValid, notebooks) => ScopeReadFor(s, n, scopeValid, notebooks)
      case LoadAborted(n) => EndLoad(s, n, Loaded)
      case Switch(target) => BeginSwitch(s, target)
      case Checked(k, session) => CheckedFor(s, k, session)
      case Replied(k, reply) => RepliedFor(s, k, reply)
      case StartCreate => BeginCreate(s)
      case CreatedNow(n, notebook) => CreatedFor(s, n, notebook)
      case Verified(n, session) => VerifiedFor(s, n, session)
  }

  function Run(s: State, events: seq<Event>): State {
    if events == [] then s
    else
      var last := |events| - 1;
      Step(Run(s, events[..last]), events[last])
  }

  const START := State(0, None, [], None, None, [], [], [])

  // ----- what every run keeps

  predicate Busy(l: Load) {
    !l.stage.Loaded?
  }

  /** What is shown was brought by the load of this epoch and is of the session it read, which is the current one. */
  predicate ShownRight(s: State) {
    s.shown.Some? ==>
      && s.shown.value.load < |s.loads| && s.loads[s.shown.value.load].epoch == s.epoch
      && s.loads[s.shown.value.load].answer == Some(s.shown.value.session)
      && s.currentSession == Some(s.shown.value.session)
      && forall x :: x in s.shown.value.notebooks ==> x.session == s.shown.value.session
  }

  /** A load confirms only what was unknown when it started; while one of this epoch is under way nothing is shown. */
  predicate LoadsRight(s: State) {
    forall n :: 0 <= n < |s.loads| ==>
      && s.loads[n].epoch <= s.epoch
      && (s.loads[n].verifying.Some? ==>
            && s.loads[n].atStart == Some((s.loads[n].verifying.value, Unknown))
            && s.loads[n].verifying.value < |s.operations| && s.operations[s.loads[n].verifying.value].phase.Unknown?)
      && (s.loads[n].stage.AwaitScope? ==> s.loads[n].answer == Some(s.loads[n].stage.session))
      && (Busy(s.loads[n]) && s.loads[n].epoch == s.epoch ==> s.shown.None?)
  }

  /** Every load starts an epoch of its own. */
  predicate LoadsOrdered(s: State) {
    forall m, n :: 0 <= m < n < |s.loads| ==> s.loads[m].epoch < s.loads[n].epoch
  }

  predicate OperationRight(s: State, k: nat)
    requires k < |s.operations|
  {
    var o := s.operations[k];
    && o.epoch <= s.epoch
    && (o.stage.AwaitCheck? ==> o.phase.Checking?)
    && (o.stage.AwaitReply? ==> o.phase.Sending?)
    && (o.stage.Over? && s.operation == Some(k) ==> o.phase.Unknown?)
    && (o.phase.Checking? ==> k !in s.sent)
  }

  predicate Invariant(s: State) {
    && ShownRight(s) && LoadsRight(s) && LoadsOrdered(s)
    && (forall k :: 0 <= k < |s.operations| ==> OperationRight(s, k))
    && (s.operation.Some? ==> s.operation.value < |s.operations|)
    && (forall i :: 0 <= i < |s.sent| ==> s.sent[i] < |s.operations|)
    && (forall i, j :: 0 <= i < j < |s.sent| ==> s.sent[i] != s.sent[j])
  }

  lemma BeginLoadKeeps(s: State)
    requires Invariant(s)
    ensures Invariant(BeginLoad(s))
  {
    var t := BeginLoad(s);
    forall k | 0 <= k < |t.operations|
      ensures OperationRight(t, k)
    {
      assert OperationRight(s, k);
    }
  }

  /** Leaving what is shown and starting a new epoch is always safe. */
  lemma ConcealKeeps(s: State)
    requires Invariant(s)
    ensures Invariant(s.(epoch := s.epoch + 1, shown := None))
  {
    var t := s.(epoch := s.epoch + 1, shown := None);
    forall k | 0 <= k < |t.operations|
      ensures OperationRight(t, k)
    {
      assert OperationRight(s, k);
    }
  }

  lemma LoadMoves(s: State, n: nat, load: Load)
    requires Invariant(s) && n < |s.loads| && Busy(s.loads[n])
    requires load == s.loads[n].(stage := load.stage, answer := load.answer)
    requires load.stage.AwaitScope? ==> load.answer == Some(load.stage.session)
    ensures Invariant(s.(loads := s.loads[n := load]))
  {
    var t := s.(loads := s.loads[n := load]);
    forall k | 0 <= k < |t.operations|
      ensures OperationRight(t, k)
    {
      assert OperationRight(s, k);
    }
  }

  lemma ScopeReadKeeps(s: State, n: nat, scopeValid: bool, notebooks: Option<seq<nat>>)
    requires Invariant(s) && n < |s.loads| && s.loads[n].stage.AwaitScope?
    ensures Invariant(ScopeReadFor(s, n, scopeValid, notebooks))
  {
    if s.loads[n].epoch != s.epoch {
      LoadMoves(s, n, s.loads[n].(stage := Loaded));
    } else {
      var t := ScopeReadFor(s, n, scopeValid, notebooks);
      assert Busy(s.loads[n]);
      forall k | 0 <= k < |t.operations|
        ensures OperationRight(t, k)
      {
        assert OperationRight(s, k);
      }
    }
  }

  /** One use of the switch moves on, and the operation stays or goes. */
  lemma OperationMoves(s: State, k: nat, o: Operation, operation: Option<nat>, sent: seq<nat>)
    requires Invariant(s) && k < |s.operations| && !s.operations[k].phase.Unknown?
    requires o.epoch == s.operations[k].epoch && (o.stage.AwaitReply? || o.stage.Over?)
    requires operation == s.operation || operation.None?
    requires o.stage.AwaitReply? ==> s.operations[k].stage.AwaitCheck? && o.phase.Sending? && sent == s.sent + [k]
    requires o.stage.Over? ==> sent == s.sent && (operation == Some(k) ==> o.phase.Unknown?)
    requires o.phase.Checking? ==> s.operations[k].phase.Checking?
    ensures Invariant(s.(operations := s.operations[k := o], operation := operation, sent := sent))
  {
    var t := s.(operations := s.operations[k := o], operation := operation, sent := sent);
    assert OperationRight(s, k);
    forall j | 0 <= j < |t.operations|
      ensures OperationRight(t, j)
    {
      assert OperationRight(s, j);
    }
  }

  lemma BeginSwitchKeeps(s: State, target: nat)
    requires Invariant(s)
    ensures Invariant(BeginSwitch(s, target))
  {
    var t := BeginSwitch(s, target);
    forall j | 0 <= j < |t.operations|
      ensures OperationRight(t, j)
    {
      if j < |s.operations| {
        assert OperationRight(s, j);
      }
    }
  }

  lemma CheckedKeeps(s: State, k: nat, session: Option<Session>)
    requires Invariant(s) && k < |s.operations| && s.operations[k].stage.AwaitCheck?
    ensures Invariant(CheckedFor(s, k, session))
  {
    var o := s.operations[k].(stage := Over);
    assert OperationRight(s, k);
    OperationMoves(s, k, o, None, s.sent);
    OperationMoves(s, k, s.operations[k].(phase := Sending, stage := AwaitReply), s.operation, s.sent + [k]);
    hide ShownRight, LoadsRight, LoadsOrdered, BeginLoad;
    BeginLoadKeeps(Put(s, k, o).(operation := None));
    if s.operation != Some(k) {
      OperationMoves(s, k, o, s.operation, s.sent);
    }
    hide Invariant, OperationRight;
  }

  lemma RepliedKeeps(s: State, k: nat, reply: Reply)
    requires Invariant(s) && k < |s.operations| && s.operations[k].stage.AwaitReply?
    ensures Invariant(RepliedFor(s, k, reply))
  {
    var o := s.operations[k].(stage := Over);
    assert OperationRight(s, k);
    hide ShownRight, LoadsRight, LoadsOrdered, BeginLoad;
    OperationMoves(s, k, o, None, s.sent);
    OperationMoves(s, k, o.(phase := Unknown), s.operation, s.sent);
    ConcealKeeps(Put(s, k, o).(operation := None));
    BeginLoadKeeps(Put(s, k, o.(phase := Unknown)));
    if s.operation != Some(k) {
      OperationMoves(s, k, o, s.operation, s.sent);
    }
    hide Invariant, OperationRight;
  }

  lemma CreatesKeep(s: State, creates: seq<Create>, shown: Option<Shown>)
    requires Invariant(s) && (shown == s.shown || (s.shown.Some? && shown.Some? && ShownRight(s.(shown := shown))))
    ensures Invariant(s.(creates := creates, shown := shown))
  {
    var t := s.(creates := creates, shown := shown);
    forall j | 0 <= j < |t.operations|
      ensures OperationRight(t, j)
    {
      assert OperationRight(s, j);
    }
  }

  lemma VerifiedKeeps(s: State, n: nat, session: Option<Session>)
    requires Invariant(s) && n < |s.creates| && s.creates[n].stage.AwaitVerified?
    ensures Invariant(VerifiedFor(s, n, session))
  {
    var t := VerifiedFor(s, n, session);
    var over := EndCreate(s, n, Created);
    CreatesKeep(s, over.creates, s.shown);
    BeginLoadKeeps(over);
    hide BeginLoad, LoadsRight, LoadsOrdered;
    if t.epoch == s.epoch {
      CreatesKeep(s, t.creates, t.shown);
    }
    hide Invariant;
  }

  lemma StepKeeps(s: State, e: Event)
    requires Invariant(s)
    ensures Invariant(Step(s, e))
  {
    hide Invariant, BeginLoad, ScopeReadFor, CheckedFor, RepliedFor, BeginSwitch, VerifiedFor;
    if Enabled(s, e) {
      match e {
        case StartLoad => BeginLoadKeeps(s);
        case Conceal => ConcealKeeps(s);
        case SessionRead(n, session) => LoadMoves(s, n, SessionReadFor(s, n, session).loads[n]);
        case ScopeRead(n, scopeValid, notebooks) => ScopeReadKeeps(s, n, scopeValid, notebooks);
        case LoadAborted(n) => LoadMoves(s, n, s.loads[n].(stage := Loaded));
        case Switch(target) => BeginSwitchKeeps(s, target);
        case Checked(k, session) => CheckedKeeps(s, k, session);
        case Replied(k, reply) => RepliedKeeps(s, k, reply);
        case StartCreate => CreatesKeep(s, BeginCreate(s).creates, s.shown);
        case CreatedNow(n, notebook) => CreatesKeep(s, CreatedFor(s, n, notebook).creates, s.shown);
        case Verified(n, session) => VerifiedKeeps(s, n, session);
      }
    }
  }

  lemma {:induction false} RunKeeps(events: seq<Event>)
    ensures Invariant(Run(START, events))
    decreases |events|
  {
    if events != [] {
      hide Invariant, Step;
      var last := |events| - 1;
      RunKeeps(events[..last]);
      StepKeeps(Run(START, events[..last]), events[last]);
    }
  }

  // ----- what is shown

  predicate IsLatest(s: State, n: nat) {
    n < |s.loads| && s.loads[n].epoch == s.epoch && forall m :: 0 <= m < |s.loads| && m != n ==> s.loads[m].epoch < s.epoch
  }

  lemma CurrentIsLatest(s: State, n: nat)
    requires Invariant(s) && n < |s.loads| && s.loads[n].epoch == s.epoch
    ensures IsLatest(s, n)
  {
    hide ShownRight, OperationRight;
    forall m | 0 <= m < |s.loads| && m != n
      ensures s.loads[m].epoch < s.epoch
    {
      LoadsApart(s, m, n);
    }
  }

  lemma LoadsApart(s: State, m: nat, n: nat)
    requires LoadsRight(s) && LoadsOrdered(s) && m < |s.loads| && n < |s.loads| && m != n && s.loads[n].epoch == s.epoch
    ensures s.loads[m].epoch < s.epoch
  {
    if n < m {
      assert s.loads[n].epoch < s.loads[m].epoch;
    }
  }

  /** What a step puts on the screen or takes for the current session. */
  predicate Installs(s: State, t: State) {
    (t.shown.Some? && t.shown != s.shown) || t.currentSession != s.currentSession
  }

  /** A create that was verified in the session and the epoch in which it began. */
  predicate VerifiedInTime(s: State, e: Event) {
    && e.Verified? && e.create < |s.creates| && s.creates[e.create].epoch == s.epoch
    && s.currentSession == Some(s.creates[e.create].source) && e.session == s.currentSession
  }

  /** Main result: only the latest load, with the session it has read itself, shows anything or changes the session. */
  lemma OnlyLatestInstalls(s: State, e: Event)
    requires Invariant(s) && Installs(s, Step(s, e))
    ensures var t := Step(s, e);
            || (e.ScopeRead? && IsLatest(s, e.load) && t.shown.Some? && t.shown.value.load == e.load
                && t.currentSession == s.loads[e.load].answer == Some(t.shown.value.session))
            || (VerifiedInTime(s, e) && s.shown.Some? && t.shown.Some? && t.shown.value.load == s.shown.value.load
                && t.currentSession == s.currentSession)
  {
    InstallsBy(s, e);
    if e.ScopeRead? {
      CurrentIsLatest(s, e.load);
      assert s.loads[e.load].answer == Some(s.loads[e.load].stage.session);
    }
    hide BeginLoad, Tagged, Without, ShownRight, OperationRight, LoadsOrdered, LoadsRight;
  }

  lemma InstallsBy(s: State, e: Event)
    requires Installs(s, Step(s, e))
    ensures (e.ScopeRead? && Enabled(s, e) && s.loads[e.load].epoch == s.epoch) || VerifiedInTime(s, e)
  {
  }

  /** Only the latest load goes on to ask for the tenants and the notebooks. */
  lemma OnlyLatestAsks(s: State, e: Event, n: nat)
    requires Invariant(s) && n < |s.loads| && !s.loads[n].stage.AwaitScope?
    requires n < |Step(s, e).loads| && Step(s, e).loads[n].stage.AwaitScope?
    ensures e.SessionRead? && e.load == n && IsLatest(s, n) && Step(s, e).loads[n].stage.session == e.session.value
  {
    AsksBy(s, e, n);
    CurrentIsLatest(s, n);
    hide Invariant;
  }

  lemma AsksBy(s: State, e: Event, n: nat)
    requires n < |s.loads| && !s.loads[n].stage.AwaitScope? && n < |Step(s, e).loads| && Step(s, e).loads[n].stage.AwaitScope?
    ensures e.SessionRead? && e.load == n && s.loads[n].epoch == s.epoch && e.session == Some(Step(s, e).loads[n].stage.session)
  {
  }

  /** Main result: over every run, what is shown is from the load of this epoch, and of the current session throughout. */
  lemma {:induction false} ShownIsCurrent(events: seq<Event>)
    ensures var s := Run(START, events);
            s.shown.Some? ==> IsLatest(s, s.shown.value.load) && ShownRight(s)
  {
    RunKeeps(events);
    var s := Run(START, events);
    hide Run;
    if s.shown.Some? {
      CurrentIsLatest(s, s.shown.value.load);
    }
    hide LoadsRight, LoadsOrdered, OperationRight;
  }

  /** Main result: every use of the switch sends at most once. */
  lemma SentAtMostOnce(events: seq<Event>, i: nat, j: nat)
    requires i < |Run(START, events).sent| && j < |Run(START, events).sent|
    ensures Run(START, events).sent[i] == Run(START, events).sent[j] ==> i == j
  {
    RunKeeps(events);
    hide Run, ShownRight, LoadsRight, LoadsOrdered, OperationRight;
  }
}
