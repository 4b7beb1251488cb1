/** What the tenant switch keeps when it is used from its menu, and exactly what goes wrong without. */
module TenantMenu {
  import opened TenantSwitch

  /** The menu of tenants is on the screen: the handler is called from nowhere else. */
  predicate MenuShown(s: State) {
    s.shown.Some? && s.shown.value.scope
  }

  /** A load of this epoch is under way that may still find another session than the current one. */
  predicate Exposed(s: State) {
    exists n :: 0 <= n < |s.loads| && Exposes(s, n)
  }

  predicate Exposes(s: State, n: nat)
    requires n < |s.loads|
  {
    && s.loads[n].epoch == s.epoch
    && (s.loads[n].stage.AwaitSession?
        || (s.loads[n].stage.AwaitScope? && Some(s.loads[n].stage.session) != s.currentSession))
  }

  lemma MenuMeansNotExposed(s: State)
    requires Invariant(s) && MenuShown(s)
    ensures !Exposed(s)
  {
    hide OperationRight, LoadsOrdered;
  }

  // ----- who owns the epoch

  /** A switch that is being checked in its own epoch is the operation, and no load can take that away. */
  predicate Owned(s: State, k: nat)
    requires k < |s.operations|
  {
    s.operations[k].stage.AwaitCheck? && s.operations[k].epoch == s.epoch ==>
      && s.operation == Some(k) && s.currentSession == Some(s.operations[k].source) && !Exposed(s)
  }

  predicate AllOwned(s: State) {
    forall k :: 0 <= k < |s.operations| ==> Owned(s, k)
  }

  /** In a new epoch nothing is being checked yet. */
  lemma NewEpochOwned(s: State, t: State)
    requires Invariant(s) && t.epoch > s.epoch && |t.operations| == |s.operations|
    requires forall k :: 0 <= k < |s.operations| ==> t.operations[k].epoch == s.operations[k].epoch
    ensures AllOwned(t)
  {
    forall k | 0 <= k < |t.operations|
      ensures Owned(t, k)
    {
      assert OperationRight(s, k);
    }
  }

  /** Nothing is checked that was not before, and nothing is exposed that was not before. */
  lemma SameEpochOwned(s: State, t: State)
    requires AllOwned(s) && t.epoch == s.epoch && |t.operations| == |s.operations| && t.currentSession == s.currentSession
    requires Exposed(t) ==> Exposed(s)
    requires forall k :: 0 <= k < |s.operations| ==> t.operations[k] == s.operations[k] || !t.operations[k].stage.AwaitCheck?
    requires t.operation == s.operation
             || (t.operation.None? && s.operation.Some? && s.operation.value < |t.operations|
                 && !t.operations[s.operation.value].stage.AwaitCheck?)
    ensures AllOwned(t)
  {
    forall k | 0 <= k < |t.operations|
      ensures Owned(t, k)
    {
      assert Owned(s, k);
    }
    hide Exposed;
  }

  lemma SameLoadsExposed(s: State, t: State)
    requires t.loads == s.loads && t.epoch == s.epoch && t.currentSession == s.currentSession
    ensures Exposed(t) == Exposed(s)
  {
    assert forall n :: 0 <= n < |s.loads| ==> Exposes(t, n) == Exposes(s, n);
  }

  /** A load that moves on exposes only if it did before. */
  lemma LoadMovesOwned(s: State, n: nat, load: Load)
    requires AllOwned(s) && n < |s.loads| && load.epoch == s.loads[n].epoch
    requires load.stage.Loaded? || (Exposes(s, n) || load.epoch != s.epoch)
    ensures AllOwned(s.(loads := s.loads[n := load]))
  {
    var t := s.(loads := s.loads[n := load]);
    if Exposed(t) {
      var m :| 0 <= m < |t.loads| && Exposes(t, m);
      assert m != n ==> Exposes(s, m);
    }
    hide Exposed;
    SameEpochOwned(s, t);
  }

  lemma ScopeReadOwned(s: State, n: nat, scopeValid: bool, notebooks: Option<seq<nat>>)
    requires Invariant(s) && AllOwned(s) && n < |s.loads| && s.loads[n].stage.AwaitScope?
    ensures AllOwned(ScopeReadFor(s, n, scopeValid, notebooks))
  {
    if s.loads[n].epoch != s.epoch {
      LoadMovesOwned(s, n, s.loads[n].(stage := Loaded));
    } else {
      var t := ScopeReadFor(s, n, scopeValid, notebooks);
      forall k | 0 <= k < |t.operations|
        ensures Owned(t, k)
      {
        assert Owned(s, k) && OperationRight(s, k);
        LatestExposes(s, n);
        LatestExposes(t, n);
      }
    }
  }

  /** Only the load of this epoch can expose. */
  lemma LatestExposes(s: State, n: nat)
    requires LoadsRight(s) && LoadsOrdered(s) && n < |s.loads| && s.loads[n].epoch == s.epoch
    ensures Exposed(s) <==> Exposes(s, n)
  {
    if Exposed(s) {
      var m :| 0 <= m < |s.loads| && Exposes(s, m);
      if m != n {
        LoadsApart(s, m, n);
      }
    }
  }

  lemma BeginSwitchOwned(s: State, target: nat)
    requires Invariant(s) && AllOwned(s) && !Exposed(s)
    ensures AllOwned(BeginSwitch(s, target))
  {
    var t := BeginSwitch(s, target);
    SameLoadsExposed(s, t);
    forall k | 0 <= k < |t.operations|
      ensures Owned(t, k)
    {
      if k < |s.operations| {
        assert Owned(s, k);
      }
    }
    hide Exposed;
  }

  lemma CheckedOwned(s: State, k: nat, session: Option<Session>)
    requires Invariant(s) && AllOwned(s) && k < |s.operations| && s.operations[k].stage.AwaitCheck?
    ensures AllOwned(CheckedFor(s, k, session))
  {
    var t := CheckedFor(s, k, session);
    assert OperationRight(s, k) && Owned(s, k);
    if t.epoch == s.epoch {
      SameLoadsExposed(s, t);
      SameEpochOwned(s, t);
    } else {
      NewEpochOwned(s, t);
    }
    hide Exposed, AllOwned, Invariant;
  }

  lemma RepliedOwned(s: State, k: nat, reply: Reply)
    requires Invariant(s) && AllOwned(s) && k < |s.operations| && s.operations[k].stage.AwaitReply?
    ensures AllOwned(RepliedFor(s, k, reply))
  {
    var t := RepliedFor(s, k, reply);
    if t.epoch == s.epoch {
      SameLoadsExposed(s, t);
      SameEpochOwned(s, t);
    } else {
      NewEpochOwned(s, t);
    }
    hide Exposed, AllOwned, Invariant;
  }

  lemma VerifiedOwned(s: State, n: nat, session: Option<Session>)
    requires Invariant(s) && AllOwned(s) && n < |s.creates| && s.creates[n].stage.AwaitVerified?
    ensures AllOwned(VerifiedFor(s, n, session))
  {
    var t := VerifiedFor(s, n, session);
    if t.epoch == s.epoch {
      SameLoadsExposed(s, t);
      SameEpochOwned(s, t);
    } else {
      NewEpochOwned(s, t);
    }
    hide Exposed, AllOwned, Invariant, Without;
  }

  /** A step keeps the ownership unless the switch is used while a load is exposed. */
  lemma StepOwned(s: State, e: Event)
    requires Invariant(s) && AllOwned(s) && (e.Switch? ==> !Exposed(s))
    ensures AllOwned(Step(s, e))
  {
    var t := Step(s, e);
    hide Invariant, AllOwned, Exposed, ScopeReadFor, CheckedFor, RepliedFor, BeginSwitch, VerifiedFor;
    if Enabled(s, e) {
      match e {
        case StartLoad => NewEpochOwned(s, t);
        case Conceal => NewEpochOwned(s, t);
        case SessionRead(n, session) => LoadMovesOwned(s, n, t.loads[n]);
        case ScopeRead(n, scopeValid, notebooks) => ScopeReadOwned(s, n, scopeValid, notebooks);
        case LoadAborted(n) => LoadMovesOwned(s, n, t.loads[n]);
        case Switch(target) => BeginSwitchOwned(s, target);
        case Checked(k, session) => CheckedOwned(s, k, session);
        case Replied(k, reply) => RepliedOwned(s, k, reply);
        case StartCreate => SameLoadsExposed(s, t); SameEpochOwned(s, t);
        case CreatedNow(n, notebook) => SameLoadsExposed(s, t); SameEpochOwned(s, t);
        case Verified(n, session) => VerifiedOwned(s, n, session);
      }
    }
  }

  // ----- runs in which the switch is used with no load exposed

  predicate Careful(s: State, events: seq<Event>) {
    forall i :: 0 <= i < |events| && events[i].Switch? ==> !Exposed(Run(s, events[..i]))
  }

  /** The switch is used only from its menu. */
  predicate FromMenu(s: State, events: seq<Event>) {
    forall i :: 0 <= i < |events| && events[i].Switch? ==> MenuShown(Run(s, events[..i]))
  }

  lemma {:induction false} CarefulKeeps(s: State, events: seq<Event>)
    requires Invariant(s) && AllOwned(s) && Careful(s, events)
    ensures Invariant(Run(s, events)) && AllOwned(Run(s, events))
    decreases |events|
  {
    hide Invariant, AllOwned, Step, Exposed;
    if events != [] {
      var last := |events| - 1;
      var before := events[..last];
      assert forall i :: 0 <= i < last ==> before[..i] == events[..i];
      assert events[..last] == before;
      CarefulKeeps(s, before);
      StepKeeps(Run(s, before), events[last]);
      StepOwned(Run(s, before), events[last]);
    }
  }

  lemma {:induction false} MenuIsCareful(events: seq<Event>)
    requires FromMenu(START, events)
    ensures Careful(START, events)
  {
    hide Invariant, Step, Exposed, MenuShown, Run;
    forall i | 0 <= i < |events| && events[i].Switch?
      ensures !Exposed(Run(START, events[..i]))
    {
      RunKeeps(events[..i]);
      MenuMeansNotExposed(Run(START, events[..i]));
    }
  }

  lemma MenuKeeps(events: seq<Event>)
    requires FromMenu(START, events)
    ensures Invariant(Run(START, events)) && AllOwned(Run(START, events))
  {
    MenuIsCareful(events);
    StartIsRight();
    hide Invariant, AllOwned, Careful, FromMenu;
    CarefulKeeps(START, events);
  }

  lemma StartIsRight()
    ensures Invariant(START) && AllOwned(START)
  {
  }

  // ----- one switch at a time

  /** A step that sends a switch which is not the operation, or not for the first time. */
  predicate Rogue(s: State, e: Event) {
    Step(s, e).sent != s.sent && !SendsOperation(s, e)
  }

  /** What is sent is the operation, checked in its own session, never sent before. */
  predicate SendsOperation(s: State, e: Event) {
    && e.Checked? && s.operation == Some(e.operation) && e.operation < |s.operations|
    && s.operations[e.operation].phase.Checking? && e.operation !in s.sent
    && e.session == Some(s.operations[e.operation].source)
    && Step(s, e).sent == s.sent + [e.operation] && Step(s, e).operation == s.operation
  }

  lemma SendsBy(s: State, e: Event)
    requires Step(s, e).sent != s.sent
    ensures e.Checked? && Enabled(s, e) && s.operations[e.operation].epoch == s.epoch
    ensures e.session == Some(s.operations[e.operation].source)
    ensures Step(s, e).sent == s.sent + [e.operation] && Step(s, e).operation == s.operation
  {
  }

  /** With every switch owned, only the operation is sent, and nothing while one is under way or of unknown result. */
  lemma OwnedIsNotRogue(s: State, e: Event)
    requires Invariant(s) && AllOwned(s)
    ensures !Rogue(s, e)
  {
    if Step(s, e).sent != s.sent {
      SendsBy(s, e);
      assert Owned(s, e.operation) && OperationRight(s, e.operation);
    }
    hide Step, ShownRight, LoadsRight, LoadsOrdered, Exposed;
  }

  /** Main result: used from its menu, the switch never sends anything but the operation, once, in its own session. */
  lemma NoSecondSwitch(events: seq<Event>, e: Event)
    requires FromMenu(START, events)
    ensures !Rogue(Run(START, events), e)
  {
    hide FromMenu, Run, Rogue, Invariant, AllOwned;
    MenuKeeps(events);
    OwnedIsNotRogue(Run(START, events), e);
  }

  predicate Reason(s: State, e: Event, k: nat)
    requires k < |s.operations|
  {
    || (e.Replied? && e.operation == k && !e.reply.Unclear?)
    || (e.Checked? && e.operation == k && k !in s.sent)
    || (e.ScopeRead? && e.scopeValid && e.load < |s.loads| && s.loads[e.load].epoch == s.epoch && s.loads[e.load].answer.Some?
        && (s.loads[e.load].answer != Some(s.operations[k].source)
            || (s.loads[e.load].verifying == Some(k) && s.loads[e.load].atStart == Some((k, Unknown)))))
  }

  lemma LetGoBy(s: State, e: Event)
    requires s.operation.Some? && Step(s, e).operation != s.operation
    ensures Enabled(s, e) && (e.Checked? || e.Replied? || e.ScopeRead?)
    ensures e.Checked? ==> s.operation == Some(e.operation) || s.operations[e.operation].epoch == s.epoch
    ensures e.Replied? ==> s.operation == Some(e.operation) && !e.reply.Unclear?
    ensures e.ScopeRead? ==> e.scopeValid && s.loads[e.load].epoch == s.epoch && Confirms(s, e.load, s.loads[e.load].stage.session)
  {
  }

  /**
   * Main result: used from its menu, an operation is let go only by its own answer, by a check after which nothing was sent,
   * or by an own-session read of this epoch that shows another session or was started when the result was already unknown.
   */
  lemma DropReasons(events: seq<Event>, e: Event)
    requires FromMenu(START, events) && Run(START, events).operation.Some?
    requires Step(Run(START, events), e).operation != Run(START, events).operation
    ensures var s := Run(START, events); s.operation.value < |s.operations| && Reason(s, e, s.operation.value)
  {
    hide FromMenu, Run, Step, Invariant, AllOwned, Reason;
    MenuKeeps(events);
    OwnedDropReasons(Run(START, events), e);
  }

  lemma OwnedDropReasons(s: State, e: Event)
    requires Invariant(s) && AllOwned(s) && s.operation.Some? && Step(s, e).operation != s.operation
    ensures s.operation.value < |s.operations| && Reason(s, e, s.operation.value)
  {
    LetGoBy(s, e);
    if e.Checked? {
      assert Owned(s, e.operation) && OperationRight(s, e.operation);
    }
    hide Step, ShownRight, LoadsOrdered, Exposed;
  }

  // ----- and exactly when that is lost

  /** A run after which a switch that is not the operation is sent. */
  ghost predicate GoesRogue(s: State, events: seq<Event>, e: Event) {
    Careful(s, events) && Rogue(Run(s, events), e)
  }

  lemma TwoEvents(s: State, a: Event, b: Event)
    ensures Run(s, [a]) == Step(s, a) && Run(s, [a, b]) == Step(Step(s, a), b)
    ensures Run(s, []) == s
  {
    assert [a][..0] == [] && [a, b][..1] == [a];
    hide Step;
  }

  /** The exposed load finds another session and lets the operation go; the check then sends it all the same. */
  lemma ExposedGoesRogue(s: State, target: nat) returns (events: seq<Event>, e: Event)
    requires Invariant(s) && s.operation.None? && s.currentSession.Some? && Exposed(s)
    ensures GoesRogue(Step(s, Switch(target)), events, e)
  {
    var n :| 0 <= n < |s.loads| && Exposes(s, n);
    var t, k := Step(s, Switch(target)), |s.operations|;
    var other := s.currentSession.value + 1;
    e := Checked(k, s.currentSession);
    TwoEvents(t, SessionRead(n, Some(other)), ScopeRead(n, true, None));
    TwoEvents(t, ScopeRead(n, true, None), e);
    hide Run, Invariant;
    if s.loads[n].stage.AwaitSession? {
      events := [SessionRead(n, Some(other)), ScopeRead(n, true, None)];
      var u := Step(t, events[0]);
      assert u.loads[n].stage == AwaitScope(other);
      LetsGo(u, n, k, other);
    } else {
      events := [ScopeRead(n, true, None)];
      LetsGo(t, n, k, t.loads[n].stage.session);
    }
  }

  lemma LetsGo(s: State, n: nat, k: nat, other: Session)
    requires n < |s.loads| && s.loads[n].epoch == s.epoch && s.loads[n].stage == AwaitScope(other)
    requires k < |s.operations| && s.operation == Some(k) && s.operations[k].source != other
    requires s.operations[k].stage.AwaitCheck? && s.operations[k].epoch == s.epoch
    ensures Rogue(Step(s, ScopeRead(n, true, None)), Checked(k, Some(s.operations[k].source)))
  {
  }

  /**
   * Main result: when the switch is used in a reachable state, something that is not the operation can be sent later, with
   * every further use careful, exactly if a load of this epoch may still find another session. The menu rules that out.
   */
  lemma RogueExactlyWhenExposed(s: State, target: nat)
    requires Invariant(s) && AllOwned(s) && s.operation.None? && s.currentSession.Some?
    ensures (exists events, e :: GoesRogue(Step(s, Switch(target)), events, e)) <==> Exposed(s)
    ensures MenuShown(s) ==> !Exposed(s)
  {
    var t := Step(s, Switch(target));
    hide Rogue, Run;
    if Exposed(s) {
      var events, e := ExposedGoesRogue(s, target);
    } else {
      StepKeeps(s, Switch(target));
      StepOwned(s, Switch(target));
      forall events, e
        ensures !GoesRogue(t, events, e)
      {
        if Careful(t, events) {
          CarefulKeeps(t, events);
          OwnedIsNotRogue(Run(t, events), e);
        }
      }
    }
    if MenuShown(s) {
      MenuMeansNotExposed(s);
    }
    hide Invariant, AllOwned, Exposed, Step, Careful;
  }

  // ----- a run without the menu in which two switches are on the wire

  const TWO: seq<Event> := [StartLoad, SessionRead(0, Some(1)), ScopeRead(0, true, Some([])), StartLoad, Switch(9),
                            SessionRead(1, Some(2)), ScopeRead(1, true, Some([])), Switch(8), Checked(0, Some(1)), Checked(1, Some(2))]

  lemma RunsOn(s: State, events: seq<Event>, e: Event)
    ensures Run(s, events + [e]) == Step(Run(s, events), e)
  {
    assert (events + [e])[..|events|] == events;
  }

  const LOADED := State(1, None, [], Some(1), Some(Shown(0, 1, true, [])), [Load(1, None, None, Some(1), Loaded)], [], [])

  const FIRST := Operation(1, 9, 2, Checking, AwaitCheck)

  const OVERTAKEN := LOADED.(epoch := 2, shown := Some(Shown(1, 2, true, [])), currentSession := Some(2), operations := [FIRST],
                             loads := [LOADED.loads[0], Load(2, None, None, Some(2), Loaded)])

  lemma FirstThree()
    ensures Step(Step(Step(START, TWO[0]), TWO[1]), TWO[2]) == LOADED
  {
    assert Tagged([], 1) == [];
  }

  lemma NextFour()
    ensures Step(Step(Step(Step(LOADED, TWO[3]), TWO[4]), TWO[5]), TWO[6]) == OVERTAKEN
  {
    assert Tagged([], 2) == [];
    var s := Step(Step(LOADED, TWO[3]), TWO[4]);
    assert s == LOADED.(epoch := 2, shown := None, operation := Some(0), operations := [FIRST],
                        loads := [LOADED.loads[0], Load(2, None, None, None, AwaitSession)]);
  }

  lemma LastThree()
    ensures Step(Step(Step(OVERTAKEN, TWO[7]), TWO[8]), TWO[9]).sent == [0, 1]
  {
  }

  /** Called while a load was under way, the handler sends two switches, the first no longer being the operation. */
  lemma TwoSwitchesCanBeSent()
    ensures Run(START, TWO).sent == [0, 1]
  {
    var e := TWO;
    assert e[..1] == [] + [e[0]] && e[..2] == e[..1] + [e[1]] && e[..3] == e[..2] + [e[2]] && e[..4] == e[..3] + [e[3]];
    assert e[..5] == e[..4] + [e[4]] && e[..6] == e[..5] + [e[5]] && e[..7] == e[..6] + [e[6]] && e[..8] == e[..7] + [e[7]];
    assert e[..9] == e[..8] + [e[8]] && e == e[..9] + [e[9]] && Run(START, []) == START;
    hide Step;
    forall i | 0 <= i < 9
      ensures Run(START, e[..i] + [e[i]]) == Step(Run(START, e[..i]), e[i])
    {
      RunsOn(START, e[..i], e[i]);
    }
    RunsOn(START, e[..9], e[9]);
    hide Run;
    FirstThree();
    NextFour();
    LastThree();
  }
}
