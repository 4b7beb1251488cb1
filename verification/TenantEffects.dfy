/** What each event of the notebook home does: when a switch is sent, kept unknown or let go, and what a load shows. */
module TenantEffects {
  import opened TenantSwitch

  // ----- letting go of a switch

  /** A load that started while the operation was unknown is one that confirms it. */
  predicate ConfirmingRight(s: State) {
    forall n :: 0 <= n < |s.loads| ==>
      match s.loads[n].atStart
      case Some((k, Unknown)) => s.loads[n].verifying == Some(k)
      case _ => true
  }

  /** Loads keep what they were started with, and a new one confirms the operation exactly if that is unknown now. */
  predicate LoadsKept(s: State, t: State) {
    && |s.loads| <= |t.loads|
    && (forall n :: 0 <= n < |s.loads| ==>
          t.loads[n].atStart == s.loads[n].atStart && t.loads[n].verifying == s.loads[n].verifying)
    && (forall n :: |s.loads| <= n < |t.loads| && t.loads[n].atStart.Some? && t.loads[n].atStart.value.1.Unknown? ==>
          t.loads[n].verifying == Some(t.loads[n].atStart.value.0))
  }

  lemma StepKeepsLoads(s: State, e: Event)
    ensures LoadsKept(s, Step(s, e))
  {
    hide BeginLoad, Tagged, Without;
    BeginLoadKeepsLoads(s, s);
    if Enabled(s, e) {
      match e {
        case Checked(k, session) => CheckedKeepsLoads(s, k, session);
        case Replied(k, reply) => RepliedKeepsLoads(s, k, reply);
        case Verified(n, session) => BeginLoadKeepsLoads(s, EndCreate(s, n, Created));
        case _ =>
      }
    }
  }

  lemma BeginLoadKeepsLoads(s: State, t: State)
    requires t.loads == s.loads
    ensures LoadsKept(s, BeginLoad(t))
  {
  }

  lemma CheckedKeepsLoads(s: State, k: nat, session: Option<Session>)
    requires k < |s.operations|
    ensures LoadsKept(s, CheckedFor(s, k, session))
  {
    hide BeginLoad;
    var over := Put(s, k, s.operations[k].(stage := Over));
    BeginLoadKeepsLoads(s, Release(over, k));
    BeginLoadKeepsLoads(s, over.(operation := None));
  }

  lemma RepliedKeepsLoads(s: State, k: nat, reply: Reply)
    requires k < |s.operations|
    ensures LoadsKept(s, RepliedFor(s, k, reply))
  {
    hide BeginLoad;
    var o := s.operations[k];
    BeginLoadKeepsLoads(s, Put(s, k, o.(stage := Over, phase := if o.phase.Sending? then Unknown else o.phase)));
  }

  lemma {:induction false} RunKeepsConfirming(events: seq<Event>)
    ensures ConfirmingRight(Run(START, events))
    decreases |events|
  {
    if events != [] {
      hide Step;
      var last := |events| - 1;
      RunKeepsConfirming(events[..last]);
      StepKeepsLoads(Run(START, events[..last]), events[last]);
    }
  }

  /** What the load read of its own session speaks for letting the operation go. */
  predicate Speaks(s: State, n: nat)
    requires n < |s.loads| && s.operation.Some? && s.operation.value < |s.operations|
  {
    || s.loads[n].answer != Some(s.operations[s.operation.value].source)
    || s.loads[n].atStart == Some((s.operation.value, Unknown))
  }

  /**
   * Main result: in every run a load lets the operation go exactly if it is the current one, has a valid scope, and has read
   * another session than the operation's or was started when the result of that very operation was unknown.
   */
  lemma LoadLetsGoExactlyWhen(events: seq<Event>, n: nat, scopeValid: bool, notebooks: Option<seq<nat>>)
    requires var s := Run(START, events); Enabled(s, ScopeRead(n, scopeValid, notebooks)) && s.operation.Some?
    ensures var s := Run(START, events);
            var t := Step(s, ScopeRead(n, scopeValid, notebooks));
            && Invariant(s)
            && (t.operation.None? <==> s.loads[n].epoch == s.epoch && scopeValid && Speaks(s, n))
            && (t.operation.Some? ==> t.operation == s.operation)
            && t.operations == s.operations && t.sent == s.sent
  {
    RunKeeps(events);
    RunKeepsConfirming(events);
    LetsGo(Run(START, events), n, scopeValid, notebooks);
    hide Run, Step, Invariant;
  }

  lemma LetsGo(s: State, n: nat, scopeValid: bool, notebooks: Option<seq<nat>>)
    requires Invariant(s) && ConfirmingRight(s) && Enabled(s, ScopeRead(n, scopeValid, notebooks)) && s.operation.Some?
    ensures var t := Step(s, ScopeRead(n, scopeValid, notebooks));
            && (t.operation.None? <==> s.loads[n].epoch == s.epoch && scopeValid && Speaks(s, n))
            && (t.operation.Some? ==> t.operation == s.operation)
            && t.operations == s.operations && t.sent == s.sent
  {
    hide ShownRight, LoadsOrdered, OperationRight, Tagged;
  }

  // ----- loading

  /** A load takes the next epoch, takes what is shown off the screen, and remembers the operation as it is. */
  predicate LoadBegun(s: State, t: State) {
    && t == s.(epoch := t.epoch, shown := None, loads := t.loads) && t.epoch == s.epoch + 1
    && |t.loads| == |s.loads| + 1 && t.loads[..|s.loads|] == s.loads
    && var l := t.loads[|s.loads|];
       && l.epoch == t.epoch && l.stage.AwaitSession? && l.answer.None?
       && (s.operation.Some? && s.operation.value < |s.operations| ==>
             l.atStart == Some((s.operation.value, s.operations[s.operation.value].phase)))
       && (s.operation.None? ==> l.atStart.None?)
  }

  lemma StartLoadBegins(s: State)
    ensures LoadBegun(s, Step(s, StartLoad))
  {
  }

  lemma BeginLoadBegins(s: State)
    ensures LoadBegun(s, BeginLoad(s))
  {
  }

  /** Only the current load goes on to ask for its scope, and for the session it has read. */
  lemma LoadGoesOnExactlyWhen(s: State, n: nat, session: Option<Session>)
    requires Enabled(s, SessionRead(n, session))
    ensures var t := Step(s, SessionRead(n, session));
            && t == s.(loads := t.loads) && |t.loads| == |s.loads|
            && (forall m :: 0 <= m < |s.loads| && m != n ==> t.loads[m] == s.loads[m])
            && if s.loads[n].epoch == s.epoch && session.Some? then
                 t.loads[n] == s.loads[n].(answer := session, stage := AwaitScope(session.value))
               else t.loads[n] == s.loads[n].(stage := Loaded)
  {
  }

  /** The current load shows the session it has read, and the notebooks of the answer, in its order, if its scope is valid. */
  lemma LoadShows(s: State, n: nat, scopeValid: bool, notebooks: Option<seq<nat>>)
    requires Enabled(s, ScopeRead(n, scopeValid, notebooks))
    ensures var t := Step(s, ScopeRead(n, scopeValid, notebooks));
            if s.loads[n].epoch == s.epoch then
              var session := s.loads[n].stage.session;
              && t.currentSession == Some(session) && t.shown.Some? && t.epoch == s.epoch
              && t.shown.value == Shown(n, session, scopeValid, t.shown.value.notebooks)
              && |t.shown.value.notebooks| == (if scopeValid && notebooks.Some? then |notebooks.value| else 0)
              && forall i :: 0 <= i < |t.shown.value.notebooks| ==> t.shown.value.notebooks[i] == Notebook(notebooks.value[i], session)
            else t == s.(loads := s.loads[n := s.loads[n].(stage := Loaded)])
  {
  }

  // ----- switching

  /** A switch begins exactly with a session and without an operation; nothing is sent before its session check. */
  lemma SwitchesExactlyWhen(s: State, target: nat)
    ensures var k, t := |s.operations|, Step(s, Switch(target));
            if s.operation.None? && s.currentSession.Some? then
              t == s.(operation := Some(k),
                      operations := s.operations + [Operation(s.currentSession.value, target, s.epoch, Checking, AwaitCheck)])
            else t == s
  {
  }

  /** A check sends the switch exactly if it finds the source session in the epoch of the switch. */
  lemma ChecksDecide(s: State, k: nat, session: Option<Session>)
    requires Invariant(s) && Enabled(s, Checked(k, session))
    ensures var t, o := Step(s, Checked(k, session)), s.operations[k];
            if session == Some(o.source) && o.epoch == s.epoch then
              t == s.(operations := s.operations[k := o.(phase := Sending, stage := AwaitReply)], sent := s.sent + [k])
            else
              && t.sent == s.sent && t.operations == s.operations[k := o.(stage := Over)]
              && (s.operation == Some(k) ==> t.operation.None?)
              && (if o.epoch == s.epoch && (session.Some? || s.operation == Some(k))
                  then t.epoch == s.epoch + 1 && t.shown.None? && |t.loads| == |s.loads| + 1
                  else t.epoch == s.epoch && t.shown == s.shown && t.loads == s.loads)
  {
    assert OperationRight(s, k);
    hide ShownRight, LoadsRight, LoadsOrdered, BeginLoad;
    BeginLoadBegins(Release(Put(s, k, s.operations[k].(stage := Over)), k));
    BeginLoadBegins(Put(s, k, s.operations[k].(stage := Over)).(operation := None));
  }

  /** The reply to the operation ends it when it is clear, and leaves it unknown, to be read again, when it is not. */
  lemma RepliesDecide(s: State, k: nat, reply: Reply)
    requires Invariant(s) && Enabled(s, Replied(k, reply))
    ensures var t, o := Step(s, Replied(k, reply)), s.operations[k];
            && t.sent == s.sent && t.currentSession == s.currentSession
            && if s.operation != Some(k) then t == s.(operations := s.operations[k := o.(stage := Over)])
               else match reply
                 case Switched => t == s.(operations := t.operations, operation := None, epoch := s.epoch + 1, shown := None)
                 case Refused => t == s.(operations := t.operations, operation := None)
                 case Unclear =>
                   && t.operation == Some(k) && t.operations == s.operations[k := o.(phase := Unknown, stage := Over)]
                   && (if o.epoch == s.epoch
                       then |t.loads| == |s.loads| + 1 && t.loads[|s.loads|].atStart == Some((k, Unknown)) && t.epoch == s.epoch + 1
                       else t.loads == s.loads && t.epoch == s.epoch)
  {
    assert OperationRight(s, k);
    hide ShownRight, LoadsRight, LoadsOrdered, BeginLoad;
    BeginLoadBegins(Put(s, k, s.operations[k].(phase := Unknown, stage := Over)));
  }

  // ----- creating

  /** A creation begins exactly if the shown session is current and no switch is an operation. */
  lemma CreatesExactlyWhen(s: State)
    ensures var t := Step(s, StartCreate);
            if s.shown.Some? && s.currentSession == Some(s.shown.value.session) && s.operation.None? then
              t == s.(creates := s.creates + [Create(s.epoch, s.shown.value.session, AwaitCreated)])
            else t == s
  {
  }

  /** A created notebook is checked exactly if the epoch and the session are still those of the creation. */
  lemma CreatedIsChecked(s: State, n: nat, notebook: Option<nat>)
    requires Enabled(s, CreatedNow(n, notebook))
    ensures var t, c := Step(s, CreatedNow(n, notebook)), s.creates[n];
            t == s.(creates := s.creates[n := c.(stage :=
              if notebook.Some? && c.epoch == s.epoch && s.currentSession == Some(c.source) then AwaitVerified(notebook.value)
              else Created)])
  {
  }

  lemma {:induction false} WithoutKeepsOthers(notebooks: seq<Notebook>, id: nat, x: Notebook)
    requires x in notebooks
    ensures x in Without(notebooks, id) <==> x.id != id
  {
    if notebooks[0] == x {
      WithoutIsWithout(notebooks, id);
    } else {
      WithoutKeepsOthers(notebooks[1..], id, x);
    }
  }

  lemma {:induction false} WithoutIsWithout(notebooks: seq<Notebook>, id: nat)
    ensures forall x :: x in Without(notebooks, id) ==> x.id != id
  {
    if notebooks != [] {
      WithoutIsWithout(notebooks[1..], id);
    }
  }

  /** A creation verified in its own session and epoch lists its notebook first, once, and keeps the others. */
  lemma CreationShows(s: State, n: nat, session: Option<Session>)
    requires Enabled(s, Verified(n, session)) && s.shown.Some?
    requires s.creates[n].epoch == s.epoch && session == s.currentSession == Some(s.creates[n].source)
    ensures var t, id := Step(s, Verified(n, session)), s.creates[n].stage.notebook;
            && t.shown.Some? && t.shown.value.notebooks != [] && t.currentSession == s.currentSession && t.epoch == s.epoch
            && t.shown.value.notebooks[0] == Notebook(id, s.creates[n].source)
            && (forall x :: x in t.shown.value.notebooks[1..] <==> x in s.shown.value.notebooks && x.id != id)
  {
    var id := s.creates[n].stage.notebook;
    var rest := Without(s.shown.value.notebooks, id);
    WithoutIsWithout(s.shown.value.notebooks, id);
    forall x | x in s.shown.value.notebooks && x.id != id
      ensures x in rest
    {
      WithoutKeepsOthers(s.shown.value.notebooks, id, x);
    }
    hide Without;
    assert Step(s, Verified(n, session)).shown.value.notebooks[1..] == rest;
  }

  /** Found under another session in the same epoch, the page loads anew instead. */
  lemma OtherSessionLoadsAnew(s: State, n: nat, session: Session)
    requires Enabled(s, Verified(n, Some(session))) && s.creates[n].epoch == s.epoch
    requires session != s.creates[n].source || s.currentSession != Some(s.creates[n].source)
    ensures LoadBegun(s.(creates := s.creates[n := s.creates[n].(stage := Created)]), Step(s, Verified(n, Some(session))))
  {
    hide BeginLoad;
    BeginLoadBegins(EndCreate(s, n, Created));
  }
}
