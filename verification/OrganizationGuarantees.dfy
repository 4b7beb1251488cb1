/** What the organization forms guarantee over every run of clicks, replies, page changes and server steps. */
module OrganizationGuarantees {
  import opened OrganizationRequests
  import opened OrganizationRuns

  /** A page as it is first built, with nothing submitted or sent yet. */
  predicate Initial(s: State) {
    s == Rebuilt(s) && s.requests == [] && s.wire == [] && s.effects == []
  }

  lemma Reachable(s: State, events: seq<Event>)
    requires Initial(s)
    ensures Invariant(Run(s, events))
  {
    hide Run;
    RunKeeps(s, events);
  }

  // ----- at most once

  /**
   * Main result: everything ever sent for a submission carries its one key and the arguments, tenant and session it was
   * submitted with, however often it is sent, and so a server that applies each key once applies it at most once.
   */
  lemma AppliedAtMostOnce(s: State, events: seq<Event>)
    requires Initial(s)
    ensures var t := Run(s, events);
            && (forall w :: 0 <= w < |t.wire| ==>
                  t.wire[w].request < |t.requests| && Carried(t.wire[w], t.requests[t.wire[w].request]))
            && (forall i :: 0 <= i < |t.effects| ==> t.effects[i] < |t.wire|)
            && (forall i, j :: 0 <= i < j < |t.effects| ==>
                  t.wire[t.effects[i]].request != t.wire[t.effects[j]].request)
  {
    Reachable(s, events);
    hide Run, Initial, OperationRight, SendingRight, SendsRight, FirstRight, OneSend, BusyRight;
  }

  /** Every submission draws a key that neither an earlier submission nor a request of s has. */
  predicate FreshKeys(s: State, events: seq<Event>) {
    && (forall i, j :: 0 <= i < j < |events| && events[i].Submit? && events[j].Submit? ==> events[i].key != events[j].key)
    && (forall i, k :: 0 <= i < |events| && events[i].Submit? && 0 <= k < |s.requests| ==> events[i].key != s.requests[k].key)
  }

  predicate DistinctKeys(s: State) {
    forall j, k :: 0 <= j < k < |s.requests| ==> s.requests[j].key != s.requests[k].key
  }

  /** A submission drew the key. */
  predicate Drawn(events: seq<Event>, key: nat) {
    exists i :: 0 <= i < |events| && events[i].Submit? && events[i].key == key
  }

  /** Every key is one of s or one that was drawn. */
  predicate KeysDrawn(s: State, events: seq<Event>, t: State) {
    forall k :: 0 <= k < |t.requests| ==>
      || (k < |s.requests| && t.requests[k].key == s.requests[k].key)
      || Drawn(events, t.requests[k].key)
  }

  lemma DrawnStays(s: State, events: seq<Event>, e: Event, key: nat)
    requires FreshKeys(s, events + [e]) && Drawn(events, key)
    ensures Drawn(events + [e], key) && (e.Submit? ==> key != e.key)
  {
    var all := events + [e];
    var i :| 0 <= i < |events| && events[i].Submit? && events[i].key == key;
    assert all[i] == events[i] && all[|events|] == e;
  }

  lemma OldStaysFresh(s: State, events: seq<Event>, e: Event, k: nat)
    requires FreshKeys(s, events + [e]) && e.Submit? && k < |s.requests|
    ensures s.requests[k].key != e.key
  {
    assert (events + [e])[|events|] == e;
  }

  /** The key of a request never changes, and only a submission makes a request, under the key it drew. */
  predicate KeysStay(s: State, e: Event, t: State) {
    && |s.requests| <= |t.requests| <= |s.requests| + 1
    && (forall k :: 0 <= k < |s.requests| ==> t.requests[k].key == s.requests[k].key)
    && (|t.requests| == |s.requests| + 1 ==> e.Submit? && t.requests[|s.requests|].key == e.key)
  }

  lemma DrawOne(s: State, events: seq<Event>, t: State, e: Event, u: State)
    requires FreshKeys(s, events + [e]) && DistinctKeys(t) && KeysDrawn(s, events, t) && KeysStay(t, e, u)
    ensures DistinctKeys(u) && KeysDrawn(s, events + [e], u)
  {
    hide FreshKeys, Drawn;
    forall k | 0 <= k < |t.requests|
      ensures e.Submit? ==> t.requests[k].key != e.key
      ensures (k < |s.requests| && u.requests[k].key == s.requests[k].key) || Drawn(events + [e], u.requests[k].key)
    {
      if k < |s.requests| && t.requests[k].key == s.requests[k].key {
        if e.Submit? {
          OldStaysFresh(s, events, e, k);
        }
      } else {
        DrawnStays(s, events, e, t.requests[k].key);
      }
    }
    if e.Submit? {
      LastIsDrawn(events, e);
    }
  }

  lemma LastIsDrawn(events: seq<Event>, e: Event)
    requires e.Submit?
    ensures Drawn(events + [e], e.key)
  {
    assert (events + [e])[|events|] == e;
  }

  lemma {:induction false} KeysAreDistinct(s: State, events: seq<Event>)
    requires DistinctKeys(s) && FreshKeys(s, events)
    ensures DistinctKeys(Run(s, events)) && KeysDrawn(s, events, Run(s, events))
    decreases |events|
  {
    hide Step, DistinctKeys, FreshKeys;
    if events != [] {
      var last := |events| - 1;
      var before := events[..last];
      FreshBefore(s, events);
      KeysAreDistinct(s, before);
      StepFollows(Run(s, before), events[last]);
      FollowingKeysStay(Run(s, before), events[last], Run(s, events));
      assert before + [events[last]] == events;
      hide KeysDrawn, KeysStay;
      DrawOne(s, before, Run(s, before), events[last], Run(s, events));
    }
  }

  lemma FollowingKeysStay(s: State, e: Event, t: State)
    requires Follows(s, t) || Submits(s, e, t)
    ensures KeysStay(s, e, t)
  {
  }

  lemma FreshBefore(s: State, events: seq<Event>)
    requires FreshKeys(s, events) && events != []
    ensures FreshKeys(s, events[..|events| - 1])
  {
  }

  /** With fresh keys, what the server applied under a request's key is that request. */
  lemma AppliedIsOwn(s: State, events: seq<Event>, k: nat)
    requires Initial(s) && FreshKeys(s, events) && k < |Run(s, events).requests|
    ensures AppliedKey(Run(s, events), Run(s, events).requests[k].key) <==> AppliedRequest(Run(s, events), k)
  {
    hide Run, Invariant, FreshKeys, KeysDrawn, AppliedKey, AppliedRequest;
    Reachable(s, events);
    KeysAreDistinct(s, events);
    KeyIsOwn(Run(s, events), k);
  }

  lemma KeyIsOwn(s: State, k: nat)
    requires Invariant(s) && DistinctKeys(s) && k < |s.requests|
    ensures AppliedKey(s, s.requests[k].key) <==> AppliedRequest(s, k)
  {
    hide OperationRight, SendingRight, SendsRight, FirstRight, OneSend, BusyRight, EffectsRight;
    if AppliedKey(s, s.requests[k].key) {
      var i :| 0 <= i < |s.effects| && s.effects[i] < |s.wire| && s.wire[s.effects[i]].key == s.requests[k].key;
      assert s.wire[s.effects[i]].request == k;
    }
    if AppliedRequest(s, k) {
      var i :| 0 <= i < |s.effects| && s.effects[i] < |s.wire| && s.wire[s.effects[i]].request == k;
      assert s.wire[s.effects[i]].key == s.requests[k].key;
    }
  }

  predicate AppliedRequest(s: State, k: nat) {
    exists i :: 0 <= i < |s.effects| && s.effects[i] < |s.wire| && s.wire[s.effects[i]].request == k
  }

  /**
   * Nothing is sent but the operation, right after the check of its own send found the request's session, with nothing
   * invalidated since the send began and the request's tenant selected.
   */
  lemma SentOnlyWhenChecked(s: State, e: Event)
    requires Invariant(s) && |Step(s, e).wire| > |s.wire|
    ensures e.SessionForSend? && e.send < |s.sends| && IsLive(s, s.sends[e.send].request)
    ensures e.freshSession == Good(s.requests[s.sends[e.send].request].session) && Carries(s, e.send, s.sends[e.send].request)
    ensures |Step(s, e).wire| == |s.wire| + 1 && Step(s, e).wire[|s.wire|].request == s.sends[e.send].request
  {
    hide SendingRight, SendsRight, WireRight, FirstRight, OneSend, BusyRight, EffectsRight, StartBoot, Invalidate, LoadScope,
      SubmitRequest, RetryRequest, SessionForSending, Replied, FinishSend, SessionRead, TenantsRead, ScopeRead,
      Truthful, TakeUp, AppliedKey;
    OthersSendNothing(s, e);
    SendingChecked(s, e.send, e.freshSession);
  }

  lemma SendingChecked(s: State, n: nat, answer: Answer<Session>)
    requires n < |s.sends| && s.sends[n].request < |s.requests| && s.sends[n].stage.AwaitSession?
    requires |SessionForSending(s, n, answer).wire| > |s.wire|
    ensures s.operation == Some(s.sends[n].request) && answer == Good(s.requests[s.sends[n].request].session)
    ensures Carries(s, n, s.sends[n].request) && SessionForSending(s, n, answer) == Transmit(s, n)
  {
    CatchFollows(s, n, if answer.Failed? then answer.error else Status(401, false));
    OtherSessionGives(s, n);
    hide CatchSend, StartBoot, Drop;
  }

  lemma OthersSendNothing(s: State, e: Event)
    requires |Step(s, e).wire| > |s.wire|
    ensures e.SessionForSend? && Enabled(s, e)
  {
    hide StartBoot, Invalidate, LoadScope, SubmitRequest, RetryRequest, SessionForSending, Replied, SessionRead, TenantsRead,
      ScopeRead, Truthful, AppliedKey;
    if Enabled(s, e) {
      match e {
        case SessionForSend(n, answer) =>
        case Reply(n, answer) => ReplySendsNothing(s, n, s.sends[n].stage.transmission, answer);
        case SessionForRead(n, answer) => SessionReadFollows(s, n, answer);
        case TenantsForRead(n, answer) => TenantsReadFollows(s, n, answer);
        case ScopeForRead(n, answer) => ScopeReadFollows(s, n, answer);
        case SelectTenant(tenant) => ReadingFollows(s, tenant, s.currentSession, 0);
        case Hide => ReadingFollows(s, EMPTY_TENANT, None, 0);
        case Boot => ReadingFollows(s, EMPTY_TENANT, None, 0);
        case Submit(content, key) => ClicksSendNothing(s, content, key);
        case Retry => ClicksSendNothing(s, 0, 0);
        case EndSend(n) =>
        case Apply(w) =>
        case Reload =>
      }
    }
  }

  lemma ClicksSendNothing(s: State, content: nat, key: nat)
    ensures SubmitRequest(s, content, key).wire == s.wire && RetryRequest(s).wire == s.wire
  {
  }

  lemma ReplySendsNothing(s: State, n: nat, w: nat, answer: Answer<bool>)
    requires n < |s.sends| && s.sends[n].request < |s.requests| && w < |s.wire|
    ensures |Replied(s, n, w, answer).wire| == |s.wire|
  {
    SuccessFollows(s, n);
    CatchFollows(s, n, NoStatus);
    if answer.Failed? {
      CatchFollows(s, n, answer.error);
      CatchFollows(s.(wire := s.wire[w := s.wire[w].(rejected := true)]), n, answer.error);
    }
    hide CatchSend, Succeeded, LeavesOpen;
  }

  // ----- what an answer decides

  /**
   * Main result: a failing answer to the first transmission of a live request keeps it, unconfirmed and uncertain, exactly if
   * it has no status, or 408, or one from 500 on that does not say that the workflow is unavailable; in the console only 503
   * says so. Any other status lets it go.
   */
  lemma FirstFailureDecides(s: State, n: nat, error: Error)
    requires Invariant(s) && Enabled(s, Reply(n, Failed(error)))
    requires IsLive(s, s.sends[n].request) && !s.requests[s.sends[n].request].unconfirmed
    ensures var k, t := s.sends[n].request, Step(s, Reply(n, Failed(error)));
            && (t.operation == Some(k)
                <==> error.NoStatus? || error.code == 0 || error.code == 408
                     || (error.code >= 500 && !(error.workflowUnavailable && (s.surface.JoinForm? || error.code == 503))))
            && (t.operation == Some(k) ==>
                  t.requests[k] == s.requests[k].(unconfirmed := true, status := Uncertain))
            && (t.operation != Some(k) ==> t.operation.None?)
            && (t.unavailable <==> s.unavailable || (s.surface.Console? && error == Status(503, true)))
  {
    hide CatchSend, Invariant, Truthful;
    SentWhenAnswered(s, n);
    var w := s.sends[n].stage.transmission;
    var u := if Refuses(error) then s.(wire := s.wire[w := s.wire[w].(rejected := true)]) else s;
    FirstCaught(u, n, error);
  }

  lemma SentWhenAnswered(s: State, n: nat)
    requires Invariant(s) && n < |s.sends| && s.sends[n].stage.AwaitReply? && IsLive(s, s.sends[n].request)
    requires !s.requests[s.sends[n].request].unconfirmed
    ensures s.requests[s.sends[n].request].phase.Sent?
  {
    hide SendingRight, WireRight, OneSend, BusyRight, EffectsRight;
  }

  lemma FirstCaught(s: State, n: nat, error: Error)
    requires n < |s.sends| && IsLive(s, s.sends[n].request)
    requires var r := s.requests[s.sends[n].request]; !r.unconfirmed && r.phase.Sent?
    ensures var k, t := s.sends[n].request, CatchSend(s, n, error);
            && (t.operation == Some(k)
                <==> error.NoStatus? || error.code == 0 || error.code == 408
                     || (error.code >= 500 && !(error.workflowUnavailable && (s.surface.JoinForm? || error.code == 503))))
            && (t.operation == Some(k) ==>
                  t.requests[k] == s.requests[k].(unconfirmed := true, status := Uncertain))
            && (t.operation != Some(k) ==> t.operation.None?)
            && (t.unavailable <==> s.unavailable || (s.surface.Console? && error == Status(503, true)))
  {
  }

  /** Any failing answer to a live unconfirmed request leaves it uncertain; a success lets it go with its arguments. */
  lemma LaterAnswerDecides(s: State, n: nat, answer: Answer<bool>)
    requires Invariant(s) && Enabled(s, Reply(n, answer)) && IsLive(s, s.sends[n].request)
    ensures var k, t := s.sends[n].request, Step(s, Reply(n, answer));
            && (answer.Failed? && s.requests[k].unconfirmed ==>
                  t.operation == Some(k) && t.requests[k] == s.requests[k].(status := Uncertain))
            && (answer.Good? || (answer.Invalid? && s.surface.Console?) ==>
                  t.operation.None? && t.requests[k] == s.requests[k].(args := None, phase := Done))
            && (answer.Invalid? && s.surface.JoinForm? ==>
                  t.operation == Some(k) && t.requests[k] == s.requests[k].(unconfirmed := true, status := Uncertain))
  {
    hide CatchSend, Invariant, Truthful, Succeeded, Refuses;
    var k, w := s.sends[n].request, s.sends[n].stage.transmission;
    SuccessSettles(s, n);
    if !s.requests[k].unconfirmed {
      SentWhenAnswered(s, n);
      FirstCaught(s, n, NoStatus);
    } else {
      LaterCaught(s, n, NoStatus);
      if answer.Failed? {
        LaterCaught(s, n, answer.error);
        LaterCaught(s.(wire := s.wire[w := s.wire[w].(rejected := true)]), n, answer.error);
      }
    }
  }

  lemma LaterCaught(s: State, n: nat, error: Error)
    requires n < |s.sends| && IsLive(s, s.sends[n].request) && s.requests[s.sends[n].request].unconfirmed
    ensures var k, t := s.sends[n].request, CatchSend(s, n, error);
            t.operation == Some(k) && t.requests[k] == s.requests[k].(status := Uncertain)
  {
  }

  lemma SuccessSettles(s: State, n: nat)
    requires n < |s.sends| && IsLive(s, s.sends[n].request)
    ensures var k, t := s.sends[n].request, Succeeded(s, n);
            t.operation.None? && t.requests[k] == s.requests[k].(args := None, phase := Done)
  {
    var k, r := s.sends[n].request, s.requests[s.sends[n].request];
    ReadingSpares(Put(s, k, r.(args := None, phase := Done)).(operation := None), r.tenant, Some(r.session));
    hide StartBoot, LoadScope;
  }

  /** With no operation reading changes no request. */
  lemma ReadingSpares(s: State, tenant: Tenant, selected: Option<Session>)
    requires s.operation.None?
    ensures StartBoot(s).operation.None? && StartBoot(s).requests == s.requests
    ensures LoadScope(s, tenant, selected).operation.None? && LoadScope(s, tenant, selected).requests == s.requests
  {
  }

  // ----- an unconfirmed request

  /** The session check of request k's own send, or a read in force, answers with another session. */
  predicate OtherSession(s: State, e: Event, k: nat)
    requires k < |s.requests|
  {
    match e
    case SessionForSend(n, answer) => n < |s.sends| && s.sends[n].request == k && answer.Good? && answer.value != s.requests[k].session
    case SessionForRead(n, answer) =>
      n < |s.lookups| && s.lookups[n].generation == s.epoch && answer.Good? && answer.value.session != s.requests[k].session
    case _ => false
  }

  /** What lets request k go: its own success, another session found by its own send or by a read in force, or leaving the page. */
  predicate Releases(s: State, e: Event, k: nat)
    requires k < |s.requests|
  {
    match e
    case Reload => true
    case SessionForSend(_, _) => OtherSession(s, e, k)
    case SessionForRead(_, _) => OtherSession(s, e, k)
    case Reply(n, answer) => n < |s.sends| && s.sends[n].request == k && !answer.Failed?
    case _ => false
  }

  /** Still the operation and unconfirmed; whatever was sent since is the same request again. */
  predicate Holds(s: State, t: State, k: nat) {
    && k < |s.requests| <= |t.requests|
    && t.operation == Some(k) && t.requests[k].unconfirmed && SameRequest(s.requests[k], t.requests[k])
    && |s.wire| <= |t.wire|
    && (forall w :: 0 <= w < |s.wire| ==> SameSent(s.wire[w], t.wire[w]))
    && forall w :: |s.wire| <= w < |t.wire| ==> t.wire[w].request == k && Carried(t.wire[w], t.requests[k])
  }

  /** The same transmission, perhaps refused in between. */
  predicate SameSent(x: Transmission, y: Transmission) {
    y.key == x.key && y.request == x.request && y.args == x.args && y.session == x.session && y.tenant == x.tenant
  }

  lemma InvalidateHolds(s: State, k: nat)
    requires s.operation == Some(k) && k < |s.requests| && s.requests[k].unconfirmed
    ensures Holds(s, Invalidate(s), k) && Invalidate(s).wire == s.wire
  {
  }

  lemma ReadingHolds(s: State, k: nat, tenant: Tenant, selected: Option<Session>, generation: nat)
    requires s.operation == Some(k) && k < |s.requests| && s.requests[k].unconfirmed
    ensures Holds(s, StartBoot(s), k) && Holds(s, LoadScope(s, tenant, selected), k) && Holds(s, FailRead(s, generation), k)
    ensures StartBoot(s).wire == s.wire && LoadScope(s, tenant, selected).wire == s.wire && FailRead(s, generation).wire == s.wire
  {
    InvalidateHolds(s, k);
    hide Invalidate;
  }

  lemma SessionReadHolds(s: State, n: nat, answer: Answer<Found>, k: nat)
    requires s.operation == Some(k) && k < |s.requests| && s.requests[k].unconfirmed
    requires Some(s.requests[k].session) == s.currentSession && n < |s.lookups| && s.lookups[n].stage.ReadSession?
    requires !OtherSession(s, SessionForRead(n, answer), k)
    ensures Holds(s, SessionRead(s, n, answer), k)
  {
    var t := SessionRead(s, n, answer);
    HoldsNowPlain(s, k);
    hide Invalidate, StartBoot, LoadScope, FailRead, Holds;
    if s.lookups[n].generation != s.epoch {
      HoldsFrame(s, s, t, k);
    } else if answer.Good? {
      assert Adopt(s, answer.value.session) == s;
      hide Adopt;
      ReadingHolds(s, k, answer.value.tenant, Some(answer.value.session), 0);
      if s.surface.JoinForm? || answer.value.systemAdmin {
        HoldsFrame(s, s, t, k);
      } else {
        HoldsFrame(s, LoadScope(s, answer.value.tenant, Some(answer.value.session)), t, k);
      }
    } else {
      ReadingHolds(s, k, EMPTY_TENANT, None, s.lookups[n].generation);
      HoldsFrame(s, FailRead(s, s.lookups[n].generation), t, k);
    }
  }

  /** What else changes on the page does not matter. */
  lemma HoldsFrame(s: State, t: State, u: State, k: nat)
    requires Holds(s, t, k) && u.operation == t.operation && u.requests == t.requests && u.wire == t.wire
    ensures Holds(s, u, k)
  {
  }

  lemma TenantsReadHolds(s: State, n: nat, answer: Answer<set<Tenant>>, k: nat)
    requires s.operation == Some(k) && k < |s.requests| && s.requests[k].unconfirmed
    requires n < |s.lookups| && s.lookups[n].stage.ReadTenants?
    ensures Holds(s, TenantsRead(s, n, answer), k)
  {
    var stage := s.lookups[n].stage;
    var tenant := if answer.Good? && stage.same && s.currentTenant in answer.value then s.currentTenant else EMPTY_TENANT;
    ReadingHolds(s, k, tenant, Some(stage.found), s.lookups[n].generation);
    var t := TenantsRead(s, n, answer);
    hide Invalidate, StartBoot, LoadScope, FailRead, Holds;
    if s.lookups[n].generation != s.epoch {
      HoldsNowPlain(s, k);
      HoldsFrame(s, s, t, k);
    } else if answer.Good? {
      HoldsFrame(s, LoadScope(s, tenant, Some(stage.found)), t, k);
    } else {
      HoldsFrame(s, FailRead(s, s.lookups[n].generation), t, k);
    }
  }

  lemma HoldsNowPlain(s: State, k: nat)
    requires s.operation == Some(k) && k < |s.requests| && s.requests[k].unconfirmed
    ensures Holds(s, s, k)
  {
  }

  lemma ScopeReadHolds(s: State, n: nat, answer: Answer<bool>, k: nat)
    requires s.operation == Some(k) && k < |s.requests| && s.requests[k].unconfirmed
    requires n < |s.lookups| && s.lookups[n].stage.ReadScope?
    ensures Holds(s, ScopeRead(s, n, answer), k)
  {
    ReadingHolds(s, k, EMPTY_TENANT, None, s.lookups[n].generation);
    hide Invalidate, StartBoot, LoadScope, FailRead;
  }

  /** A failure of any kind leaves an unconfirmed request unconfirmed. */
  lemma CaughtHolds(s: State, j: nat, error: Error, k: nat)
    requires s.operation == Some(k) && k < |s.requests| && s.requests[k].unconfirmed && IsLive(s, j)
    ensures Holds(s, Caught(s, j, error), k)
  {
  }

  lemma CatchHolds(s: State, n: nat, error: Error, k: nat)
    requires s.operation == Some(k) && k < |s.requests| && s.requests[k].unconfirmed
    requires n < |s.sends| && s.sends[n].request < |s.requests|
    ensures Holds(s, CatchSend(s, n, error), k)
  {
    var j, g := s.sends[n].request, s.sends[n].generation;
    HoldsNowPlain(s, k);
    if IsLive(s, j) {
      CaughtHolds(s, j, error, k);
      var t := Caught(s, j, error);
      ReadingHolds(t, k, EMPTY_TENANT, None, g);
      HoldsTransitively(s, t, FailRead(t, g), k);
      hide FailRead, Caught, Holds;
      var denied := error.Status? && (error.code == 401 || error.code == 403);
      HoldsFrame(s, if denied then FailRead(t, g) else t, CatchSend(s, n, error), k);
    } else {
      hide Holds;
      HoldsFrame(s, s, CatchSend(s, n, error), k);
    }
  }

  lemma TransmitHolds(s: State, n: nat, k: nat)
    requires s.operation == Some(k) && k < |s.requests| && s.requests[k].unconfirmed
    requires n < |s.sends| && s.sends[n].request == k && s.requests[k].args == Some(s.requests[k].submitted)
    ensures Holds(s, Transmit(s, n), k)
  {
  }

  lemma SessionForSendHolds(s: State, n: nat, answer: Answer<Session>, k: nat)
    requires s.operation == Some(k) && k < |s.requests| && s.requests[k].unconfirmed
    requires n < |s.sends| && s.sends[n].request < |s.requests| && s.requests[k].args == Some(s.requests[k].submitted)
    requires !OtherSession(s, SessionForSend(n, answer), k)
    ensures Holds(s, SessionForSending(s, n, answer), k)
  {
    CatchHolds(s, n, if answer.Failed? then answer.error else Status(401, false), k);
    HoldsNowPlain(s, k);
    HoldsFrame(s, s, FinishSend(s, n), k);
    if s.sends[n].request == k {
      TransmitHolds(s, n, k);
    }
    hide CatchSend, StartBoot, Transmit, FinishSend, Holds, Drop;
  }

  lemma ReplyHolds(s: State, n: nat, w: nat, answer: Answer<bool>, k: nat)
    requires s.operation == Some(k) && k < |s.requests| && s.requests[k].unconfirmed
    requires n < |s.sends| && s.sends[n].request < |s.requests| && w < |s.wire|
    requires answer.Failed? || s.sends[n].request != k
    ensures Holds(s, Replied(s, n, w, answer), k)
  {
    var refused := s.(wire := s.wire[w := s.wire[w].(rejected := true)]);
    if answer.Failed? {
      CatchHolds(s, n, answer.error, k);
      CatchHolds(refused, n, answer.error, k);
    } else {
      CatchHolds(s, n, NoStatus, k);
    }
    hide CatchSend, Succeeded;
  }

  lemma ClicksHold(s: State, content: nat, key: nat, k: nat)
    requires s.operation == Some(k) && k < |s.requests| && s.requests[k].unconfirmed
    ensures SubmitRequest(s, content, key) == s && Holds(s, RetryRequest(s), k)
  {
  }

  /** Until it is released, an unconfirmed request stays the operation and is the only thing ever sent. */
  lemma StepHolds(s: State, e: Event, k: nat)
    requires Invariant(s) && s.operation == Some(k) && s.requests[k].unconfirmed && !Releases(s, e, k)
    ensures Holds(s, Step(s, e), k)
  {
    hide SendingRight, SendsRight, WireRight, FirstRight, OneSend, BusyRight, EffectsRight, StartBoot, Invalidate, LoadScope,
      SubmitRequest, RetryRequest, SessionForSending, Replied, SessionRead, TenantsRead, ScopeRead, Truthful, AppliedKey;
    if Enabled(s, e) {
      match e {
        case SessionForSend(n, answer) => SessionForSendHolds(s, n, answer, k);
        case Reply(n, answer) => ReplyHolds(s, n, s.sends[n].stage.transmission, answer, k);
        case SessionForRead(n, answer) => SessionReadHolds(s, n, answer, k);
        case TenantsForRead(n, answer) => TenantsReadHolds(s, n, answer, k);
        case ScopeForRead(n, answer) => ScopeReadHolds(s, n, answer, k);
        case SelectTenant(tenant) => ReadingHolds(s, k, tenant, s.currentSession, 0);
        case Submit(content, key) => ClicksHold(s, content, key, k);
        case Retry => ClicksHold(s, 0, 0, k);
        case Hide => InvalidateHolds(s, k);
        case Boot => ReadingHolds(s, k, EMPTY_TENANT, None, 0);
        case EndSend(n) =>
        case Apply(w) =>
        case Reload =>
      }
    }
  }

  lemma HoldsTransitively(s: State, t: State, u: State, k: nat)
    requires Holds(s, t, k) && Holds(t, u, k)
    ensures Holds(s, u, k)
  {
  }

  predicate NeverReleased(s: State, events: seq<Event>, k: nat) {
    forall i :: 0 <= i < |events| ==>
      k < |Run(s, events[..i]).requests| && !Releases(Run(s, events[..i]), events[i], k)
  }

  /**
   * Main result: from the moment a request is unconfirmed, everything sent is that request with its own arguments, tenant
   * and session, and it stays retryable, until it succeeds, the session changes or the page is left.
   */
  lemma {:induction false} UnconfirmedIsExclusive(s: State, events: seq<Event>, k: nat)
    requires Invariant(s) && s.operation == Some(k) && s.requests[k].unconfirmed && NeverReleased(s, events, k)
    ensures Holds(s, Run(s, events), k)
    decreases |events|
  {
    hide Invariant, Step, Releases;
    if events != [] {
      var last := |events| - 1;
      var before := events[..last];
      assert forall i :: 0 <= i < last ==> before[..i] == events[..i];
      UnconfirmedIsExclusive(s, before, k);
      RunKeeps(s, before);
      assert events[..last] == before;
      StepHolds(Run(s, before), events[last], k);
      HoldsTransitively(s, Run(s, before), Run(s, events), k);
    } else {
      HoldsNow(s, k);
    }
  }

  lemma HoldsNow(s: State, k: nat)
    requires Invariant(s) && s.operation == Some(k) && s.requests[k].unconfirmed
    ensures Holds(s, s, k)
  {
  }

  // ----- why a request is let go

  /** Nothing sent for request k can take effect any more: it was never sent, or every transmission was refused. */
  predicate Harmless(s: State, k: nat) {
    forall w :: 0 <= w < |s.wire| && s.wire[w].request == k ==> s.wire[w].rejected
  }

  lemma InvalidateDrops(s: State, k: nat)
    requires Invariant(s) && s.operation == Some(k)
    ensures Invalidate(s).wire == s.wire
    ensures Invalidate(s).operation == Some(k) || (NeverSent(s, k) && !s.requests[k].unconfirmed)
  {
    hide SendingRight, SendsRight, WireRight, OneSend, BusyRight, EffectsRight;
  }

  /** Reading lets a request go only if it was never sent. */
  lemma ReadingDrops(s: State, k: nat, tenant: Tenant, selected: Option<Session>, generation: nat)
    requires Invariant(s) && s.operation == Some(k)
    ensures DropsUnsent(s, StartBoot(s), k) && DropsUnsent(s, LoadScope(s, tenant, selected), k)
    ensures DropsUnsent(s, FailRead(s, generation), k)
  {
    InvalidateDrops(s, k);
    hide Invalidate, Invariant;
  }

  predicate DropsUnsent(s: State, t: State, k: nat) {
    t.wire == s.wire && (t.operation == Some(k) || (NeverSent(s, k) && k < |s.requests| && !s.requests[k].unconfirmed))
  }

  predicate Reason(s: State, e: Event, t: State, k: nat)
    requires k < |s.requests|
  {
    || t.operation == Some(k)
    || e.Reload?
    || OtherSession(s, e, k)
    || (e.Reply? && e.send < |s.sends| && s.sends[e.send].request == k && AppliedKey(s, s.requests[k].key))
    || (!s.requests[k].unconfirmed && Harmless(t, k))
  }

  /** The session of the operation is the current one. */
  lemma AdoptsNothing(s: State, found: Session, k: nat)
    requires Invariant(s) && s.operation == Some(k) && k < |s.requests| && found == s.requests[k].session
    ensures Adopt(s, found) == s
  {
  }

  lemma SessionReadGivesReason(s: State, n: nat, answer: Answer<Found>, k: nat)
    requires Invariant(s) && s.operation == Some(k) && k < |s.requests|
    requires n < |s.lookups| && s.lookups[n].stage.ReadSession?
    requires !OtherSession(s, SessionForRead(n, answer), k)
    ensures DropsUnsent(s, SessionRead(s, n, answer), k)
  {
    hide Invalidate, StartBoot, LoadScope, FailRead, Invariant, NeverSent, Adopt;
    if s.lookups[n].generation != s.epoch {
    } else if answer.Good? {
      AdoptsNothing(s, answer.value.session, k);
      ReadingDrops(s, k, answer.value.tenant, Some(answer.value.session), 0);
    } else {
      ReadingDrops(s, k, EMPTY_TENANT, None, s.lookups[n].generation);
    }
  }

  lemma TenantsReadGivesReason(s: State, n: nat, answer: Answer<set<Tenant>>, k: nat)
    requires Invariant(s) && s.operation == Some(k) && n < |s.lookups| && s.lookups[n].stage.ReadTenants?
    ensures DropsUnsent(s, TenantsRead(s, n, answer), k)
  {
    var stage := s.lookups[n].stage;
    hide Invalidate, StartBoot, LoadScope, FailRead, Invariant, NeverSent;
    if s.lookups[n].generation != s.epoch {
    } else if answer.Good? {
      var tenant := if stage.same && s.currentTenant in answer.value then s.currentTenant else EMPTY_TENANT;
      ReadingDrops(s, k, tenant, Some(stage.found), 0);
    } else {
      ReadingDrops(s, k, EMPTY_TENANT, None, s.lookups[n].generation);
    }
  }

  lemma ScopeReadGivesReason(s: State, n: nat, answer: Answer<bool>, k: nat)
    requires Invariant(s) && s.operation == Some(k) && n < |s.lookups| && s.lookups[n].stage.ReadScope?
    ensures DropsUnsent(s, ScopeRead(s, n, answer), k)
  {
    hide Invalidate, StartBoot, LoadScope, FailRead, Invariant, NeverSent;
    ReadingDrops(s, k, EMPTY_TENANT, None, s.lookups[n].generation);
  }

  /** A failing send lets its request go only if it was never sent or the server definitely refused its only transmission. */
  lemma CatchGivesReason(s: State, n: nat, error: Error, k: nat)
    requires Invariant(s) && s.operation == Some(k) && k < |s.requests| && n < |s.sends| && s.sends[n].request < |s.requests|
    ensures var t := CatchSend(s, n, error);
            && t.wire == s.wire
            && (t.operation == Some(k) || (!s.requests[k].unconfirmed && s.sends[n].request == k
                                           && (NeverSent(s, k) || !LeavesOpen(s.surface, error))))
  {
    var j, g := s.sends[n].request, s.sends[n].generation;
    hide FailRead, NeverSent, LeavesOpen, Caught, Invariant;
    if IsLive(s, j) {
      var t := Caught(s, j, error);
      CaughtDrops(s, k, error);
      CaughtKeeps(s, j, error);
      if t.operation == Some(k) {
        IdleStays(t, k, g);
      } else {
        NothingComesBack(t, k, g);
      }
    }
  }

  lemma IdleStays(s: State, k: nat, generation: nat)
    requires Invariant(s) && Idle(s) && s.operation == Some(k)
    ensures FailRead(s, generation).operation == Some(k) && FailRead(s, generation).wire == s.wire
  {
  }

  lemma CaughtDrops(s: State, k: nat, error: Error)
    requires Invariant(s) && IsLive(s, k)
    ensures var t := Caught(s, k, error);
            && t.wire == s.wire && (t.operation == Some(k) || t.operation.None?)
            && (t.operation.None? ==> !s.requests[k].unconfirmed && (NeverSent(s, k) || !LeavesOpen(s.surface, error)))
  {
    hide SendingRight, SendsRight, WireRight, OneSend, BusyRight, EffectsRight;
  }

  lemma NothingComesBack(s: State, k: nat, generation: nat)
    requires s.operation.None?
    ensures FailRead(s, generation).operation.None? && FailRead(s, generation).wire == s.wire
  {
  }

  lemma RefusedIsHarmless(s: State, k: nat, w: nat)
    requires Invariant(s) && k < |s.requests| && !s.requests[k].unconfirmed && w < |s.wire| && s.wire[w].request == k
    ensures Harmless(s.(wire := s.wire[w := s.wire[w].(rejected := true)]), k)
  {
  }

  /** Whatever the client takes for final the server will not apply. */
  lemma NotOpenIsRefused(surface: Surface, error: Error)
    requires !Refuses(error)
    ensures LeavesOpen(surface, error)
  {
  }

  lemma ReplyGivesReason(s: State, n: nat, answer: Answer<bool>, k: nat)
    requires Invariant(s) && s.operation == Some(k) && k < |s.requests| && Enabled(s, Reply(n, answer))
    ensures Reason(s, Reply(n, answer), Replied(s, n, s.sends[n].stage.transmission, answer), k)
  {
    var w := s.sends[n].stage.transmission;
    assert s.wire[w].request == s.sends[n].request;
    if answer.Failed? {
      if !Refuses(answer.error) {
        NotOpenIsRefused(s.surface, answer.error);
      }
      if !Refuses(answer.error) {
        CatchGivesReason(s, n, answer.error, k);
      } else {
        var refused := s.(wire := s.wire[w := s.wire[w].(rejected := true)]);
        RefusalKeeps(s, w);
        CatchGivesReason(refused, n, answer.error, k);
        if s.sends[n].request == k && !s.requests[k].unconfirmed {
          RefusedIsHarmless(s, k, w);
        }
      }
    } else if answer.Invalid? && s.surface.JoinForm? {
      CatchGivesReason(s, n, NoStatus, k);
    } else if !IsLive(s, s.sends[n].request) {
      NotLive(s, s.sends[n].request);
    }
    hide Invariant, CatchSend, Succeeded, AppliedKey, LeavesOpen;
  }

  lemma FirstIsUnsent(s: State, n: nat, k: nat)
    requires Invariant(s) && s.operation == Some(k) && k < |s.requests| && n < |s.sends| && s.sends[n].stage.AwaitSession?
    requires s.sends[n].request == k && !s.requests[k].unconfirmed
    ensures NeverSent(s, k)
  {
  }

  lemma SendCheckGivesReason(s: State, n: nat, answer: Answer<Session>, k: nat)
    requires Invariant(s) && s.operation == Some(k) && k < |s.requests| && Enabled(s, SessionForSend(n, answer))
    requires !OtherSession(s, SessionForSend(n, answer), k)
    ensures DropsUnsent(s, SessionForSending(s, n, answer), k) || SessionForSending(s, n, answer).operation == Some(k)
  {
    hide Invariant, CatchSend, StartBoot, NeverSent, LeavesOpen, Drop;
    if s.sends[n].request == k && !s.requests[k].unconfirmed {
      FirstIsUnsent(s, n, k);
    }
    CatchGivesReason(s, n, if answer.Failed? then answer.error else Status(401, false), k);
  }

  /**
   * Main result: a request is let go only when it succeeded, when the session is another one, when the page is left, or
   * when nothing sent for it can take effect any more.
   */
  lemma DropReasons(s: State, e: Event, k: nat)
    requires Invariant(s) && s.operation == Some(k)
    ensures k < |s.requests| && Reason(s, e, Step(s, e), k)
  {
    hide SendingRight, SendsRight, WireRight, FirstRight, OneSend, BusyRight, EffectsRight, StartBoot, Invalidate, LoadScope,
      SubmitRequest, RetryRequest, SessionForSending, Replied, SessionRead, TenantsRead, ScopeRead, Truthful, AppliedKey;
    if Enabled(s, e) {
      match e {
        case SessionForSend(n, answer) =>
          if !OtherSession(s, e, k) {
            SendCheckGivesReason(s, n, answer, k);
          }
        case Reply(n, answer) => ReplyGivesReason(s, n, answer, k);
        case SessionForRead(n, answer) =>
          if !OtherSession(s, e, k) {
            SessionReadGivesReason(s, n, answer, k);
          }
        case TenantsForRead(n, answer) => TenantsReadGivesReason(s, n, answer, k);
        case ScopeForRead(n, answer) => ScopeReadGivesReason(s, n, answer, k);
        case SelectTenant(tenant) => ReadingDrops(s, k, tenant, s.currentSession, 0);
        case Submit(content, key) => BusyClicks(s, content, key);
        case Retry => BusyClicks(s, 0, 0);
        case Hide => InvalidateDrops(s, k);
        case Boot => ReadingDrops(s, k, EMPTY_TENANT, None, 0);
        case EndSend(n) =>
        case Apply(w) =>
        case Reload =>
      }
    }
  }

  /**
   * Main result: within its session and without a reload, an unconfirmed request is let go only once the server has applied
   * that very submission.
   */
  lemma LetGoMeansApplied(s: State, events: seq<Event>, e: Event, k: nat)
    requires Initial(s) && FreshKeys(s, events) && k < |Run(s, events).requests|
    requires Run(s, events).operation == Some(k) && Run(s, events).requests[k].unconfirmed
    requires Step(Run(s, events), e).operation != Some(k) && !e.Reload? && !OtherSession(Run(s, events), e, k)
    ensures AppliedRequest(Run(s, events), k)
  {
    Reachable(s, events);
    hide Run, Step, Invariant, Initial, AppliedKey, AppliedRequest;
    DropReasons(Run(s, events), e, k);
    AppliedIsOwn(s, events, k);
  }

  lemma BusyClicks(s: State, content: nat, key: nat)
    requires s.operation.Some?
    ensures SubmitRequest(s, content, key) == s && RetryRequest(s).operation == s.operation
  {
  }

  /** A request let go with nothing in force. */
  predicate Dead(s: State, k: nat) {
    k < |s.requests| && s.operation != Some(k) && Harmless(s, k)
  }

  /** At most lets the operation go, sends nothing but the operation, and refusals stand. */
  predicate Follows(s: State, t: State) {
    && |s.requests| == |t.requests| && |s.wire| <= |t.wire| && (t.operation == s.operation || t.operation.None?)
    && (forall k :: 0 <= k < |s.requests| ==> t.requests[k].key == s.requests[k].key)
    && (forall w :: 0 <= w < |s.wire| ==> t.wire[w].request == s.wire[w].request && (s.wire[w].rejected ==> t.wire[w].rejected))
    && (forall w :: |s.wire| <= w < |t.wire| ==> Some(t.wire[w].request) == s.operation)
  }

  /** A submission makes one request, which becomes the operation, and sends nothing yet. */
  predicate Submits(s: State, e: Event, t: State) {
    && e.Submit? && s.operation.None? && t.operation == Some(|s.requests|) && t.wire == s.wire
    && |t.requests| == |s.requests| + 1 && t.requests[..|s.requests|] == s.requests && t.requests[|s.requests|].key == e.key
  }

  lemma DropGives(s: State, clear: bool)
    ensures Gives(s, Drop(s, clear))
  {
  }

  lemma MarkGives(s: State, k: nat, r: Request)
    requires k < |s.requests| && r.key == s.requests[k].key
    ensures Gives(s, Put(s, k, r))
  {
  }

  lemma InvalidateGives(s: State)
    ensures Gives(s, Invalidate(s))
  {
    var next := s.(booting := None, epoch := s.epoch + 1);
    DropGives(next, true);
    DropGives(next, false);
    if s.operation.Some? && s.operation.value < |s.requests| {
      MarkGives(next, s.operation.value, MarkUncertain(s.requests[s.operation.value]));
    }
    hide Drop, Put;
  }

  lemma ReadingFollows(s: State, tenant: Tenant, selected: Option<Session>, generation: nat)
    ensures Gives(s, Invalidate(s)) && Gives(s, StartBoot(s)) && Gives(s, LoadScope(s, tenant, selected))
    ensures Gives(s, FailRead(s, generation))
  {
    InvalidateGives(s);
    hide Invalidate;
  }

  /** At most lets the operation go; sends nothing. */
  predicate Gives(s: State, t: State) {
    && t.wire == s.wire && |t.requests| == |s.requests| && (t.operation == s.operation || t.operation.None?)
    && forall k :: 0 <= k < |s.requests| ==> t.requests[k].key == s.requests[k].key
  }

  lemma GivesFurther(s: State, t: State, u: State)
    requires Gives(s, t) && Gives(t, u)
    ensures Gives(s, u)
  {
  }

  lemma AdoptGives(s: State, found: Session)
    ensures Gives(s, Adopt(s, found))
  {
    DropGives(s, true);
    hide Drop;
  }

  lemma SessionReadFollows(s: State, n: nat, answer: Answer<Found>)
    requires n < |s.lookups| && s.lookups[n].stage.ReadSession?
    ensures Gives(s, SessionRead(s, n, answer))
  {
    var u := SessionRead(s, n, answer);
    hide Invalidate, StartBoot, LoadScope, FailRead, Adopt;
    if s.lookups[n].generation != s.epoch {
    } else if answer.Good? {
      var t := Adopt(s, answer.value.session);
      AdoptGives(s, answer.value.session);
      ReadingFollows(t, answer.value.tenant, Some(answer.value.session), 0);
      assert Gives(t, u);
      hide SessionRead;
      GivesFurther(s, t, u);
    } else {
      ReadingFollows(s, EMPTY_TENANT, None, s.lookups[n].generation);
    }
  }

  lemma TenantsReadFollows(s: State, n: nat, answer: Answer<set<Tenant>>)
    requires n < |s.lookups| && s.lookups[n].stage.ReadTenants?
    ensures Gives(s, TenantsRead(s, n, answer))
  {
    hide Invalidate, StartBoot, LoadScope, FailRead;
    var stage := s.lookups[n].stage;
    if s.lookups[n].generation != s.epoch {
    } else if answer.Good? {
      var tenant := if stage.same && s.currentTenant in answer.value then s.currentTenant else EMPTY_TENANT;
      ReadingFollows(s, tenant, Some(stage.found), 0);
    } else {
      ReadingFollows(s, EMPTY_TENANT, None, s.lookups[n].generation);
    }
  }

  lemma ScopeReadFollows(s: State, n: nat, answer: Answer<bool>)
    requires n < |s.lookups| && s.lookups[n].stage.ReadScope?
    ensures Gives(s, ScopeRead(s, n, answer))
  {
    hide Invalidate, StartBoot, LoadScope, FailRead;
    ReadingFollows(s, EMPTY_TENANT, None, s.lookups[n].generation);
  }

  lemma CaughtGives(s: State, k: nat, error: Error)
    requires k < |s.requests|
    ensures Gives(s, Caught(s, k, error))
  {
    DropGives(s, true);
    DropGives(s, false);
    MarkGives(s, k, MarkUncertain(s.requests[k]));
    MarkGives(s, k, s.requests[k].(status := Uncertain));
    GivesBut(s, Drop(s, false));
    hide LeavesOpen, Drop, Put, Gives;
  }

  lemma GivesBut(s: State, t: State)
    requires Gives(s, t)
    ensures Gives(s, t.(unavailable := true))
  {
  }

  lemma CatchFollows(s: State, n: nat, error: Error)
    requires n < |s.sends| && s.sends[n].request < |s.requests|
    ensures Gives(s, CatchSend(s, n, error))
  {
    var u, k := CatchSend(s, n, error), s.sends[n].request;
    hide Caught, FailRead;
    if IsLive(s, k) {
      CaughtGives(s, k, error);
      ReadingFollows(Caught(s, k, error), EMPTY_TENANT, None, s.sends[n].generation);
      assert Gives(Caught(s, k, error), u);
      hide CatchSend;
      GivesFurther(s, Caught(s, k, error), u);
    }
  }

  lemma OtherSessionGives(s: State, n: nat)
    requires n < |s.sends|
    ensures Gives(s, Await(StartBoot(Drop(s, true)), n, Closing))
  {
    assert Gives(s, Drop(s, true));
    hide Drop, StartBoot;
    ReadingFollows(Drop(s, true), EMPTY_TENANT, None, 0);
    GivesFurther(s, Drop(s, true), StartBoot(Drop(s, true)));
  }

  lemma TransmitFollows(s: State, n: nat)
    requires n < |s.sends| && s.sends[n].request < |s.requests| && s.operation == Some(s.sends[n].request)
    ensures Follows(s, Transmit(s, n))
  {
  }

  lemma GivesFollows(s: State, t: State)
    requires Gives(s, t)
    ensures Follows(s, t)
  {
  }

  lemma SendCheckFollows(s: State, n: nat, answer: Answer<Session>)
    requires n < |s.sends| && s.sends[n].request < |s.requests|
    ensures Follows(s, SessionForSending(s, n, answer))
  {
    var u, error := SessionForSending(s, n, answer), if answer.Failed? then answer.error else Status(401, false);
    CatchFollows(s, n, error);
    OtherSessionGives(s, n);
    assert Gives(s, FinishSend(s, n));
    hide CatchSend, StartBoot, Drop, Follows, Transmit, FinishSend, Await, Gives;
    if s.operation == Some(s.sends[n].request) {
      TransmitFollows(s, n);
    }
    if u == FinishSend(s, n) || u == CatchSend(s, n, error) || u == Await(StartBoot(Drop(s, true)), n, Closing) {
      GivesFollows(s, u);
    }
  }

  lemma SuccessFollows(s: State, n: nat)
    requires n < |s.sends| && s.sends[n].request < |s.requests|
    ensures Gives(s, Succeeded(s, n))
  {
    var k, r := s.sends[n].request, s.requests[s.sends[n].request];
    var put := Put(s, k, r.(args := None, phase := Done));
    MarkGives(s, k, r.(args := None, phase := Done));
    ReadingFollows(put.(operation := None), r.tenant, Some(r.session), 0);
    hide StartBoot, LoadScope, Put;
  }

  lemma ReplyFollows(s: State, n: nat, w: nat, answer: Answer<bool>)
    requires n < |s.sends| && s.sends[n].request < |s.requests| && w < |s.wire|
    ensures Follows(s, Replied(s, n, w, answer))
  {
    SuccessFollows(s, n);
    CatchFollows(s, n, NoStatus);
    if answer.Failed? {
      var refused := s.(wire := s.wire[w := s.wire[w].(rejected := true)]);
      CatchFollows(s, n, answer.error);
      CatchFollows(refused, n, answer.error);
    }
    hide CatchSend, Succeeded, LeavesOpen;
  }

  lemma StepFollows(s: State, e: Event)
    ensures Follows(s, Step(s, e)) || Submits(s, e, Step(s, e))
  {
    hide StartBoot, Invalidate, LoadScope, SessionForSending, Replied, SessionRead, TenantsRead, ScopeRead, Truthful, AppliedKey,
      SubmitRequest, RetryRequest, Submits;
    if Enabled(s, e) {
      match e {
        case SessionForSend(n, answer) => SendCheckFollows(s, n, answer);
        case Reply(n, answer) => ReplyFollows(s, n, s.sends[n].stage.transmission, answer);
        case SessionForRead(n, answer) => SessionReadFollows(s, n, answer);
        case TenantsForRead(n, answer) => TenantsReadFollows(s, n, answer);
        case ScopeForRead(n, answer) => ScopeReadFollows(s, n, answer);
        case SelectTenant(tenant) => ReadingFollows(s, tenant, s.currentSession, 0);
        case Hide => ReadingFollows(s, EMPTY_TENANT, None, 0);
        case Boot => ReadingFollows(s, EMPTY_TENANT, None, 0);
        case Submit(content, key) => ClicksFollow(s, content, key);
        case Retry => ClicksFollow(s, 0, 0);
        case EndSend(n) =>
        case Apply(w) =>
        case Reload =>
      }
    }
  }

  lemma ClicksFollow(s: State, content: nat, key: nat)
    ensures SubmitRequest(s, content, key) == s || Submits(s, Submit(content, key), SubmitRequest(s, content, key))
    ensures Follows(s, RetryRequest(s))
  {
  }

  /** What was let go with nothing in force never takes effect, whatever happens later. */
  lemma {:induction false} NeverAppliedLater(s: State, events: seq<Event>, k: nat)
    requires Invariant(s) && Dead(s, k)
    ensures Dead(Run(s, events), k) && !AppliedRequest(Run(s, events), k)
    decreases |events|
  {
    RunKeeps(s, events);
    if events != [] {
      var last := |events| - 1;
      NeverAppliedLater(s, events[..last], k);
      StepFollows(Run(s, events[..last]), events[last]);
    }
    hide Step, OperationRight, SendingRight, SendsRight, WireRight, FirstRight, OneSend, BusyRight;
  }

  // ----- never stuck

  /** Main result: a live request with nothing in flight is uncertain, keeps its arguments, and its button sends it again. */
  lemma NeverStuck(s: State, events: seq<Event>, k: nat)
    requires Initial(s) && Run(s, events).operation == Some(k)
    requires forall n :: 0 <= n < |Run(s, events).sends| && Run(s, events).sends[n].request == k ==> !InFlight(Run(s, events).sends[n])
    ensures var t := Run(s, events);
            && k < |t.requests| && t.requests[k].status.Uncertain? && t.requests[k].unconfirmed
            && t.requests[k].args == Some(t.requests[k].submitted)
            && (t.ready && (t.surface.Console? ==> t.requests[k].tenant == t.currentTenant) ==>
                  Carries(RetryRequest(t), |t.sends|, k))
  {
    Reachable(s, events);
    hide Run, Initial, SendsRight, WireRight, FirstRight, OneSend, BusyRight, EffectsRight;
  }

  /** The page is busy only while a send of the current session is under way. */
  lemma BusyMeansWorking(s: State, events: seq<Event>)
    requires Initial(s) && Run(s, events).busy
    ensures exists n :: 0 <= n < |Run(s, events).sends| && Working(Run(s, events), n)
  {
    Reachable(s, events);
    hide Run, Initial, OperationRight, SendingRight, SendsRight, WireRight, FirstRight, OneSend, EffectsRight;
  }
}
