/** What every run of the organization forms keeps. */
module OrganizationRuns {
  import opened OrganizationRequests

  // ----- the invariant

  /** The operation is a request of the current session whose arguments are still there. */
  predicate OperationRight(s: State) {
    s.operation.Some? ==>
      && s.operation.value < |s.requests|
      && var r := s.requests[s.operation.value];
         && Some(r.session) == s.currentSession && r.args == Some(r.submitted) && !r.phase.Done? && !r.status.New?
         && (r.status.Uncertain? ==> r.unconfirmed)
  }

  predicate InFlight(c: Send) {
    c.stage.AwaitSession? || c.stage.AwaitReply?
  }

  /** The n-th send is on its way for request k and nothing has been invalidated since. */
  predicate Carries(s: State, n: nat, k: nat) {
    && n < |s.sends| && s.sends[n].request == k && InFlight(s.sends[n]) && s.sends[n].generation == s.epoch
    && k < |s.requests| && (s.surface.Console? ==> s.requests[k].tenant == s.currentTenant)
  }

  /** A request that is being sent has a send that will settle it. */
  predicate SendingRight(s: State) {
    s.operation.Some? && s.operation.value < |s.requests| && s.requests[s.operation.value].status.Sending? ==>
      exists n :: 0 <= n < |s.sends| && Carries(s, n, s.operation.value)
  }

  predicate SendsRight(s: State) {
    forall n :: 0 <= n < |s.sends| ==>
      && s.sends[n].request < |s.requests|
      && (s.sends[n].stage.AwaitReply? ==>
            && s.sends[n].stage.transmission < |s.wire|
            && s.wire[s.sends[n].stage.transmission].request == s.sends[n].request)
  }

  /** Every transmission carries its request's own arguments, tenant and session. */
  predicate WireRight(s: State) {
    forall w :: 0 <= w < |s.wire| ==> s.wire[w].request < |s.requests| && Carried(s.wire[w], s.requests[s.wire[w].request])
  }

  predicate Carried(t: Transmission, r: Request) {
    t.key == r.key && t.args == Some(r.submitted) && t.session == r.session && t.tenant == r.tenant
  }

  /** A second transmission needs an unconfirmed request; a first one happens only in phase sent. */
  predicate FirstRight(s: State) {
    && (forall v, w :: 0 <= v < w < |s.wire| && s.wire[v].request == s.wire[w].request && s.wire[w].request < |s.requests| ==>
          s.requests[s.wire[w].request].unconfirmed)
    && (s.operation.Some? && s.operation.value < |s.requests| ==>
          var r := s.requests[s.operation.value];
          !r.unconfirmed && !r.phase.Sent? ==> NeverSent(s, s.operation.value))
  }

  /** A request that is not unconfirmed has one send, which transmits at most once. */
  predicate OneSend(s: State) {
    && (forall m, n :: 0 <= m < n < |s.sends| && s.sends[m].request == s.sends[n].request && s.sends[n].request < |s.requests| ==>
          s.requests[s.sends[n].request].unconfirmed)
    && (forall n :: 0 <= n < |s.sends| && s.sends[n].stage.AwaitSession? && s.sends[n].request < |s.requests|
                    && s.operation == Some(s.sends[n].request) && !s.requests[s.sends[n].request].unconfirmed ==>
          NeverSent(s, s.sends[n].request))
  }

  predicate NeverSent(s: State, k: nat) {
    forall w :: 0 <= w < |s.wire| ==> s.wire[w].request != k
  }

  /** The busy mark belongs to a send of the current session that has not ended. */
  predicate Working(s: State, n: nat) {
    && n < |s.sends| && !s.sends[n].stage.Finished? && s.sends[n].request < |s.requests|
    && Some(s.requests[s.sends[n].request].session) == s.currentSession
  }

  predicate BusyRight(s: State) {
    s.busy ==> exists n :: 0 <= n < |s.sends| && Working(s, n)
  }

  /** The server applied each key at most once, and nothing it refused. */
  predicate EffectsRight(s: State) {
    && (forall i :: 0 <= i < |s.effects| ==> s.effects[i] < |s.wire| && !s.wire[s.effects[i]].rejected)
    && (forall i, j :: 0 <= i < j < |s.effects| && s.effects[i] < |s.wire| && s.effects[j] < |s.wire| ==>
          s.wire[s.effects[i]].key != s.wire[s.effects[j]].key)
  }

  predicate Invariant(s: State) {
    && OperationRight(s) && SendingRight(s) && SendsRight(s) && WireRight(s) && FirstRight(s) && OneSend(s) && BusyRight(s)
    && EffectsRight(s)
  }

  /** Nothing is being sent that could be left hanging. */
  predicate Idle(s: State) {
    s.operation.Some? && s.operation.value < |s.requests| ==> s.requests[s.operation.value].status.Uncertain?
  }

  // ----- small moves

  /** A change of what the protocol does not depend on. */
  predicate Inert(s: State, t: State) {
    && t.surface == s.surface && t.epoch == s.epoch && t.operation == s.operation && t.currentSession == s.currentSession
    && t.currentTenant == s.currentTenant && t.busy == s.busy && t.requests == s.requests && t.sends == s.sends
    && t.wire == s.wire && t.effects == s.effects
  }

  /** What sends and the busy mark rest on, where only one request, the wire or what the page shows besides has changed. */
  predicate SameSends(s: State, t: State) {
    && t.surface == s.surface && t.epoch == s.epoch && t.operation == s.operation && t.currentSession == s.currentSession
    && t.currentTenant == s.currentTenant && (t.busy ==> s.busy) && t.sends == s.sends && |t.requests| == |s.requests|
    && forall k :: 0 <= k < |s.requests| ==>
         && t.requests[k].session == s.requests[k].session && t.requests[k].tenant == s.requests[k].tenant
         && (t.requests[k].status.Sending? ==> s.requests[k].status.Sending?)
  }

  lemma SendsStay(s: State, t: State)
    requires SendingRight(s) && BusyRight(s) && SameSends(s, t)
    ensures SendingRight(t) && BusyRight(t)
  {
    if s.operation.Some? && s.operation.value < |s.requests| && s.requests[s.operation.value].status.Sending? {
      var n :| 0 <= n < |s.sends| && Carries(s, n, s.operation.value);
      assert Carries(t, n, t.operation.value);
    }
    if s.busy {
      var n :| 0 <= n < |s.sends| && Working(s, n);
      assert Working(t, n);
    }
  }

  lemma InertKeeps(s: State, t: State)
    requires Invariant(s) && Inert(s, t)
    ensures Invariant(t)
  {
    SendsStay(s, t);
    hide SendingRight, BusyRight;
  }

  /** Changing one request's progress: what stays fixed about it. */
  predicate SameRequest(r: Request, q: Request) {
    q.key == r.key && q.submitted == r.submitted && q.session == r.session && q.tenant == r.tenant && (r.unconfirmed ==> q.unconfirmed)
  }

  /** A request that is not the operation may look as if it were being sent. */
  lemma PutSends(s: State, k: nat, r: Request)
    requires SendingRight(s) && BusyRight(s) && k < |s.requests| && SameRequest(s.requests[k], r)
    requires s.operation == Some(k) ==> r.status.Uncertain?
    ensures SendingRight(Put(s, k, r)) && BusyRight(Put(s, k, r))
  {
    var t := Put(s, k, r);
    if s.busy {
      var n :| 0 <= n < |s.sends| && Working(s, n);
      assert Working(t, n);
    }
    if t.operation.Some? && t.operation.value < |t.requests| && t.requests[t.operation.value].status.Sending? {
      var n :| 0 <= n < |s.sends| && Carries(s, n, s.operation.value);
      assert Carries(t, n, s.operation.value);
    }
  }

  lemma PutWire(s: State, k: nat, r: Request)
    requires WireRight(s) && FirstRight(s) && k < |s.requests| && SameRequest(s.requests[k], r)
    requires s.operation == Some(k) ==> r.unconfirmed
    ensures WireRight(Put(s, k, r)) && FirstRight(Put(s, k, r))
  {
  }

  lemma PutOneSend(s: State, k: nat, r: Request)
    requires OneSend(s) && k < |s.requests| && SameRequest(s.requests[k], r) && (s.operation == Some(k) ==> r.unconfirmed)
    ensures OneSend(Put(s, k, r))
  {
  }

  lemma PutKeeps(s: State, k: nat, r: Request)
    requires Invariant(s) && k < |s.requests| && SameRequest(s.requests[k], r)
    requires s.operation == Some(k) ==> r.args == Some(r.submitted) && r.status.Uncertain? && r.unconfirmed && !r.phase.Done?
    ensures Invariant(Put(s, k, r))
  {
    PutSends(s, k, r);
    PutWire(s, k, r);
    PutOneSend(s, k, r);
    hide SendingRight, BusyRight, WireRight, FirstRight, OneSend;
  }

  lemma DropKeeps(s: State, clear: bool)
    requires Invariant(s)
    ensures Invariant(Drop(s, clear)) && Drop(s, clear).operation.None?
  {
    var t := Drop(s, clear);
    if s.busy {
      var n :| 0 <= n < |s.sends| && Working(s, n);
      assert Working(t, n);
    }
  }

  /** With nothing in flight for the operation, generation and tenant may change. */
  lemma IdleKeeps(s: State, epoch: nat, tenant: Tenant)
    requires Invariant(s) && Idle(s)
    ensures Invariant(s.(epoch := epoch, currentTenant := tenant)) && Idle(s.(epoch := epoch, currentTenant := tenant))
  {
    var t := s.(epoch := epoch, currentTenant := tenant);
    if s.busy {
      var n :| 0 <= n < |s.sends| && Working(s, n);
      assert Working(t, n);
    }
  }

  lemma InvalidateKeeps(s: State)
    requires Invariant(s)
    ensures Invariant(Invalidate(s)) && Idle(Invalidate(s))
  {
    hide SendingRight, SendsRight, WireRight, FirstRight, OneSend, BusyRight, EffectsRight;
    var t := s.(booting := None);
    InertKeeps(s, t);
    if s.operation.Some? {
      var k, r := s.operation.value, s.requests[s.operation.value];
      if r.phase.Sent? || r.unconfirmed {
        PutKeeps(t, k, MarkUncertain(r));
        IdleKeeps(Put(t, k, MarkUncertain(r)), s.epoch + 1, s.currentTenant);
      } else {
        DropKeeps(t, s.surface.JoinForm?);
        IdleKeeps(Drop(t, s.surface.JoinForm?), s.epoch + 1, s.currentTenant);
      }
    } else {
      IdleKeeps(t, s.epoch + 1, s.currentTenant);
    }
  }

  // ----- reading

  lemma FailReadKeeps(s: State, generation: nat)
    requires Invariant(s)
    ensures Invariant(FailRead(s, generation)) && (Idle(s) ==> Idle(FailRead(s, generation)))
  {
    hide Invariant, Invalidate;
    InvalidateKeeps(s);
    InertKeeps(Invalidate(s), Invalidate(s).(ready := false));
  }

  lemma StartBootKeeps(s: State)
    requires Invariant(s)
    ensures Invariant(StartBoot(s)) && (Idle(s) ==> Idle(StartBoot(s)))
  {
    hide Invariant, Invalidate;
    InvalidateKeeps(s);
    if s.booting.None? {
      InertKeeps(Invalidate(s), StartBoot(s));
    }
  }

  lemma LoadScopeKeeps(s: State, tenant: Tenant, selected: Option<Session>)
    requires Invariant(s)
    ensures Invariant(LoadScope(s, tenant, selected)) && Idle(LoadScope(s, tenant, selected))
  {
    hide Invariant, Invalidate;
    InvalidateKeeps(s);
    var t := Invalidate(s);
    IdleKeeps(t, t.epoch, tenant);
    InertKeeps(t.(epoch := t.epoch, currentTenant := tenant), LoadScope(s, tenant, selected));
  }

  lemma EndReadKeeps(s: State, n: nat)
    requires Invariant(s) && n < |s.lookups|
    ensures Invariant(EndRead(s, n))
  {
    hide Invariant;
    InertKeeps(s, EndRead(s, n));
  }

  lemma AdoptKeeps(s: State, found: Session)
    requires Invariant(s)
    ensures Invariant(Adopt(s, found))
  {
    if s.currentSession != Some(found) {
      DropKeeps(s, true);
    }
  }

  lemma ReadFailsKeeps(s: State, n: nat)
    requires Invariant(s) && n < |s.lookups|
    ensures Invariant(ReadFails(s, n))
  {
    hide Invariant, FailRead, EndRead;
    FailReadKeeps(s, s.lookups[n].generation);
    EndReadKeeps(FailRead(s, s.lookups[n].generation), n);
  }

  lemma SessionReadKeeps(s: State, n: nat, answer: Answer<Found>)
    requires Invariant(s) && n < |s.lookups| && s.lookups[n].stage.ReadSession?
    ensures Invariant(SessionRead(s, n, answer))
  {
    hide Invariant, EndRead, ReadFails, Adopt, LoadScope;
    EndReadKeeps(s, n);
    ReadFailsKeeps(s, n);
    if answer.Good? {
      var t := Adopt(s, answer.value.session);
      AdoptKeeps(s, answer.value.session);
      InertKeeps(t, t.(lookups := SessionRead(s, n, answer).lookups));
      LoadScopeKeeps(t, answer.value.tenant, Some(answer.value.session));
      EndReadKeeps(LoadScope(t, answer.value.tenant, Some(answer.value.session)), n);
    }
  }

  lemma TenantsReadKeeps(s: State, n: nat, answer: Answer<set<Tenant>>)
    requires Invariant(s) && n < |s.lookups| && s.lookups[n].stage.ReadTenants?
    ensures Invariant(TenantsRead(s, n, answer))
  {
    hide Invariant, EndRead, ReadFails, LoadScope;
    EndReadKeeps(s, n);
    ReadFailsKeeps(s, n);
    var stage := s.lookups[n].stage;
    if answer.Good? {
      var tenant := if stage.same && s.currentTenant in answer.value then s.currentTenant else EMPTY_TENANT;
      LoadScopeKeeps(s, tenant, Some(stage.found));
      EndReadKeeps(LoadScope(s, tenant, Some(stage.found)), n);
    }
  }

  lemma ScopeReadKeeps(s: State, n: nat, answer: Answer<bool>)
    requires Invariant(s) && n < |s.lookups| && s.lookups[n].stage.ReadScope?
    ensures Invariant(ScopeRead(s, n, answer))
  {
    hide Invariant, EndRead, ReadFails;
    EndReadKeeps(s, n);
    ReadFailsKeeps(s, n);
    InertKeeps(EndRead(s, n), EndRead(s, n).(ready := true));
  }

  // ----- sending

  lemma StartSendKeeps(s: State, k: nat)
    requires Invariant(s) && k < |s.requests|
    requires s.operation == Some(k) && !s.requests[k].status.Sending? ==>
               s.surface.Console? ==> s.requests[k].tenant == s.currentTenant
    ensures Invariant(StartSend(s, k))
  {
    if s.operation == Some(k) && !s.requests[k].status.Sending? {
      var t := StartSend(s, k);
      assert Carries(t, |s.sends|, k);
      assert Working(t, |s.sends|);
    }
  }

  lemma SubmitKeeps(s: State, content: nat, key: nat)
    requires Invariant(s)
    ensures Invariant(SubmitRequest(s, content, key))
  {
    if s.operation.None? && s.currentSession.Some? {
      var t, k := SubmitRequest(s, content, key), |s.requests|;
      hide StartSend;
      NewRequestKeeps(s, content, key);
    }
  }

  /** A new request on its way to the session check. */
  lemma NewRequestKeeps(s: State, content: nat, key: nat)
    requires Invariant(s) && s.operation.None? && s.currentSession.Some?
    ensures var r := Request(key, content, Some(content), s.currentSession.value, s.currentTenant, New, Checking, false);
            Invariant(StartSend(s.(requests := s.requests + [r], operation := Some(|s.requests|)), |s.requests|))
  {
    var r := Request(key, content, Some(content), s.currentSession.value, s.currentTenant, New, Checking, false);
    var t := StartSend(s.(requests := s.requests + [r], operation := Some(|s.requests|)), |s.requests|);
    assert Carries(t, |s.sends|, |s.requests|);
    assert Working(t, |s.sends|);
    assert forall k :: 0 <= k < |s.requests| ==> t.requests[k] == s.requests[k];
  }

  lemma RetryKeeps(s: State)
    requires Invariant(s)
    ensures Invariant(RetryRequest(s))
  {
    hide StartSend, SendingRight, SendsRight, WireRight, FirstRight, OneSend, BusyRight, EffectsRight;
    if s.operation.Some? && s.requests[s.operation.value].status.Uncertain?
       && (s.surface.Console? ==> s.requests[s.operation.value].tenant == s.currentTenant) {
      StartSendKeeps(s, s.operation.value);
    }
  }

  /** A send may end, or wait for a reload, once it is no longer what carries the operation. */
  lemma EndSendKeeps(s: State, n: nat, stage: SendStage)
    requires Invariant(s) && n < |s.sends| && (stage.Finished? || stage.Closing?)
    requires Idle(s) || s.operation != Some(s.sends[n].request) || !Carries(s, n, s.sends[n].request)
    requires stage.Finished? ==> Some(s.requests[s.sends[n].request].session) != s.currentSession || !s.busy
    ensures Invariant(Await(s, n, stage))
  {
    var t := Await(s, n, stage);
    if s.busy {
      var m :| 0 <= m < |s.sends| && Working(s, m);
      assert Working(t, m);
    }
    if s.operation.Some? && s.requests[s.operation.value].status.Sending? {
      var m :| 0 <= m < |s.sends| && Carries(s, m, s.operation.value);
      assert Carries(t, m, s.operation.value);
    }
  }

  lemma FinishKeeps(s: State, n: nat)
    requires Invariant(s) && n < |s.sends|
    requires Idle(s) || s.operation != Some(s.sends[n].request) || !Carries(s, n, s.sends[n].request)
    ensures Invariant(FinishSend(s, n))
  {
    var calm := s.(busy := FinishSend(s, n).busy);
    BusyEnds(s, calm.busy);
    hide OperationRight, SendingRight, WireRight, FirstRight, OneSend, BusyRight, EffectsRight;
    assert Carries(calm, n, s.sends[n].request) == Carries(s, n, s.sends[n].request);
    EndSendKeeps(calm, n, Finished);
    assert FinishSend(s, n) == Await(calm, n, Finished);
  }

  lemma BusyEnds(s: State, busy: bool)
    requires Invariant(s) && (busy ==> s.busy)
    ensures Invariant(s.(busy := busy))
  {
    var t := s.(busy := busy);
    if s.operation.Some? && s.requests[s.operation.value].status.Sending? {
      var n :| 0 <= n < |s.sends| && Carries(s, n, s.operation.value);
      assert Carries(t, n, t.operation.value);
    }
    if s.busy {
      var n :| 0 <= n < |s.sends| && Working(s, n);
      assert Working(t, n);
    }
  }

  lemma BecomesUncertain(s: State, k: nat)
    requires Invariant(s) && IsLive(s, k)
    ensures var t := Put(s, k, MarkUncertain(s.requests[k])); Invariant(t) && Idle(t)
    ensures s.requests[k].unconfirmed ==> MarkUncertain(s.requests[k]) == s.requests[k].(status := Uncertain)
  {
    hide SendingRight, SendsRight, WireRight, FirstRight, OneSend, BusyRight, EffectsRight;
    PutKeeps(s, k, MarkUncertain(s.requests[k]));
  }

  lemma LetGo(s: State, clear: bool, unavailable: bool)
    requires Invariant(s)
    ensures var t := Drop(s, clear).(unavailable := unavailable); Invariant(t) && Idle(t)
  {
    DropKeeps(s, clear);
    hide Invariant, Drop;
    InertKeeps(Drop(s, clear), Drop(s, clear).(unavailable := unavailable));
  }

  lemma CaughtKeeps(s: State, k: nat, error: Error)
    requires Invariant(s) && IsLive(s, k)
    ensures Invariant(Caught(s, k, error)) && Idle(Caught(s, k, error))
  {
    hide Invariant, Idle, Drop, Put, MarkUncertain;
    BecomesUncertain(s, k);
    LetGo(s, s.surface.JoinForm?, Drop(s, s.surface.JoinForm?).unavailable);
    LetGo(s, true, Drop(s, true).unavailable);
    LetGo(s, false, true);
  }

  lemma CatchKeeps(s: State, n: nat, error: Error)
    requires Invariant(s) && n < |s.sends| && s.sends[n].request < |s.requests|
    ensures Invariant(CatchSend(s, n, error))
  {
    hide Invariant, Caught, FailRead, FinishSend, Idle;
    var k := s.sends[n].request;
    if IsLive(s, k) {
      CaughtKeeps(s, k, error);
      var t := Caught(s, k, error);
      FailReadKeeps(t, s.sends[n].generation);
      var denied := error.Status? && (error.code == 401 || error.code == 403);
      FinishKeeps(if denied then FailRead(t, s.sends[n].generation) else t, n);
    } else {
      NotLive(s, k);
      FinishKeeps(s, n);
    }
  }

  lemma NotLive(s: State, k: nat)
    requires Invariant(s) && !IsLive(s, k) && k < |s.requests|
    ensures s.operation != Some(k)
  {
  }

  /** The check found another session: the request is let go and the page reads anew. */
  lemma OtherSessionKeeps(s: State, n: nat)
    requires Invariant(s) && n < |s.sends| && s.sends[n].request < |s.requests|
    ensures Invariant(Await(StartBoot(Drop(s, true)), n, Closing))
  {
    DropKeeps(s, true);
    var t := Drop(s, true);
    StartBootKeeps(t);
    StartBootDrops(t);
    hide Invariant, Drop, StartBoot;
    EndSendKeeps(StartBoot(t), n, Closing);
  }

  lemma StartBootDrops(s: State)
    requires s.operation.None?
    ensures StartBoot(s).operation.None?
  {
  }

  /** The session still is the request's own: it goes over the wire. */
  lemma TransmitKeeps(s: State, n: nat)
    requires Invariant(s) && n < |s.sends| && s.sends[n].stage.AwaitSession? && s.operation == Some(s.sends[n].request)
    requires Carries(s, n, s.sends[n].request)
    ensures Invariant(Transmit(s, n))
  {
    var k, t := s.sends[n].request, Transmit(s, n);
    hide EffectsRight;
    assert EffectsRight(t) by {
      EffectsStay(s, t, Transmission(s.requests[k].key, k, s.requests[k].args, s.requests[k].session, s.requests[k].tenant, false));
    }
    assert Carries(t, n, k);
    if s.busy {
      var m :| 0 <= m < |s.sends| && Working(s, m);
      assert Working(t, m);
    }
  }

  lemma EffectsStay(s: State, t: State, sent: Transmission)
    requires EffectsRight(s) && t.effects == s.effects && t.wire == s.wire + [sent]
    ensures EffectsRight(t)
  {
  }

  lemma SessionForSendKeeps(s: State, n: nat, answer: Answer<Session>)
    requires Invariant(s) && Enabled(s, SessionForSend(n, answer))
    ensures Invariant(SessionForSending(s, n, answer))
  {
    hide Invariant, FinishSend, CatchSend, Transmit, StartBoot, Drop, Await;
    var c := s.sends[n];
    if answer.Failed? {
      CatchKeeps(s, n, answer.error);
    } else if s.operation != Some(c.request) {
      FinishKeeps(s, n);
    } else if answer.Invalid? {
      CatchKeeps(s, n, Status(401, false));
    } else if answer.value != s.requests[c.request].session {
      OtherSessionKeeps(s, n);
    } else if !Carries(s, n, c.request) {
      FinishKeeps(s, n);
    } else {
      TransmitKeeps(s, n);
    }
  }

  lemma SuccessKeeps(s: State, n: nat)
    requires Invariant(s) && n < |s.sends| && IsLive(s, s.sends[n].request)
    ensures Invariant(Succeeded(s, n))
  {
    var c := s.sends[n];
    var k, r := c.request, s.requests[c.request];
    var t := Put(s, k, r.(args := None, phase := Done)).(operation := None);
    SettledKeeps(s, k);
    LoadScopeKeeps(t, r.tenant, Some(r.session));
    StartBootKeeps(t);
    StartBootDrops(t);
    hide Invariant, StartBoot, LoadScope, FinishSend, Await, Put;
    if c.generation != s.epoch || (s.surface.Console? && s.currentTenant != r.tenant) {
      FinishKeeps(t, n);
    } else if s.surface.Console? {
      EndSendKeeps(LoadScope(t, r.tenant, Some(r.session)), n, Closing);
    } else {
      EndSendKeeps(StartBoot(t), n, Closing);
    }
  }

  lemma SettledKeeps(s: State, k: nat)
    requires Invariant(s) && k < |s.requests| && s.operation == Some(k)
    ensures var t := Put(s, k, s.requests[k].(args := None, phase := Done)).(operation := None);
            Invariant(t) && Idle(t) && Kept(s, t) && t.operation.None?
  {
    var t := Put(s, k, s.requests[k].(args := None, phase := Done)).(operation := None);
    if s.busy {
      var n :| 0 <= n < |s.sends| && Working(s, n);
      assert Working(t, n);
    }
  }

  /** A refusal is noted with the transmission it answers. */
  lemma RefusalKeeps(s: State, w: nat)
    requires Invariant(s) && w < |s.wire| && w !in s.effects
    ensures Invariant(s.(wire := s.wire[w := s.wire[w].(rejected := true)]))
  {
    var t := s.(wire := s.wire[w := s.wire[w].(rejected := true)]);
    SendsStay(s, t);
    hide SendingRight, BusyRight;
    assert forall v :: 0 <= v < |s.wire| ==>
        && t.wire[v].request == s.wire[v].request && t.wire[v].key == s.wire[v].key
        && Carried(t.wire[v], s.requests[s.wire[v].request]);
  }

  lemma ReplyKeeps(s: State, n: nat, answer: Answer<bool>)
    requires Invariant(s) && Enabled(s, Reply(n, answer))
    ensures Invariant(Replied(s, n, s.sends[n].stage.transmission, answer))
  {
    hide Invariant, FinishSend, CatchSend, Succeeded, AppliedKey;
    var k, w := s.sends[n].request, s.sends[n].stage.transmission;
    if answer.Failed? {
      if !Refuses(answer.error) {
        CatchKeeps(s, n, answer.error);
      } else {
        RefusalKeeps(s, w);
        CatchKeeps(s.(wire := s.wire[w := s.wire[w].(rejected := true)]), n, answer.error);
      }
    } else if answer.Invalid? && s.surface.JoinForm? {
      CatchKeeps(s, n, NoStatus);
    } else if IsLive(s, k) {
      SuccessKeeps(s, n);
    } else {
      NotLive(s, k);
      FinishKeeps(s, n);
    }
  }

  lemma TakeUpCounts(s: State, w: nat)
    requires EffectsRight(s) && w < |s.wire| && !s.wire[w].rejected && !AppliedKey(s, s.wire[w].key)
    ensures EffectsRight(s.(effects := s.effects + [w]))
  {
  }

  lemma OtherEffects(s: State, effects: seq<nat>)
    requires Invariant(s) && EffectsRight(s.(effects := effects))
    ensures Invariant(s.(effects := effects))
  {
    SendsStay(s, s.(effects := effects));
    hide EffectsRight, SendingRight, BusyRight;
  }

  lemma TakeUpKeeps(s: State, w: nat)
    requires Invariant(s) && w < |s.wire|
    ensures Invariant(TakeUp(s, w))
  {
    hide AppliedKey, EffectsRight;
    if !s.wire[w].rejected && !AppliedKey(s, s.wire[w].key) {
      TakeUpCounts(s, w);
      hide Invariant;
      OtherEffects(s, s.effects + [w]);
    }
  }

  lemma StepKeeps(s: State, e: Event)
    requires Invariant(s)
    ensures Invariant(Step(s, e))
  {
    hide Invariant, StartBoot, Invalidate, LoadScope, SubmitRequest, RetryRequest, SessionForSending, Replied, FinishSend,
      SessionRead, TenantsRead, ScopeRead, TakeUp, Truthful;
    if Enabled(s, e) {
      match e {
        case Boot => StartBootKeeps(s);
        case Hide => InvalidateKeeps(s); InertKeeps(Invalidate(s), Invalidate(s).(ready := false));
        case SelectTenant(tenant) => LoadScopeKeeps(s, tenant, s.currentSession);
        case Submit(content, key) => SubmitKeeps(s, content, key);
        case Retry => RetryKeeps(s);
        case SessionForSend(n, answer) => SessionForSendKeeps(s, n, answer);
        case Reply(n, answer) => ReplyKeeps(s, n, answer);
        case EndSend(n) => ClosingEnds(s, n);
        case SessionForRead(n, answer) => SessionReadKeeps(s, n, answer);
        case TenantsForRead(n, answer) => TenantsReadKeeps(s, n, answer);
        case ScopeForRead(n, answer) => ScopeReadKeeps(s, n, answer);
        case Apply(w) => TakeUpKeeps(s, w);
        case Reload => RebuiltKeeps(s);
      }
    }
  }

  lemma ClosingEnds(s: State, n: nat)
    requires Invariant(s) && n < |s.sends| && s.sends[n].stage.Closing?
    ensures Invariant(FinishSend(s, n))
  {
    hide Invariant, FinishSend;
    FinishKeeps(s, n);
  }

  lemma RebuiltKeeps(s: State)
    requires Invariant(s)
    ensures Invariant(Rebuilt(s))
  {
  }

  lemma {:induction false} RunKeeps(s: State, events: seq<Event>)
    requires Invariant(s)
    ensures Invariant(Run(s, events))
    decreases |events|
  {
    hide Invariant, Step;
    if events != [] {
      var last := |events| - 1;
      RunKeeps(s, events[..last]);
      StepKeeps(Run(s, events[..last]), events[last]);
    }
  }
}
