/** What each event of the organization forms does: when something is submitted, sent, asked again, read and applied. */
module OrganizationEffects {
  import opened OrganizationRequests
  import opened OrganizationRuns
  import opened OrganizationGuarantees

  // ----- clicks

  /**
   * A submission is taken exactly on a page that is ready, has a session and no operation. It becomes the operation under
   * its own key, with what was submitted, the present session and tenant, and a send begins in the present generation.
   */
  lemma SubmitsExactlyWhen(s: State, content: nat, key: nat)
    ensures var k, t := |s.requests|, Step(s, Submit(content, key));
            if s.operation.None? && !s.unavailable && s.ready && s.currentSession.Some? then
              && t.operation == Some(k) && t.busy && |t.requests| == k + 1 && t.requests[..k] == s.requests
              && t.requests[k] == Request(key, content, Some(content), s.currentSession.value, s.currentTenant, Sending, Checking, false)
              && t.sends == s.sends + [Send(k, s.epoch, AwaitSession)] && t.wire == s.wire
            else t == s
  {
  }

  /** The button sends the operation again exactly if it is uncertain, on a ready page and, in the console, for its own tenant. */
  lemma RetriesExactlyWhen(s: State)
    requires Invariant(s)
    ensures var t := Step(s, Retry);
            if && s.operation.Some? && s.requests[s.operation.value].status.Uncertain? && s.ready
               && (s.surface.Console? ==> s.requests[s.operation.value].tenant == s.currentTenant) then
              var k := s.operation.value;
              t == s.(requests := s.requests[k := s.requests[k].(status := Sending, phase := Checking)], busy := true,
                      sends := s.sends + [Send(k, s.epoch, AwaitSession)])
            else t == s
  {
    hide SendingRight, SendsRight, WireRight, FirstRight, OneSend, BusyRight, EffectsRight;
  }

  // ----- sending

  /** After a good check of a send in force the request goes out, with its own key, arguments, tenant and session. */
  lemma SendsAfterGoodCheck(s: State, n: nat)
    requires n < |s.sends| && s.sends[n].request < |s.requests| && s.sends[n].stage.AwaitSession?
    ensures var k, t := s.sends[n].request, Step(s, SessionForSend(n, Good(s.requests[s.sends[n].request].session)));
            var r := s.requests[k];
            if s.operation == Some(k) && s.sends[n].generation == s.epoch && (s.surface.Console? ==> r.tenant == s.currentTenant) then
              && t.wire == s.wire + [Transmission(r.key, k, r.args, r.session, r.tenant, false)]
              && t.requests == s.requests[k := r.(phase := Sent)] && t.operation == s.operation
              && t.sends == s.sends[n := s.sends[n].(stage := AwaitReply(|s.wire|))]
            else
              && t.wire == s.wire && t.requests == s.requests && t.operation == s.operation
              && t.sends == s.sends[n := s.sends[n].(stage := Finished)]
  {
  }

  /** A check that finds another session lets the operation go and reads anew. */
  lemma OtherSessionLetsGo(s: State, n: nat, found: Session)
    requires Enabled(s, SessionForSend(n, Good(found))) && s.operation == Some(s.sends[n].request)
    requires found != s.requests[s.sends[n].request].session
    ensures var k, t := s.sends[n].request, Step(s, SessionForSend(n, Good(found)));
            && t.operation.None? && t.requests[k].args.None? && t.wire == s.wire
            && (s.booting.None? ==> t.booting.Some? && t.epoch > s.epoch && |t.lookups| == |s.lookups| + 1)
  {
  }

  /** A check that fails lets a request go that was never sent, and leaves one uncertain that may have been applied. */
  lemma FailedCheckDecides(s: State, n: nat, answer: Answer<Session>)
    requires Enabled(s, SessionForSend(n, answer)) && !answer.Good? && IsLive(s, s.sends[n].request)
    requires s.requests[s.sends[n].request].phase.Checking?
    ensures var k, t := s.sends[n].request, Step(s, SessionForSend(n, answer));
            && t.wire == s.wire
            && if s.requests[k].unconfirmed then t.operation == Some(k) && t.requests[k] == s.requests[k].(status := Uncertain)
               else t.operation.None? && (s.surface.JoinForm? ==> t.requests[k].args.None?)
  {
    CheckCaught(s, n, if answer.Failed? then answer.error else Status(401, false));
    hide CatchSend;
  }

  lemma CheckCaught(s: State, n: nat, error: Error)
    requires n < |s.sends| && IsLive(s, s.sends[n].request) && s.requests[s.sends[n].request].phase.Checking?
    ensures var k, t := s.sends[n].request, CatchSend(s, n, error);
            && t.wire == s.wire
            && if s.requests[k].unconfirmed then t.operation == Some(k) && t.requests[k] == s.requests[k].(status := Uncertain)
               else t.operation.None? && (s.surface.JoinForm? ==> t.requests[k].args.None?)
  {
    hide Caught, Invalidate;
    var k, t := s.sends[n].request, Caught(s, s.sends[n].request, error);
    UnsentCaught(s, k, error);
    InvalidationIs(t);
  }

  lemma UnsentCaught(s: State, k: nat, error: Error)
    requires IsLive(s, k) && s.requests[k].phase.Checking?
    ensures var t := Caught(s, k, error);
            && t.wire == s.wire && t.surface == s.surface
            && if s.requests[k].unconfirmed then t.operation == Some(k) && t.requests[k] == s.requests[k].(status := Uncertain)
               else t.operation.None? && (s.surface.JoinForm? ==> t.requests[k].args.None?)
  {
    hide LeavesOpen;
  }

  // ----- leaving and reading

  /** What an invalidation makes of the operation. */
  predicate Invalidated(s: State, t: State) {
    && t.epoch == s.epoch + 1 && t.booting.None? && t.wire == s.wire && |t.requests| == |s.requests|
    && (s.operation.None? ==> t.operation.None? && t.requests == s.requests)
    && (s.operation.Some? && s.operation.value < |s.requests| ==>
          var k, r := s.operation.value, s.requests[s.operation.value];
          && (forall j :: 0 <= j < |s.requests| && j != k ==> t.requests[j] == s.requests[j])
          && if r.phase.Sent? || r.unconfirmed then
               t.operation == Some(k) && t.requests[k] == r.(unconfirmed := true, status := Uncertain)
             else if s.surface.JoinForm? then t.operation.None? && t.requests[k] == r.(args := None)
             else if r.phase.Checking? then t.operation.None? && t.requests[k] == r
             else t.operation == Some(k) && t.requests[k] == r)
  }

  lemma InvalidationIs(s: State)
    ensures Invalidated(s, Invalidate(s))
  {
  }

  /** Hiding the page keeps what was sent, uncertain, and lets what was only being checked go; the page is no longer ready. */
  lemma HidingInvalidates(s: State)
    ensures Invalidated(s, Step(s, Hide)) && !Step(s, Hide).ready && Step(s, Hide).lookups == s.lookups
  {
    hide Invalidate;
    InvalidationIs(s);
  }

  /** A boot begins exactly if none is under way: it invalidates, and its read is the only one of the new generation. */
  lemma BootsExactlyWhen(s: State)
    ensures var t := Step(s, Boot);
            if s.booting.None? then
              && Invalidated(s, t.(booting := None)) && !t.ready && t.booting == Some(s.attempts) && t.attempts == s.attempts + 1
              && t.lookups == s.lookups + [Read(t.epoch, Some(s.attempts), ReadSession)]
            else t == s
  {
    hide Invalidate;
    InvalidationIs(s);
    InvalidationSpares(s);
  }

  lemma InvalidationSpares(s: State)
    ensures var t := Invalidate(s);
            && t.attempts == s.attempts && t.lookups == s.lookups && t.currentSession == s.currentSession && t.surface == s.surface
            && t.currentTenant == s.currentTenant && t.busy == s.busy && t.unavailable == s.unavailable
  {
  }

  /** Choosing a tenant, in the console, invalidates and reads that tenant's scope, unless none is chosen. */
  lemma SelectionLoads(s: State, tenant: Tenant)
    ensures var t := Step(s, SelectTenant(tenant));
            if s.surface.Console? then
              && Invalidated(s, t) && t.currentTenant == tenant && !t.ready
              && t.lookups == s.lookups + if tenant == 0 then [] else [Read(t.epoch, None, ReadScope(s.currentSession))]
            else t == s
  {
    hide Invalidate;
    InvalidationIs(s);
    InvalidationSpares(s);
  }

  /** The n-th read is one of the present generation. */
  predicate ReadsNow(s: State, n: nat, stage: ReadStage) {
    n < |s.lookups| && s.lookups[n].generation == s.epoch && s.lookups[n].stage == stage
  }

  /** A session that was read becomes the current one; another than before lets the operation go and frees the page. */
  lemma SessionReadAdopts(s: State, n: nat, found: Found)
    requires ReadsNow(s, n, ReadSession) && (s.surface.JoinForm? || found.systemAdmin)
    ensures var t := Step(s, SessionForRead(n, Good(found)));
            && t.currentSession == Some(found.session) && t.wire == s.wire
            && t.lookups[n].stage == (if s.surface.JoinForm? then ReadScope(None)
                                      else ReadTenants(found.session, s.currentSession == Some(found.session)))
            && (s.currentSession == Some(found.session) ==> t == s.(lookups := t.lookups))
            && (s.currentSession != Some(found.session) ==>
                  && t.operation.None? && !t.busy
                  && (s.surface.Console? ==> !t.unavailable && t.currentTenant == 0)
                  && (s.operation.Some? && s.operation.value < |s.requests| ==> t.requests[s.operation.value].args.None?))
  {
    hide Adopt, LoadScope;
    Adopts(s, found.session);
  }

  lemma Adopts(s: State, found: Session)
    ensures var t := Adopt(s, found);
            && t.currentSession == Some(found) && t.wire == s.wire && t.surface == s.surface && t.lookups == s.lookups
            && (s.currentSession == Some(found) ==> t == s)
            && (s.currentSession != Some(found) ==>
                  && t.operation.None? && !t.busy
                  && (s.surface.Console? ==> !t.unavailable && t.currentTenant == 0)
                  && (s.operation.Some? && s.operation.value < |s.requests| ==> t.requests[s.operation.value].args.None?))
  {
  }

  /** An organization admin goes straight on to the own tenant. */
  lemma AdminReadsOwnTenant(s: State, n: nat, found: Found)
    requires ReadsNow(s, n, ReadSession) && s.surface.Console? && !found.systemAdmin
    ensures var t := Step(s, SessionForRead(n, Good(found)));
            && t.currentSession == Some(found.session) && t.currentTenant == found.tenant && t.wire == s.wire
            && (found.tenant != 0 ==>
                  |t.lookups| == |s.lookups| + 1 && t.lookups[|s.lookups|] == Read(t.epoch, None, ReadScope(Some(found.session))))
            && t.lookups[n].stage.Ended?
  {
    hide Adopt, Invalidate, LoadScope;
    var a := Adopt(s, found.session);
    Adopts(s, found.session);
    ScopeLoads(a, found.tenant, Some(found.session));
  }

  lemma ScopeLoads(s: State, tenant: Tenant, found: Option<Session>)
    ensures var t := LoadScope(s, tenant, found);
            && t.currentSession == s.currentSession && t.currentTenant == tenant && t.wire == s.wire
            && (if tenant == 0 then t.lookups == s.lookups else t.lookups == s.lookups + [Read(t.epoch, None, ReadScope(found))])
  {
  }

  /** Of the managed tenants the chosen one stays chosen exactly if the session is the same and still has it. */
  lemma TenantStaysExactlyWhen(s: State, n: nat, same: bool, found: Session, tenants: set<Tenant>)
    requires ReadsNow(s, n, ReadTenants(found, same))
    ensures var t := Step(s, TenantsForRead(n, Good(tenants)));
            t.currentTenant == (if same && s.currentTenant in tenants then s.currentTenant else 0) && !t.ready
  {
  }

  /** The page becomes ready exactly with good contents of the present generation, in the console for the present session. */
  lemma ReadyExactlyWhen(s: State, n: nat, answer: Answer<bool>)
    requires Enabled(s, ScopeForRead(n, answer)) && !s.ready
    ensures Step(s, ScopeForRead(n, answer)).ready
       <==> && s.lookups[n].generation == s.epoch && answer.Good?
            && (s.surface.Console? ==> s.lookups[n].stage.selected == s.currentSession)
  {
    hide Invalidate;
    InvalidationSpares(s);
  }

  /** A read that fails in the present generation invalidates the page; one of an earlier generation changes nothing. */
  lemma FailedReadInvalidates(s: State, n: nat, error: Error)
    requires n < |s.lookups| && s.lookups[n].stage.ReadSession?
    ensures var t := Step(s, SessionForRead(n, Failed(error)));
            if s.lookups[n].generation == s.epoch then Invalidated(s, t) && !t.ready && t.lookups[n].stage.Ended?
            else t.requests == s.requests && t.operation == s.operation && t.epoch == s.epoch && t.ready == s.ready
  {
    hide Invalidate;
    InvalidationIs(s);
    InvalidationSpares(s);
  }

  // ----- the server

  /** A transmission takes effect exactly if it was not refused and nothing with its key has taken effect. */
  lemma AppliesExactlyWhen(s: State, w: nat)
    requires w < |s.wire|
    ensures var t := Step(s, Apply(w));
            if !s.wire[w].rejected && forall i :: 0 <= i < |s.effects| && s.effects[i] < |s.wire| ==>
                 s.wire[s.effects[i]].key != s.wire[w].key
            then t == s.(effects := s.effects + [w]) else t == s
  {
  }
}
