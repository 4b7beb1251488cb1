/** The page as it works: references and request records changed in place by every callback. */
module OrganizationPage {
  import opened OrganizationRequests
  import opened OrganizationRuns
  import opened OrganizationGuarantees

  class Page {
    const surface: Surface
    var epoch: nat
    var booting: Option<nat>
    var attempts: nat
    var operation: Option<nat>
    var currentSession: Option<Session>
    var currentTenant: Tenant
    var ready: bool
    var busy: bool
    var unavailable: bool
    var requests: seq<Request>
    var sends: seq<Send>
    var lookups: seq<Read>
    var wire: seq<Transmission>
    var effects: seq<nat>

    constructor (surface: Surface)
      ensures Now() == Rebuilt(Now()) && requests == [] && wire == [] && effects == [] && this.surface == surface
    {
      this.surface := surface;
      epoch, booting, attempts, operation := 0, None, 0, None;
      currentSession, currentTenant, ready, busy, unavailable := None, EMPTY_TENANT, false, false, false;
      requests, sends, lookups, wire, effects := [], [], [], [], [];
    }

    ghost function Now(): State
      reads this
    {
      State(surface, epoch, booting, attempts, operation, currentSession, currentTenant, ready, busy, unavailable,
            requests, sends, lookups, wire, effects)
    }

    /** discard, or in the console the removal of the operation. */
    method Discard(clear: bool)
      modifies this`requests, this`operation
      ensures Now() == Drop(old(Now()), clear)
    {
      if operation.Some? && operation.value < |requests| && clear {
        requests := requests[operation.value := requests[operation.value].(args := None)];
      }
      operation := None;
    }

    method InvalidatePage()
      modifies this`booting, this`epoch, this`requests, this`operation
      ensures Now() == Invalidate(old(Now()))
    {
      booting := None;
      epoch := epoch + 1;
      if operation.Some? && operation.value < |requests| {
        var pending := requests[operation.value];
        if pending.phase.Sent? || pending.unconfirmed {
          pending := pending.(unconfirmed := true, status := Uncertain);
          requests := requests[operation.value := pending];
        } else if surface.JoinForm? {
          Discard(true);
        } else if pending.phase.Checking? {
          operation := None;
        }
      }
    }

    method ReadFailed(generation: nat)
      modifies this`booting, this`epoch, this`requests, this`operation, this`ready
      ensures Now() == FailRead(old(Now()), generation)
    {
      if generation != epoch {
        return;
      }
      InvalidatePage();
      ready := false;
    }

    method BootPage()
      modifies this`booting, this`attempts, this`epoch, this`requests, this`operation, this`ready, this`lookups
      ensures Now() == StartBoot(old(Now()))
    {
      if booting.Some? {
        return;
      }
      InvalidatePage();
      var attempt := attempts;
      attempts := attempts + 1;
      booting := Some(attempt);
      ready := false;
      lookups := lookups + [Read(epoch, Some(attempt), ReadSession)];
    }

    method LoadTenant(tenant: Tenant, selected: Option<Session>)
      modifies this`booting, this`epoch, this`requests, this`operation, this`ready, this`lookups, this`currentTenant
      ensures Now() == LoadScope(old(Now()), tenant, selected)
    {
      InvalidatePage();
      currentTenant := tenant;
      ready := false;
      if tenant != EMPTY_TENANT {
        lookups := lookups + [Read(epoch, None, ReadScope(selected))];
      }
    }

    /** The session that a boot has read. */
    method AdoptSession(found: Session)
      modifies this`requests, this`operation, this`busy, this`unavailable, this`currentTenant, this`currentSession
      ensures Now() == Adopt(old(Now()), found)
    {
      if currentSession != Some(found) {
        Discard(true);
        busy := false;
        if surface.Console? {
          unavailable := false;
          currentTenant := EMPTY_TENANT;
        }
      }
      currentSession := Some(found);
    }

    method StartSending(k: nat)
      requires k < |requests|
      modifies this`requests, this`busy, this`sends
      ensures Now() == StartSend(old(Now()), k)
    {
      if operation != Some(k) || requests[k].status.Sending? {
        return;
      }
      requests := requests[k := requests[k].(status := Sending)];
      requests := requests[k := requests[k].(phase := Checking)];
      busy := true;
      sends := sends + [Send(k, epoch, AwaitSession)];
    }

    /** mutate, submit */
    method SubmitContent(content: nat, key: nat)
      modifies this`requests, this`operation, this`busy, this`sends
      ensures Now() == SubmitRequest(old(Now()), content, key)
    {
      if operation.Some? || unavailable || !ready || currentSession.None? {
        return;
      }
      var k := |requests|;
      requests := requests + [Request(key, content, Some(content), currentSession.value, currentTenant, New, Checking, false)];
      operation := Some(k);
      StartSending(k);
    }

    /** The finally block. */
    method EndSending(n: nat)
      requires n < |sends| && sends[n].request < |requests|
      modifies this`sends, this`busy
      ensures Now() == FinishSend(old(Now()), n)
    {
      if Some(requests[sends[n].request].session) == currentSession {
        busy := false;
      }
      sends := sends[n := sends[n].(stage := Finished)];
    }

    /** The catch block for the request that is still the operation. */
    method NoteError(k: nat, error: Error)
      requires IsLive(Now(), k)
      modifies this`requests, this`operation, this`unavailable
      ensures Now() == Caught(old(Now()), k, error)
    {
      if requests[k].unconfirmed {
        requests := requests[k := requests[k].(status := Uncertain)];
      } else if !requests[k].phase.Sent? {
        Discard(surface.JoinForm?);
      } else if LeavesOpen(surface, error) {
        requests := requests[k := requests[k].(unconfirmed := true, status := Uncertain)];
      } else if surface.Console? && error == Status(503, true) {
        operation := None;
        unavailable := true;
      } else {
        Discard(true);
      }
    }

    /** The catch block and the finally block behind it. */
    method CatchError(n: nat, error: Error)
      requires n < |sends| && sends[n].request < |requests|
      modifies this
      ensures Now() == CatchSend(old(Now()), n, error)
    {
      hide Caught, FailRead;
      var k, generation := sends[n].request, sends[n].generation;
      if operation == Some(k) && Some(requests[k].session) == currentSession {
        NoteError(k, error);
        if error.Status? && (error.code == 401 || error.code == 403) {
          ReadFailed(generation);
        }
      }
      EndSending(n);
    }

    /** send goes on after the session check. */
    method SessionChecked(n: nat, answer: Answer<Session>)
      requires n < |sends| && sends[n].request < |requests|
      modifies this
      ensures Now() == SessionForSending(old(Now()), n, answer)
    {
      var k := sends[n].request;
      if answer.Failed? {
        CatchError(n, answer.error);
      } else if operation != Some(k) {
        EndSending(n);
      } else if answer.Invalid? {
        CatchError(n, Status(401, false));
      } else if answer.value != requests[k].session {
        Discard(true);
        BootPage();
        sends := sends[n := sends[n].(stage := Closing)];
      } else if sends[n].generation != epoch || (surface.Console? && requests[k].tenant != currentTenant) {
        EndSending(n);
      } else {
        requests := requests[k := requests[k].(phase := Sent)];
        var request := requests[k];
        sends := sends[n := sends[n].(stage := AwaitReply(|wire|))];
        wire := wire + [Transmission(request.key, k, request.args, request.session, request.tenant, false)];
      }
    }

    /** send goes on after a success. */
    method Settle(n: nat)
      requires n < |sends| && sends[n].request < |requests|
      modifies this
      ensures Now() == Succeeded(old(Now()), n)
    {
      hide Invalidate, LoadScope, StartBoot;
      var k := sends[n].request;
      var request := requests[k];
      operation := None;
      requests := requests[k := request.(args := None, phase := Done)];
      if sends[n].generation != epoch || (surface.Console? && currentTenant != request.tenant) {
        EndSending(n);
      } else {
        if surface.Console? {
          LoadTenant(request.tenant, Some(request.session));
        } else {
          BootPage();
        }
        sends := sends[n := sends[n].(stage := Closing)];
      }
    }

    /** send goes on after the reply to its transmission. */
    method ReplyArrived(n: nat, answer: Answer<bool>)
      requires n < |sends| && sends[n].request < |requests| && sends[n].stage.AwaitReply? && sends[n].stage.transmission < |wire|
      modifies this
      ensures Now() == Replied(old(Now()), n, old(sends[n].stage.transmission), answer)
    {
      var k, w := sends[n].request, sends[n].stage.transmission;
      if answer.Failed? {
        if Refuses(answer.error) {
          wire := wire[w := wire[w].(rejected := true)];
        }
        CatchError(n, answer.error);
      } else if answer.Invalid? && surface.JoinForm? {
        CatchError(n, NoStatus);
      } else if operation == Some(k) && Some(requests[k].session) == currentSession {
        Settle(n);
      } else {
        EndSending(n);
      }
    }

    /** The button of an uncertain request. */
    method RetryPressed()
      modifies this`requests, this`busy, this`sends
      ensures Now() == RetryRequest(old(Now()))
    {
      if operation.Some? && operation.value < |requests| && ready {
        var pending := requests[operation.value];
        if pending.status.Uncertain? && (surface.JoinForm? || pending.tenant == currentTenant) {
          StartSending(operation.value);
        }
      }
    }

    /** A read continuation ends, and with it the boot it belongs to. */
    method EndReading(n: nat)
      requires n < |lookups|
      modifies this`lookups, this`booting
      ensures Now() == EndRead(old(Now()), n)
    {
      var attempt := lookups[n].attempt;
      lookups := lookups[n := lookups[n].(stage := Ended)];
      if attempt.Some? && booting == attempt {
        booting := None;
      }
    }

    method ReadingFails(n: nat)
      requires n < |lookups|
      modifies this
      ensures Now() == ReadFails(old(Now()), n)
    {
      hide FailRead;
      ReadFailed(lookups[n].generation);
      EndReading(n);
    }

    /** boot and refresh go on after the session. */
    method SessionArrived(n: nat, answer: Answer<Found>)
      requires n < |lookups| && lookups[n].stage.ReadSession?
      modifies this
      ensures Now() == SessionRead(old(Now()), n, answer)
    {
      hide Adopt, LoadScope, EndRead, ReadFails;
      if lookups[n].generation != epoch {
        EndReading(n);
      } else if answer.Good? {
        var found := answer.value;
        var same := currentSession == Some(found.session);
        AdoptSession(found.session);
        if surface.JoinForm? {
          lookups := lookups[n := lookups[n].(stage := ReadScope(None))];
        } else if found.systemAdmin {
          lookups := lookups[n := lookups[n].(stage := ReadTenants(found.session, same))];
        } else {
          LoadTenant(found.tenant, Some(found.session));
          EndReading(n);
        }
      } else {
        ReadingFails(n);
      }
    }

    /** boot goes on after the managed organizations. */
    method TenantsArrived(n: nat, answer: Answer<set<Tenant>>)
      requires n < |lookups| && lookups[n].stage.ReadTenants?
      modifies this
      ensures Now() == TenantsRead(old(Now()), n, answer)
    {
      hide LoadScope, EndRead, ReadFails;
      var stage := lookups[n].stage;
      if lookups[n].generation != epoch {
        EndReading(n);
      } else if answer.Good? {
        var tenant := if stage.same && currentTenant in answer.value then currentTenant else EMPTY_TENANT;
        LoadTenant(tenant, Some(stage.found));
        EndReading(n);
      } else {
        ReadingFails(n);
      }
    }

    /** loadScope and refresh go on after the contents. */
    method ScopeArrived(n: nat, answer: Answer<bool>)
      requires n < |lookups| && lookups[n].stage.ReadScope?
      modifies this
      ensures Now() == ScopeRead(old(Now()), n, answer)
    {
      hide EndRead, ReadFails;
      var selected := lookups[n].stage.selected;
      if lookups[n].generation != epoch || (surface.Console? && answer.Good? && selected != currentSession) {
        EndReading(n);
      } else if answer.Good? {
        EndReading(n);
        ready := true;
      } else {
        ReadingFails(n);
      }
    }

    /** No callback of the page that was left goes on. */
    method Forget()
      modifies this`epoch, this`booting, this`attempts, this`sends, this`lookups
      ensures Now() == old(Now()).(epoch := 0, booting := None, attempts := 0, sends := [], lookups := [])
    {
      epoch := 0;
      booting := None;
      attempts := 0;
      sends := [];
      lookups := [];
    }

    /** The page is left and built anew; the server keeps what it has. */
    method Rebuild()
      modifies this
      ensures Now() == Rebuilt(old(Now()))
    {
      Forget();
      operation := None;
      currentSession := None;
      currentTenant := EMPTY_TENANT;
      ready := false;
      busy := false;
      unavailable := false;
    }

    /** One callback of the page, or one step of the server. */
    method Handle(e: Event)
      modifies this
      ensures Now() == Step(old(Now()), e)
    {
      hide StartBoot, Invalidate, LoadScope, SubmitRequest, RetryRequest, SessionForSending, Replied, FinishSend, SessionRead,
        TenantsRead, ScopeRead, AppliedKey, Rebuilt;
      var now := State(surface, epoch, booting, attempts, operation, currentSession, currentTenant, ready, busy, unavailable,
                       requests, sends, lookups, wire, effects);
      if !Enabled(now, e) {
        return;
      }
      match e {
        case Boot => BootPage();
        case Hide =>
          InvalidatePage();
          ready := false;
        case SelectTenant(tenant) =>
          if surface.Console? {
            LoadTenant(tenant, currentSession);
          }
        case Submit(content, key) => SubmitContent(content, key);
        case Retry => RetryPressed();
        case SessionForSend(n, answer) => SessionChecked(n, answer);
        case Reply(n, answer) => ReplyArrived(n, answer);
        case EndSend(n) => EndSending(n);
        case SessionForRead(n, answer) => SessionArrived(n, answer);
        case TenantsForRead(n, answer) => TenantsArrived(n, answer);
        case ScopeForRead(n, answer) => ScopeArrived(n, answer);
        case Apply(w) => effects := TakeUp(now, w).effects;
        case Reload => Rebuild();
      }
    }
  }

  /** A page that has handled any events, one after the other, is in the state that the model runs to. */
  method Replay(surface: Surface, events: seq<Event>) returns (page: Page, ghost start: State)
    ensures fresh(page) && Initial(start) && page.Now() == Run(start, events) && Invariant(page.Now())
  {
    page := new Page(surface);
    start := page.Now();
    for n := 0 to |events|
      invariant fresh(page) && Initial(start) && page.Now() == Run(start, events[..n])
    {
      hide Step;
      assert events[..n + 1][..n] == events[..n];
      page.Handle(events[n]);
    }
    assert events[..|events|] == events;
    Reachable(start, events);
  }
}
