/** The guard as it works: one object whose files, stack and pending exception change step by step. */
module GuardedRun {
  import opened SnapshotGuard
  import opened OperatorRuns

  class Run {
    const token: nat
    const capture: CaptureId
    const roots: nat
    const images: nat
    const may: Callbacks
    var lock: Lock
    var captures: map<CaptureId, Folder>
    var confirmed: set<nat>
    var pc: nat
    var stack: seq<Frame>
    var mode: Mode
    var found: bool
    var written: bool
    var remembered: bool
    var kept: bool

    constructor (token: nat, capture: CaptureId, roots: nat, images: nat, may: Callbacks, world: World)
      ensures Files() == world && Fresh(State()) && this.token == token && this.may == may
      ensures this.capture == capture && this.roots == roots && this.images == images
    {
      this.token, this.capture, this.roots, this.images, this.may := token, capture, roots, images, may;
      lock, captures, confirmed := world.lock, world.captures, world.confirmed;
      pc, stack, mode := 0, [], Running;
      found, written, remembered, kept := false, false, false, false;
    }

    ghost function Files(): World
      reads this
    {
      World(lock, captures, confirmed)
    }

    ghost function State(): Operator
      reads this
    {
      Operator(capture, roots, images, pc, stack, mode, found, written, remembered, kept)
    }

    method Push(frame: Frame)
      modifies this`stack, this`pc
      ensures State() == SnapshotGuard.Push(old(State()), frame)
    {
      stack := stack + [frame];
      pc := pc + 1;
    }

    /** _operator_lock up to its yield: create the file exclusively, then write the token. */
    method CreateLockFile(e: Event)
      requires e.Go?
      modifies this`lock, this`pc, this`mode
      ensures (Files(), State()) == Execute(old(Files()), token, old(State()), CreateLock, e)
    {
      if lock.Absent? && (e.first.None? || e.effect) {
        lock := Torn(token);
        if e.first.None? {
          pc := pc + 1;
          return;
        }
      }
      mode := Unwinding(Converted(Or(e.first, Ordinary), Ordinary));
    }

    method WriteTokenToLock(e: Event)
      requires e.Go?
      modifies this`lock, this`pc, this`stack, this`mode
      ensures (Files(), State()) == Execute(old(Files()), token, old(State()), WriteToken, e)
    {
      if e.first.None? || e.effect {
        lock := Held(token);
      }
      if e.first.None? {
        Push(LockFile);
      } else {
        mode := Unwinding(Converted(e.first.value, Ordinary));
      }
    }

    /** The new capture writes its folder, whatever was there; a failing one may leave the folder without a receipt. */
    method Capture(e: Event)
      requires e.Go?
      modifies this`captures, this`pc, this`written, this`mode
      ensures (Files(), State()) == Execute(old(Files()), token, old(State()), WriteReceipt, e)
    {
      if e.first.Some? {
        if e.effect {
          captures := captures[capture := Folder(Missing, None)];
        }
        mode := Unwinding(e.first);
      } else {
        captures := captures[capture := Folder(Written(token), None)];
        written := true;
        pc := pc + 1;
      }
    }

    /** _NewCaptureCompletion.__exit__ */
    method ExitNewCapture(p: Option<Fault>, e: Event)
      requires e.Go?
      modifies this`captures, this`mode
      ensures (Files(), State()) == ExitCompletion(old(Files()), token, old(State()), p, e)
    {
      mode := Unwinding(p);
      if p.None? || !remembered {
        return;
      }
      if capture in captures && captures[capture].receipt == Written(token) && e.effect {
        captures := captures[capture := Folder(Missing, Some(token))];
      }
      mode := Unwinding(Some(if e.second == Some(Interrupt) then Interrupt else Uncertain));
    }

    /** _operator_lock after its yield, up to the comparison of the token. */
    method ExitOperatorLock(p: Option<Fault>, e: Event)
      requires e.Go?
      modifies this`mode, this`kept
      ensures (Files(), State()) == ExitLock(old(Files()), token, old(State()), p, e)
    {
      kept := kept || IsUncertain(p) || e.first.Some? || lock != Held(token);
      if IsUncertain(p) {
        mode := Unwinding(p);
      } else if e.first.Some? {
        mode := Unwinding(Converted(e.first.value, Uncertain));
      } else if lock != Held(token) {
        mode := Unwinding(Some(Uncertain));
      } else {
        mode := Unlinking(p);
      }
    }

    /** ExitStack.__exit__, one frame: the last one entered leaves first. */
    method Pop(e: Event)
      requires e.Go? && mode.Unwinding? && stack != []
      modifies this`captures, this`confirmed, this`mode, this`kept, this`stack
      ensures (Files(), State()) == Exit(old(Files()), token, old(State()), old(mode.pending), may, e)
    {
      var top, p := stack[|stack| - 1], mode.pending;
      stack := stack[..|stack| - 1];
      match top {
        case Root =>
          if may.rootsRaise && e.first.Some? {
            mode := Unwinding(e.first);
          }
        case ClearPool =>
          if e.first.Some? && (may.clearRaises || !e.first.value.Ordinary?) {
            mode := Unwinding(e.first);
          }
        case RuntimeHold =>
          if p.None? {
            if e.first.None? {
              confirmed := confirmed + {token};
            }
            mode := Unwinding(e.first);
          }
          if e.second == Some(Interrupt) {
            mode := Unwinding(e.second);
          }
        case Completion =>
          ExitNewCapture(p, e);
        case LockFile =>
          ExitOperatorLock(p, e);
      }
    }

    /** One operation of the body. */
    method Perform(op: Op, e: Event)
      requires e.Go?
      modifies this
      ensures (Files(), State()) == Execute(old(Files()), token, old(State()), op, e)
    {
      if op.CreateLock? {
        CreateLockFile(e);
      } else if op.WriteToken? {
        WriteTokenToLock(e);
      } else if op.WriteReceipt? {
        Capture(e);
      } else if e.first.Some? {
        mode := Unwinding(if op.Remember? then Some(Interrupt) else e.first);
      } else if op.VerifyExisting? && (capture !in captures || captures[capture].receipt.Missing?) {
        mode := Unwinding(Some(Ordinary));
      } else if op.PinRoot? {
        Push(Root);
      } else if op.PushClear? {
        Push(ClearPool);
      } else if op.PushCompletion? {
        Push(Completion);
      } else if op.EnterRuntime? {
        Push(RuntimeHold);
      } else {
        pc := pc + 1;
        found := if op.Locate? then capture in captures else found;
        remembered := remembered || op.Remember?;
      }
    }

    method Turn(e: Event)
      modifies this
      ensures (Files(), State()) == Step(old(Files()), token, old(State()), may, e)
    {
      if e.Crash? {
        if !mode.Ended? {
          mode := Crashed;
        }
        return;
      }
      match mode {
        case Running =>
          var program := Program(roots, images, found);
          if pc < |program| {
            Perform(program[pc], e);
          } else {
            mode := Unwinding(None);
          }
        case Unwinding(p) =>
          if stack == [] {
            mode := Ended(p);
          } else {
            Pop(e);
          }
        case Unlinking(p) =>
          if e.first.Some? {
            mode := Unwinding(Converted(e.first.value, Uncertain));
            kept := true;
          } else {
            lock := Absent;
            mode := Unwinding(p);
          }
        case _ =>
      }
    }

    /** The whole run against a list of answers does what the model of one run says. */
    method Go(events: seq<Event>)
      modifies this
      ensures (Files(), State()) == Solo(old(Files()), token, old(State()), may, events)
    {
      var n := 0;
      assert events[..0] == [];
      while n < |events|
        invariant 0 <= n <= |events|
        invariant (Files(), State()) == Solo(old(Files()), token, old(State()), may, events[..n])
      {
        hide Step;
        assert events[..n + 1][..n] == events[..n];
        Turn(events[n]);
        n := n + 1;
      }
      assert events[..n] == events;
    }
  }
}
