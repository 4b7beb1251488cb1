/** What every interleaving of snapshot operators guarantees. */
module OperatorGuarantees {
  import opened SnapshotGuard
  import opened OperatorInterleaving

  lemma Reachable(s: System, turns: seq<Turn>)
    requires Initial(s)
    ensures Invariant(Schedule(s, turns))
  {
    hide Invariant, Initial, Schedule;
    InitialHolds(s);
    ScheduleKeeps(s, turns);
  }

  lemma {:induction false} SameSize(s: System, turns: seq<Turn>)
    ensures |Schedule(s, turns).ops| == |s.ops| && Schedule(s, turns).may == s.may
    decreases |turns|
  {
    hide Step;
    if turns != [] {
      SameSize(s, turns[..|turns| - 1]);
    }
  }

  // ----- mutual exclusion

  /** At most one run is past the lock. */
  lemma AtMostOneInside(s: System, turns: seq<Turn>, i: nat, j: nat)
    requires Initial(s) && i < |s.ops| && j < |s.ops|
    ensures |Schedule(s, turns).ops| == |s.ops|
    ensures Inside(Schedule(s, turns).ops[i]) && Inside(Schedule(s, turns).ops[j]) ==> i == j
  {
    Reachable(s, turns);
    SameSize(s, turns);
    hide Schedule, Shape, ReceiptRight, EndRight, Initial, Inside;
  }

  /** A lock file is created only where there is none, and written or removed only by the run whose token it holds. */
  lemma OnlyTheOwnerMovesTheLock(s: System, turns: seq<Turn>, i: nat, e: Event)
    requires Initial(s)
    ensures var before, after := Schedule(s, turns).world.lock, Move(Schedule(s, turns), i, e).world.lock;
            || after == before
            || (before.Absent? && after == Torn(i))
            || (before == Torn(i) && after == Held(i))
            || (before == Held(i) && after.Absent?)
  {
    Reachable(s, turns);
    var t := Schedule(s, turns);
    if i < |t.ops| {
      StepIsLocal(t.world, i, t.ops[i], t.may, e);
    }
    hide Schedule, RunInv, Initial, Step;
  }

  // ----- after an uncertain end

  /** A lock file that no run will remove. */
  predicate Blocked(s: System) {
    !s.world.lock.Absent? && forall i :: 0 <= i < |s.ops| ==> !Inside(s.ops[i]) && !Creating(s.ops[i])
  }

  /** Leaving the lock behind blocks, and so does crashing while holding it or failing to write the token. */
  lemma AbandonedLockBlocks(s: System, i: nat)
    requires Invariant(s) && i < |s.ops| && !Inside(s.ops[i]) && !Creating(s.ops[i])
    requires s.world.lock == Held(i) || s.world.lock == Torn(i)
    ensures Blocked(s)
  {
  }

  /** A run that has not created the lock, or was turned away. */
  predicate Outside(o: Operator) {
    match o.mode
    case Running => o.pc <= o.roots
    case Unwinding(p) => p.Some? && |o.stack| <= o.roots
    case Unlinking(_) => false
    case Ended(result) => result.Some?
    case Crashed => true
  }

  lemma OutsideStep(w: World, i: nat, o: Operator, may: Callbacks, e: Event)
    requires RunInv(w, i, o, may) && !w.lock.Absent? && !Inside(o) && !Creating(o)
    ensures var (v, q) := Step(w, i, o, may, e);
            v == w && !Inside(q) && !Creating(q) && (Outside(o) ==> Outside(q))
  {
    if e.Go? && o.mode.Running? && o.pc < End(o) {
      CurrentFits(o);
    } else if e.Go? && o.mode.Running? {
      ReturnIsInside(o);
    } else if o.mode.Unwinding? && o.stack != [] {
      ExitFrames(o);
    }
    hide Program, Full, Images, Site, ReceiptRight, EndRight;
  }

  lemma BlockedMove(s: System, i: nat, e: Event)
    requires Invariant(s) && Blocked(s)
    ensures var t := Move(s, i, e);
            && t.world == s.world && Blocked(t)
            && forall k :: 0 <= k < |s.ops| && Outside(s.ops[k]) ==> Outside(t.ops[k])
  {
    if i < |s.ops| {
      OutsideStep(s.world, i, s.ops[i], s.may, e);
    }
    hide Step, Inside, Creating, Outside, RunInv;
  }

  /** From then on nothing changes on disk, and every run that comes later fails without ever holding the lock. */
  lemma {:induction false} BlockedForever(s: System, turns: seq<Turn>)
    requires Invariant(s) && Blocked(s)
    ensures var t := Schedule(s, turns);
            && t.world == s.world && Blocked(t) && |t.ops| == |s.ops|
            && forall k :: 0 <= k < |s.ops| && Outside(s.ops[k]) ==> Outside(t.ops[k])
    decreases |turns|
  {
    hide Move, Invariant, Blocked, Outside;
    SameSize(s, turns);
    if turns != [] {
      var last := |turns| - 1;
      BlockedForever(s, turns[..last]);
      ScheduleKeeps(s, turns[..last]);
      BlockedMove(Schedule(s, turns[..last]), turns[last].operator, turns[last].event);
    }
  }

  /** Main result: after a run has ended uncertain, every later run fails. */
  lemma UncertainEndBlocksLaterRuns(s: System, turns: seq<Turn>, i: nat, more: seq<Turn>, k: nat)
    requires Initial(s) && !s.may.rootsRaise && i < |s.ops| && k < |s.ops|
    requires |Schedule(s, turns).ops| == |s.ops|
    requires var o := Schedule(s, turns).ops[i]; o.mode.Ended? && o.pc >= o.roots + 2 && IsUncertain(o.mode.result)
    requires Fresh(Schedule(s, turns).ops[k])
    ensures var t := Schedule(Schedule(s, turns), more);
            && |t.ops| == |s.ops| && !Inside(t.ops[k])
            && (t.ops[k].mode.Ended? ==> t.ops[k].mode.result.Some?)
            && t.world == Schedule(s, turns).world
  {
    var t := Schedule(s, turns);
    Reachable(s, turns);
    SameSize(s, turns);
    hide Schedule, Initial, ReceiptRight, Shape;
    assert RunInv(t.world, i, t.ops[i], t.may);
    AbandonedLockBlocks(t, i);
    BlockedForever(t, more);
  }

  /** With quiet roots a run that took the lock ends uncertain exactly if it left the lock behind. */
  lemma UncertainExactlyIfLockKept(s: System, turns: seq<Turn>, i: nat)
    requires Initial(s) && !s.may.rootsRaise && i < |s.ops|
    requires |Schedule(s, turns).ops| == |s.ops|
    requires var o := Schedule(s, turns).ops[i]; o.mode.Ended? && o.pc >= o.roots + 2
    ensures IsUncertain(Schedule(s, turns).ops[i].mode.result) <==> Schedule(s, turns).world.lock == Held(i)
  {
    var t := Schedule(s, turns);
    Reachable(s, turns);
    SameSize(s, turns);
    hide Schedule, Initial, ReceiptRight, Shape;
    assert RunInv(t.world, i, t.ops[i], t.may);
  }

  // ----- receipts

  /** With the lock absent, every receipt written by a run was followed by a successful recheck on exit. */
  predicate Safe(w: World) {
    w.lock.Absent? ==> forall c :: c in w.captures && w.captures[c].receipt.Written? ==> w.captures[c].receipt.writer in w.confirmed
  }

  /** A receipt is confirmed, or the lock still guards it. */
  lemma ConfirmedOrGuarded(s: System, turns: seq<Turn>, c: CaptureId)
    requires Initial(s) && !s.may.clearRaises
    requires c in Schedule(s, turns).world.captures && Schedule(s, turns).world.captures[c].receipt.Written?
    ensures var w := Schedule(s, turns).world;
            w.captures[c].receipt.writer in w.confirmed || w.lock == Held(w.captures[c].receipt.writer)
  {
    var t := Schedule(s, turns);
    Reachable(s, turns);
    SameSize(s, turns);
    hide Schedule, Initial, Shape, LockRight, EndRight;
    var i := t.world.captures[c].receipt.writer;
    assert RunInv(t.world, i, t.ops[i], t.may);
  }

  lemma AbsentLockProves(s: System, turns: seq<Turn>)
    requires Initial(s) && !s.may.clearRaises
    ensures Safe(Schedule(s, turns).world)
  {
    hide Schedule, Initial;
    forall c | c in Schedule(s, turns).world.captures && Schedule(s, turns).world.captures[c].receipt.Written?
      ensures var w := Schedule(s, turns).world;
              w.captures[c].receipt.writer in w.confirmed || w.lock == Held(w.captures[c].receipt.writer)
    {
      ConfirmedOrGuarded(s, turns, c);
    }
  }

  /** A run whose recheck failed leaves the lock behind and its receipt renamed or under that lock. */
  lemma FailedRecheckIsContained(s: System, turns: seq<Turn>, i: nat)
    requires Initial(s) && !s.may.clearRaises && i < |s.ops| && |Schedule(s, turns).ops| == |s.ops|
    requires var t := Schedule(s, turns); t.ops[i].mode.Ended? && t.ops[i].written && i !in t.world.confirmed
    ensures var t := Schedule(s, turns);
            && t.world.lock == Held(i) && t.ops[i].capture in t.world.captures
            && t.world.captures[t.ops[i].capture] in {Folder(Written(i), None), Folder(Missing, Some(i))}
            && (!s.may.rootsRaise ==> IsUncertain(t.ops[i].mode.result))
  {
    var t := Schedule(s, turns);
    Reachable(s, turns);
    SameSize(s, turns);
    hide Schedule, Initial;
    assert RunInv(t.world, i, t.ops[i], t.may);
    hide Shape;
  }

  /** Unless it is prevented, the quarantine of a failed run renames exactly its own receipt. */
  lemma QuarantineRenames(w: World, i: nat, o: Operator, may: Callbacks, e: Event)
    requires RunInv(w, i, o, may) && e.Go? && e.effect
    requires o.mode.Unwinding? && o.mode.pending.Some? && o.remembered && |o.stack| == o.roots + 3
    ensures var (v, q) := Step(w, i, o, may, e);
            && v == w.(captures := w.captures[o.capture := Folder(Missing, Some(i))])
            && q.mode.Unwinding? && IsUncertain(q.mode.pending)
  {
    ExitFrames(o);
    hide Full, Program, Images, Site, LockRight, EndRight;
    assert w.captures[o.capture] == Folder(Missing, Some(i)) ==> w.captures[o.capture := Folder(Missing, Some(i))] == w.captures;
  }

  /** From a look that found nothing until the receipt is written the capture does not exist: the lock keeps others out. */
  lemma NothingAppearsAfterTheLook(s: System, turns: seq<Turn>, i: nat)
    requires Initial(s) && i < |s.ops| && |Schedule(s, turns).ops| == |s.ops|
    requires var o := Schedule(s, turns).ops[i]; o.mode.Running? && o.pc > Site(o) && !o.found && !o.written
    ensures Schedule(s, turns).ops[i].capture !in Schedule(s, turns).world.captures
  {
    var t := Schedule(s, turns);
    Reachable(s, turns);
    SameSize(s, turns);
    hide Schedule, Initial, Shape, ReceiptRight, LockRight, EndRight;
    assert RunInv(t.world, i, t.ops[i], t.may);
  }

  /** A capture that was there before any run is never written, renamed or removed. */
  lemma {:induction false} ExistingCaptureUntouched(s: System, turns: seq<Turn>, c: CaptureId)
    requires Initial(s) && c in s.world.captures
    ensures var t := Schedule(s, turns); c in t.world.captures && t.world.captures[c] == s.world.captures[c]
    decreases |turns|
  {
    hide Move, Invariant;
    if turns != [] {
      var last := |turns| - 1;
      var t, i, e := Schedule(s, turns[..last]), turns[last].operator, turns[last].event;
      ExistingCaptureUntouched(s, turns[..last], c);
      Reachable(s, turns[..last]);
      OthersUntouched(t, i, e, c);
    }
  }

  /** Only the writer of a receipt ever touches it. */
  lemma OthersUntouched(t: System, i: nat, e: Event, c: CaptureId)
    requires Invariant(t) && c in t.world.captures && t.world.captures[c].receipt != Written(i)
    ensures var u := Move(t, i, e); c in u.world.captures && u.world.captures[c] == t.world.captures[c]
  {
    if i < |t.ops| {
      StepIsLocal(t.world, i, t.ops[i], t.may, e);
    }
    hide RunInv, Step;
  }

  /** Once its run has ended, a receipt is there for good. */
  lemma {:induction false} SettledReceiptStays(s: System, turns: seq<Turn>, c: CaptureId, i: nat)
    requires Invariant(s) && i < |s.ops| && s.ops[i].mode.Ended?
    requires c in s.world.captures && s.world.captures[c].receipt == Written(i)
    ensures var t := Schedule(s, turns);
            && |t.ops| == |s.ops| && t.ops[i] == s.ops[i]
            && c in t.world.captures && t.world.captures[c] == s.world.captures[c]
    decreases |turns|
  {
    hide Invariant;
    if turns != [] {
      var last := |turns| - 1;
      var t, k, e := Schedule(s, turns[..last]), turns[last].operator, turns[last].event;
      SettledReceiptStays(s, turns[..last], c, i);
      ScheduleKeeps(s, turns[..last]);
      if k != i {
        OthersUntouched(t, k, e, c);
        hide Step;
      }
      hide Program, Execute, Exit;
    }
  }
}
