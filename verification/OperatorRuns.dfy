/** Single runs from start to end: what a clean run leaves, and exactly when an absent lock can be trusted. */
module OperatorRuns {
  import opened SnapshotGuard
  import opened OperatorInterleaving
  import opened OperatorGuarantees

  /** The run of one operator alone against a list of answers. */
  function Solo(w: World, i: nat, o: Operator, may: Callbacks, events: seq<Event>): (World, Operator) {
    if events == [] then (w, o)
    else
      var (v, q) := Solo(w, i, o, may, events[..|events| - 1]);
      Step(v, i, q, may, events[|events| - 1])
  }

  function Turns(i: nat, events: seq<Event>): (turns: seq<Turn>)
    ensures |turns| == |events| && forall k :: 0 <= k < |turns| ==> turns[k] == Turn(i, events[k])
  {
    seq(|events|, k requires 0 <= k < |events| => Turn(i, events[k]))
  }

  lemma {:induction false} SoloIsASchedule(s: System, i: nat, events: seq<Event>)
    requires i < |s.ops|
    ensures var (v, q) := Solo(s.world, i, s.ops[i], s.may, events);
            Schedule(s, Turns(i, events)) == s.(world := v, ops := s.ops[i := q])
    decreases |events|
  {
    hide Step;
    if events != [] {
      var last := |events| - 1;
      SoloIsASchedule(s, i, events[..last]);
      assert Turns(i, events)[..last] == Turns(i, events[..last]);
    } else {
      assert s.ops[i := s.ops[i]] == s.ops;
    }
  }

  const QUIET := Go(None, None, false)

  function Quiet(n: nat): (events: seq<Event>)
    ensures |events| == n
  {
    if n == 0 then [] else Quiet(n - 1) + [QUIET]
  }

  /** A run in its body that nothing has disturbed, and what it has done to the files so far. */
  predicate Undisturbed(w: World, i: nat, o: Operator, start: World) {
    && o.mode.Running? && !o.found && o.pc <= End(o)
    && w.confirmed == start.confirmed
    && w.lock == (if o.pc <= o.roots then Absent else if o.pc == o.roots + 1 then Torn(i) else Held(i))
    && w.captures == if o.pc + 1 < End(o) then start.captures else start.captures[o.capture := Folder(Written(i), None)]
  }

  lemma UndisturbedOp(w: World, i: nat, o: Operator, op: Op, start: World)
    requires Undisturbed(w, i, o, start) && Fits(o, op) && o.capture !in start.captures
    ensures var (v, q) := Execute(w, i, o, op, QUIET);
            && q.mode.Running? && !q.found && q.pc == o.pc + 1 && SameRun(o, q)
            && v.confirmed == start.confirmed
            && v.lock == (if q.pc <= o.roots then Absent else if q.pc == o.roots + 1 then Torn(i) else Held(i))
            && v.captures == if q.pc + 1 < End(o) then start.captures else start.captures[o.capture := Folder(Written(i), None)]
  {
    hide Site, End, Converted, Or;
  }

  lemma UndisturbedStep(w: World, i: nat, o: Operator, may: Callbacks, start: World)
    requires RunInv(w, i, o, may) && Undisturbed(w, i, o, start) && o.pc < End(o) && o.capture !in start.captures
    ensures var (v, q) := Step(w, i, o, may, QUIET);
            Undisturbed(v, i, q, start) && q.pc == o.pc + 1 && q.capture == o.capture && q.roots == o.roots && End(q) == End(o)
  {
    CurrentFits(o);
    var op := Program(o.roots, o.images, o.found)[o.pc];
    UndisturbedOp(w, i, o, op, start);
    hide Images, Site, RunInv, Program, Execute, Fits;
  }

  lemma {:induction false} BodyRuns(w: World, i: nat, o: Operator, may: Callbacks, n: nat)
    requires Fresh(o) && i !in w.confirmed && w.lock.Absent? && o.capture !in w.captures && n <= End(o)
    ensures var (v, q) := Solo(w, i, o, may, Quiet(n));
            RunInv(v, i, q, may) && Undisturbed(v, i, q, w) && q.pc == n && q.capture == o.capture
            && q.roots == o.roots && End(q) == End(o)
    decreases n
  {
    hide RunInv, Step, Undisturbed;
    if n == 0 {
      FreshHolds(w, i, o, may);
      FreshIsUndisturbed(w, i, o);
    } else {
      BodyRuns(w, i, o, may, n - 1);
      var (v, q) := Solo(w, i, o, may, Quiet(n - 1));
      assert Quiet(n)[..n - 1] == Quiet(n - 1);
      UndisturbedStep(v, i, q, may, w);
      StepKeeps(v, i, q, may, QUIET);
    }
  }

  lemma FreshIsUndisturbed(w: World, i: nat, o: Operator)
    requires Fresh(o) && w.lock.Absent? && o.capture !in w.captures
    ensures Undisturbed(w, i, o, w)
  {
    ProgramShape(o);
    assert Site(o) >= o.roots + |OPENING|;
    hide Program, Images;
  }

  lemma {:induction false} SoloConcatenates(w: World, i: nat, o: Operator, may: Callbacks, a: seq<Event>, b: seq<Event>)
    ensures var (v, q) := Solo(w, i, o, may, a); Solo(w, i, o, may, a + b) == Solo(v, i, q, may, b)
    decreases |b|
  {
    hide Step;
    if b == [] {
      assert a + b == a;
    } else {
      var last := |b| - 1;
      SoloConcatenates(w, i, o, may, a, b[..last]);
      assert (a + b)[..|a + b| - 1] == a + b[..last];
    }
  }

  // ----- unwinding after the body has returned

  /** A run that unwinds with d frames left, everything else as it was when the body returned. */
  function At(o: Operator, d: nat, p: Option<Fault>): Operator
    requires d <= |Full(o.roots)|
  {
    o.(stack := Full(o.roots)[..d], mode := Unwinding(p))
  }

  predicate Returned(w: World, i: nat, o: Operator) {
    && o.mode.Running? && !o.found && o.remembered && o.stack == Full(o.roots) && o.pc == End(o) && !o.kept
    && w.lock == Held(i) && i !in w.confirmed
  }

  lemma BodyReturns(w: World, i: nat, o: Operator, may: Callbacks)
    requires Fresh(o) && i !in w.confirmed && w.lock.Absent? && o.capture !in w.captures
    ensures var (v, q) := Solo(w, i, o, may, Quiet(End(o)));
            && Returned(v, i, q) && q.roots == o.roots
            && v == World(Held(i), w.captures[o.capture := Folder(Written(i), None)], w.confirmed)
  {
    BodyRuns(w, i, o, may, End(o));
    var (v, q) := Solo(w, i, o, may, Quiet(End(o)));
    ReturnIsInside(q);
    FullAt(q.roots);
    hide Solo, Quiet, Full, Images, Site, End, ReceiptRight, EndRight;
  }

  lemma StepReturn(w: World, i: nat, o: Operator, may: Callbacks)
    requires Returned(w, i, o)
    ensures |Full(o.roots)| == o.roots + 4 && Step(w, i, o, may, QUIET) == (w, At(o, o.roots + 4, None))
  {
    FullAt(o.roots);
    assert Full(o.roots)[..o.roots + 4] == Full(o.roots);
    hide Full, Program;
  }

  lemma StepExit(w: World, i: nat, o: Operator, d: nat, p: Option<Fault>, may: Callbacks, e: Event)
    requires e.Go? && 0 < d <= |Full(o.roots)|
    ensures |Full(o.roots)| == o.roots + 4
    ensures var q := At(o, d - 1, p);
            Step(w, i, At(o, d, p), may, e) == match Full(o.roots)[d - 1]
              case Root => ExitRoot(w, q, p, may, e)
              case LockFile => ExitLock(w, i, q, p, e)
              case ClearPool => ExitClear(w, q, p, may, e)
              case Completion => ExitCompletion(w, i, q, p, e)
              case RuntimeHold => ExitRuntime(w, i, q, p, e)
  {
    FullAt(o.roots);
    assert Full(o.roots)[..d][..d - 1] == Full(o.roots)[..d - 1];
    hide Full, ExitRoot, ExitLock, ExitClear, ExitCompletion, ExitRuntime;
  }

  lemma StepTopFrames(w: World, i: nat, o: Operator, p: Option<Fault>, may: Callbacks, e: Event)
    requires e.Go?
    ensures |Full(o.roots)| == o.roots + 4
    ensures var n := o.roots;
            && Step(w, i, At(o, n + 4, p), may, e) == ExitRuntime(w, i, At(o, n + 3, p), p, e)
            && Step(w, i, At(o, n + 3, p), may, e) == ExitCompletion(w, i, At(o, n + 2, p), p, e)
            && Step(w, i, At(o, n + 2, p), may, e) == ExitClear(w, At(o, n + 1, p), p, may, e)
            && Step(w, i, At(o, n + 1, p), may, e) == ExitLock(w, i, At(o, n, p), p, e)
  {
    FullAt(o.roots);
    StepExit(w, i, o, o.roots + 4, p, may, e);
    StepExit(w, i, o, o.roots + 3, p, may, e);
    StepExit(w, i, o, o.roots + 2, p, may, e);
    StepExit(w, i, o, o.roots + 1, p, may, e);
    hide Step, ExitRuntime, ExitCompletion, ExitClear, ExitLock, At, Full;
  }

  lemma UnlinkStep(w: World, i: nat, o: Operator, p: Option<Fault>, may: Callbacks)
    requires o.mode == Unlinking(p)
    ensures Step(w, i, o, may, QUIET) == (w.(lock := Absent), Raise(o, p))
  {
  }

  /** Undisturbed unwinding confirms the receipt and gives up the lock. */
  lemma CleanExit(w: World, i: nat, o: Operator, may: Callbacks)
    requires Returned(w, i, o)
    ensures |Full(o.roots)| == o.roots + 4
    ensures Solo(w, i, o, may, [QUIET, QUIET, QUIET, QUIET, QUIET, QUIET])
         == (World(Absent, w.captures, w.confirmed + {i}), At(o, o.roots, None))
  {
    var n, v := o.roots, w.(confirmed := w.confirmed + {i});
    SixSteps(w, i, o, may, QUIET, QUIET, QUIET, QUIET, QUIET, QUIET);
    StepReturn(w, i, o, may);
    hide Solo, Full, Step;
    StepTopFrames(w, i, o, None, may, QUIET);
    StepTopFrames(v, i, o, None, may, QUIET);
    UnlinkStep(v, i, At(o, n, None).(mode := Unlinking(None)), None, may);
  }

  lemma SixSteps(w: World, i: nat, o: Operator, may: Callbacks, a: Event, b: Event, c: Event, d: Event, e: Event, f: Event)
    ensures var (w1, o1) := Step(w, i, o, may, a);
            var (w2, o2) := Step(w1, i, o1, may, b);
            var (w3, o3) := Step(w2, i, o2, may, c);
            var (w4, o4) := Step(w3, i, o3, may, d);
            var (w5, o5) := Step(w4, i, o4, may, e);
            Solo(w, i, o, may, [a, b, c, d, e, f]) == Step(w5, i, o5, may, f)
  {
    hide Step;
    assert [a, b, c, d, e, f][..5] == [a, b, c, d, e] && [a, b, c, d, e][..4] == [a, b, c, d];
    assert [a, b, c, d][..3] == [a, b, c] && [a, b, c][..2] == [a, b] && [a, b][..1] == [a] && [a][..0] == [];
    assert Solo(w, i, o, may, [a]) == Step(w, i, o, may, a);
    assert Solo(w, i, o, may, [a, b]) == (var (v, q) := Solo(w, i, o, may, [a]); Step(v, i, q, may, b));
    assert Solo(w, i, o, may, [a, b, c]) == (var (v, q) := Solo(w, i, o, may, [a, b]); Step(v, i, q, may, c));
    assert Solo(w, i, o, may, [a, b, c, d]) == (var (v, q) := Solo(w, i, o, may, [a, b, c]); Step(v, i, q, may, d));
    assert Solo(w, i, o, may, [a, b, c, d, e]) == (var (v, q) := Solo(w, i, o, may, [a, b, c, d]); Step(v, i, q, may, e));
  }

  lemma OneStep(w: World, i: nat, o: Operator, may: Callbacks, e: Event)
    ensures Solo(w, i, o, may, [e]) == Step(w, i, o, may, e)
  {
    hide Step;
    assert [e][..0] == [];
  }

  lemma StepRoot(w: World, i: nat, o: Operator, d: nat, may: Callbacks)
    requires d <= o.roots && |Full(o.roots)| == o.roots + 4
    ensures d > 0 ==> Step(w, i, At(o, d, None), may, QUIET) == (w, At(o, d - 1, None))
    ensures d == 0 ==> Step(w, i, At(o, d, None), may, QUIET) == (w, At(o, 0, None).(mode := Ended(None)))
  {
    FullAt(o.roots);
    if d > 0 {
      StepExit(w, i, o, d, None, may, QUIET);
      hide Step;
    }
    hide Full, Exit, Execute, Program;
  }

  lemma {:induction false} RootsExit(w: World, i: nat, o: Operator, d: nat, may: Callbacks)
    requires d <= o.roots && |Full(o.roots)| == o.roots + 4
    ensures Solo(w, i, At(o, d, None), may, Quiet(d + 1)) == (w, At(o, 0, None).(mode := Ended(None)))
    decreases d
  {
    assert Quiet(1) == [QUIET] by {
      assert Quiet(0) == [];
    }
    hide Full, Step, Solo, Quiet, At;
    OneStep(w, i, At(o, d, None), may, QUIET);
    StepRoot(w, i, o, d, may);
    if d > 0 {
      QuietConcatenates(1, d);
      SoloConcatenates(w, i, At(o, d, None), may, Quiet(1), Quiet(d));
      RootsExit(w, i, o, d - 1, may);
    }
  }

  lemma {:induction false} QuietConcatenates(a: nat, b: nat)
    ensures Quiet(a + b) == Quiet(a) + Quiet(b)
    decreases b
  {
    if b > 0 {
      QuietConcatenates(a, b - 1);
    }
  }

  /** Main result: a run that nothing disturbs ends well, with its receipt written and confirmed and the lock given up. */
  lemma CleanRun(w: World, i: nat, o: Operator, may: Callbacks)
    requires Fresh(o) && i !in w.confirmed && w.lock.Absent? && o.capture !in w.captures
    ensures var (v, q) := Solo(w, i, o, may, Quiet(End(o) + 6 + o.roots + 1));
            && v == World(Absent, w.captures[o.capture := Folder(Written(i), None)], w.confirmed + {i})
            && q.mode == Ended(None)
  {
    hide Solo, Step, Full, End, At, Quiet, Fresh, Returned;
    var n, m := End(o), o.roots + 1;
    BodyReturns(w, i, o, may);
    var (v, q) := Solo(w, i, o, may, Quiet(n));
    CleanExit(v, i, q, may);
    RootsExit(World(Absent, v.captures, v.confirmed + {i}), i, q, q.roots, may);
    SixQuiet();
    QuietConcatenates(n, 6);
    QuietConcatenates(n + 6, m);
    assert Quiet(n + 6 + m) == Quiet(n + 6) + Quiet(m);
    SoloConcatenates(w, i, o, may, Quiet(n + 6), Quiet(m));
    SoloConcatenates(w, i, o, may, Quiet(n), Quiet(6));
  }

  lemma SixQuiet()
    ensures Quiet(6) == [QUIET, QUIET, QUIET, QUIET, QUIET, QUIET]
  {
    assert Quiet(0) == [] && Quiet(1) == [QUIET] && Quiet(2) == [QUIET, QUIET] && Quiet(3) == [QUIET, QUIET, QUIET];
    assert Quiet(4) == [QUIET, QUIET, QUIET, QUIET] && Quiet(5) == [QUIET, QUIET, QUIET, QUIET, QUIET];
  }

  // ----- when the pool's clear callback raises

  const RAISES := Go(Some(Ordinary), None, false)

  /** The recheck fails, the quarantine is prevented, and the callback's exception hides that this was uncertain. */
  lemma MaskedExit(w: World, i: nat, o: Operator, may: Callbacks)
    requires Returned(w, i, o) && may.clearRaises
    ensures Solo(w, i, o, may, [QUIET, RAISES, QUIET, RAISES, QUIET, QUIET]).0 == w.(lock := Absent)
  {
    var n, f, u := o.roots, Some(Ordinary), Some(Uncertain);
    SixSteps(w, i, o, may, QUIET, RAISES, QUIET, RAISES, QUIET, QUIET);
    StepReturn(w, i, o, may);
    hide Solo, Full, Step;
    StepTopFrames(w, i, o, None, may, RAISES);
    StepTopFrames(w, i, o, f, may, QUIET);
    StepTopFrames(w, i, o, u, may, RAISES);
    UnlinkStep(w, i, At(o, n, f).(mode := Unlinking(f)), f, may);
  }

  /** A run that ends with the lock absent and a receipt that was never confirmed. */
  lemma ClearCanMask(s: System, i: nat) returns (turns: seq<Turn>)
    requires Initial(s) && s.may.clearRaises && i < |s.ops| && s.world.lock.Absent? && s.ops[i].capture !in s.world.captures
    ensures !Safe(Schedule(s, turns).world)
  {
    var w, o := s.world, s.ops[i];
    BodyReturns(w, i, o, s.may);
    var (v, q) := Solo(w, i, o, s.may, Quiet(End(o)));
    var tail := [QUIET, RAISES, QUIET, RAISES, QUIET, QUIET];
    MaskedExit(v, i, q, s.may);
    hide Solo, Step, Full, End, Schedule, Returned;
    SoloConcatenates(w, i, o, s.may, Quiet(End(o)), tail);
    turns := Turns(i, Quiet(End(o)) + tail);
    SoloIsASchedule(s, i, Quiet(End(o)) + tail);
    var after := Schedule(s, turns).world;
    assert after.lock.Absent? && o.capture in after.captures && after.captures[o.capture] == Folder(Written(i), None);
  }

  /** Main result: an absent lock can be trusted in every interleaving exactly when clearing the pool raises no ordinary exception. */
  lemma TrustedExactlyWhenClearIsQuiet(s: System, i: nat)
    requires Initial(s) && i < |s.ops| && s.world.lock.Absent? && s.ops[i].capture !in s.world.captures
    ensures (forall turns :: Safe(Schedule(s, turns).world)) <==> !s.may.clearRaises
  {
    hide Schedule, Initial, Safe;
    if s.may.clearRaises {
      var turns := ClearCanMask(s, i);
    } else {
      forall turns
        ensures Safe(Schedule(s, turns).world)
      {
        AbsentLockProves(s, turns);
      }
    }
  }
}
