/** Any number of operators sharing the files: mutual exclusion, who may unlink, and what an absent lock proves. */
module OperatorInterleaving {
  import opened SnapshotGuard

  // ----- where a run is

  function Site(o: Operator): nat {
    o.roots + |OPENING| + |Images(o.images)|
  }

  function End(o: Operator): nat {
    |Program(o.roots, o.images, o.found)|
  }

  /** The exit stack of a run that has entered everything. */
  function Full(roots: nat): seq<Frame> {
    Repeat([Root], roots) + [LockFile, ClearPool, Completion, RuntimeHold]
  }

  /** How many frames are on the stack before operation pc. */
  function Depth(roots: nat, pc: nat): nat {
    if pc <= roots then pc
    else if pc <= roots + 1 then roots
    else if pc <= roots + 5 then roots + 1
    else if pc <= roots + 7 then roots + 2
    else if pc <= roots + 8 then roots + 3
    else roots + 4
  }

  lemma {:induction false} RepeatLength<T>(part: seq<T>, n: nat)
    ensures |part| == 1 ==> |Repeat(part, n)| == n && forall k :: 0 <= k < n ==> Repeat(part, n)[k] == part[0]
  {
    if n > 0 {
      RepeatLength(part, n - 1);
    }
  }

  lemma FinalIsSomething(n: nat)
    ensures Final(n) != []
  {
  }

  /** What the program holds at each place. */
  lemma ProgramShape(o: Operator)
    ensures var p, site, end := Program(o.roots, o.images, o.found), Site(o), End(o);
            && end > site
            && (forall k :: 0 <= k < o.roots ==> p[k] == PinRoot)
            && (forall k :: o.roots <= k < o.roots + |OPENING| ==> p[k] == OPENING[k - o.roots])
            && (forall k :: o.roots + |OPENING| <= k < site ==> p[k].Guarded?)
            && p[site] == Locate
            && (o.found ==> && end > site + 2 && p[site + 1] == VerifyExisting
                            && forall k :: site + 1 < k < end ==> p[k].Guarded?)
            && (!o.found ==> && end > site + 2 && p[end - 2] == WriteReceipt && p[end - 1] == Remember
                             && forall k :: site < k < end - 2 ==> p[k].Guarded?)
  {
    hide Repeat, Images, Final;
    RepeatLength([PinRoot], o.roots);
    FinalIsSomething(o.images);
  }

  /** At which places a frame is pushed. */
  lemma FullAt(roots: nat)
    ensures |Full(roots)| == roots + 4
    ensures forall k :: 0 <= k < roots ==> Full(roots)[k] == Root
    ensures Full(roots)[roots] == LockFile && Full(roots)[roots + 1] == ClearPool
    ensures Full(roots)[roots + 2] == Completion && Full(roots)[roots + 3] == RuntimeHold
  {
    RepeatLength([Root], roots);
    hide Repeat;
  }

  // ----- what holds of every run in every reachable state

  predicate Inside(o: Operator) {
    || ((o.mode.Running? || o.mode.Unwinding?) && |o.stack| > o.roots)
    || o.mode.Unlinking?
  }

  predicate Creating(o: Operator) {
    o.mode.Running? && o.pc == o.roots + 1
  }

  predicate Shape(o: Operator) {
    && o.stack <= Full(o.roots)
    && (o.mode.Running? ==>
          && |o.stack| == Depth(o.roots, o.pc) && o.pc <= End(o)
          && (o.pc <= Site(o) ==> !o.found)
          && (o.written <==> !o.found && o.pc + 1 >= End(o))
          && (o.remembered <==> !o.found && o.pc == End(o)))
    && (o.mode.Unlinking? ==> |o.stack| == o.roots && !IsUncertain(o.mode.pending))
    && (o.mode.Ended? ==> o.stack == [])
    && (o.remembered ==> o.written)
    && (|o.stack| > o.roots ==> o.pc >= o.roots + 2)
    && (o.written ==> o.pc >= o.roots + 2)
  }

  /** A run whose receipt is not confirmed is on its way to leaving the lock behind. */
  predicate Guarding(o: Operator) {
    match o.mode
    case Running => true
    case Unwinding(p) =>
      if |o.stack| > o.roots + 3 then IsUncertain(p) || o.remembered
      else if |o.stack| > o.roots + 2 then p.Some? && (IsUncertain(p) || o.remembered)
      else if |o.stack| > o.roots then IsUncertain(p)
      else o.kept
    case Unlinking(_) => false
    case Ended(_) => o.kept
    case Crashed => true
  }

  /** Between a look that found nothing and the receipt, there still is nothing. */
  predicate LookRight(w: World, o: Operator) {
    o.mode.Running? && o.pc > Site(o) && !o.found && !o.written ==> o.capture !in w.captures
  }

  predicate LockRight(w: World, i: nat, o: Operator) {
    && (Creating(o) ==> w.lock == Torn(i))
    && (Inside(o) ==> w.lock == Held(i))
    && (o.kept ==> w.lock == Held(i) && !Inside(o) && !o.mode.Running?)
    && (o.pc >= o.roots + 2 && !o.mode.Crashed? && !Inside(o) && !o.kept ==> w.lock != Held(i))
  }

  predicate ReceiptRight(w: World, i: nat, o: Operator, may: Callbacks) {
    && (i in w.confirmed ==> !o.mode.Running? && (o.mode.Unwinding? ==> |o.stack| <= o.roots + 3))
    && (o.written ==>
          && o.capture in w.captures
          && (w.captures[o.capture] == Folder(Written(i), None) || w.captures[o.capture] == Folder(Missing, Some(i))))
    && (!may.clearRaises && o.written && i !in w.confirmed ==> w.lock == Held(i) && Guarding(o))
  }

  /** Once its lock frame is left, a run ends uncertain exactly if it left the lock behind. */
  predicate EndRight(o: Operator, may: Callbacks) {
    !may.rootsRaise && o.pc >= o.roots + 2 ==>
      && (o.mode.Unwinding? && |o.stack| <= o.roots ==> (IsUncertain(o.mode.pending) <==> o.kept))
      && (o.mode.Ended? ==> (IsUncertain(o.mode.result) <==> o.kept))
      && (o.mode.Unlinking? || Inside(o) ==> !o.kept)
  }

  predicate RunInv(w: World, i: nat, o: Operator, may: Callbacks) {
    Shape(o) && LookRight(w, o) && LockRight(w, i, o) && ReceiptRight(w, i, o, may) && EndRight(o, may)
  }

  // ----- one step of one run

  /** Where in the program an operation stands. */
  predicate Fits(o: Operator, op: Op) {
    var pc, roots, site, end := o.pc, o.roots, Site(o), End(o);
    && site < end && roots + |OPENING| <= site && pc < end
    && site + 2 < end
    && match op
       case PinRoot => pc < roots
       case CreateLock => pc == roots
       case WriteToken => pc == roots + 1
       case PushClear => pc == roots + 5
       case PushCompletion => pc == roots + 7
       case EnterRuntime => pc == roots + 8
       case Guarded(_) =>
         && roots + 2 <= pc && pc != roots + 5 && pc != roots + 7 && pc != roots + 8 && pc != site
         && if o.found then pc != site + 1 else pc + 2 < end
       case Locate => pc == site
       case VerifyExisting => o.found && pc == site + 1
       case WriteReceipt => !o.found && pc + 2 == end
       case Remember => !o.found && pc + 1 == end
  }

  lemma CurrentFits(o: Operator)
    requires o.pc < End(o)
    ensures Fits(o, Program(o.roots, o.images, o.found)[o.pc])
  {
    ProgramShape(o);
    hide Program, Images;
    assert o.roots <= o.pc < o.roots + |OPENING| ==>
        var k := o.pc - o.roots; k in {0, 1, 2, 3, 4, 5, 6, 7, 8, 9, 10};
  }

  lemma RaiseShape(o: Operator, p: Option<Fault>)
    requires Shape(o) && o.mode.Running?
    ensures Shape(Raise(o, p))
  {
    hide Program, Full, Images;
  }

  lemma PushShape(o: Operator, op: Op, frame: Frame)
    requires Shape(o) && o.mode.Running? && Fits(o, op)
    requires match op case PinRoot => frame == Root case WriteToken => frame == LockFile case PushClear => frame == ClearPool
                      case PushCompletion => frame == Completion case EnterRuntime => frame == RuntimeHold case _ => false
    ensures Shape(Push(o, frame))
  {
    FullAt(o.roots);
    hide Program, Full, Images;
  }

  lemma NextShape(o: Operator, op: Op)
    requires Shape(o) && o.mode.Running? && Fits(o, op)
    requires op.CreateLock? || op.Guarded? || op.VerifyExisting?
    ensures Shape(Next(o))
  {
    hide Program, Full, Images;
  }

  lemma LocateShape(o: Operator, found: bool)
    requires Shape(o) && o.mode.Running? && Fits(o, Locate)
    ensures Shape(Next(o).(found := found))
  {
    ProgramShape(o.(found := found));
    hide Program, Full, Images;
  }

  lemma ReceiptShape(o: Operator, op: Op)
    requires Shape(o) && o.mode.Running? && Fits(o, op)
    ensures op.WriteReceipt? ==> Shape(Next(o).(written := true))
    ensures op.Remember? ==> Shape(Next(o).(remembered := true))
  {
    hide Program, Full, Images;
  }

  /** The run after a step that raises nothing. */
  function Advanced(w: World, o: Operator, op: Op): Operator {
    match op
    case PinRoot => Push(o, Root)
    case WriteToken => Push(o, LockFile)
    case PushClear => Push(o, ClearPool)
    case PushCompletion => Push(o, Completion)
    case EnterRuntime => Push(o, RuntimeHold)
    case Locate => Next(o).(found := o.capture in w.captures)
    case WriteReceipt => Next(o).(written := true)
    case Remember => Next(o).(remembered := true)
    case _ => Next(o)
  }

  lemma ExecuteOutcome(w: World, i: nat, o: Operator, op: Op, e: Event) returns (p: Option<Fault>)
    requires e.Go?
    ensures var q := Execute(w, i, o, op, e).1; q == Raise(o, p) || q == Advanced(w, o, op)
  {
    var q := Execute(w, i, o, op, e).1;
    p := if q.mode.Unwinding? then q.mode.pending else None;
    hide Converted, Or;
  }

  lemma AdvancedShape(w: World, o: Operator, op: Op)
    requires Shape(o) && o.mode.Running? && Fits(o, op)
    ensures Shape(Advanced(w, o, op))
  {
    match op {
      case PinRoot => PushShape(o, op, Root);
      case WriteToken => PushShape(o, op, LockFile);
      case PushClear => PushShape(o, op, ClearPool);
      case PushCompletion => PushShape(o, op, Completion);
      case EnterRuntime => PushShape(o, op, RuntimeHold);
      case Locate => LocateShape(o, o.capture in w.captures);
      case WriteReceipt => ReceiptShape(o, op);
      case Remember => ReceiptShape(o, op);
      case CreateLock => NextShape(o, op);
      case Guarded(_) => NextShape(o, op);
      case VerifyExisting => NextShape(o, op);
    }
    hide Shape, Fits;
  }

  lemma ExecuteShape(w: World, i: nat, o: Operator, op: Op, e: Event)
    requires Shape(o) && e.Go? && o.mode.Running? && Fits(o, op)
    ensures Shape(Execute(w, i, o, op, e).1)
  {
    hide Execute, Advanced, Shape, Fits;
    var p := ExecuteOutcome(w, i, o, op, e);
    RaiseShape(o, p);
    AdvancedShape(w, o, op);
  }

  lemma ExecuteLock(w: World, i: nat, o: Operator, op: Op, e: Event)
    requires Shape(o) && LockRight(w, i, o) && e.Go? && o.mode.Running? && Fits(o, op)
    ensures var (v, q) := Execute(w, i, o, op, e); LockRight(v, i, q)
  {
    hide Program, Full, Images, Site, End;
  }

  lemma ExecuteReceipt(w: World, i: nat, o: Operator, op: Op, may: Callbacks, e: Event)
    requires Shape(o) && LockRight(w, i, o) && ReceiptRight(w, i, o, may) && e.Go? && o.mode.Running? && Fits(o, op)
    ensures var (v, q) := Execute(w, i, o, op, e); ReceiptRight(v, i, q, may)
  {
    hide Program, Full, Images, Site, End;
  }

  lemma ExecuteLook(w: World, i: nat, o: Operator, op: Op, e: Event)
    requires LookRight(w, o) && e.Go? && o.mode.Running? && Fits(o, op)
    ensures var (v, q) := Execute(w, i, o, op, e); LookRight(v, q)
  {
    hide Program, Images, Converted, Or;
    if !op.Locate? {
      hide Site, End;
    }
  }

  lemma ExecuteEnd(w: World, i: nat, o: Operator, op: Op, may: Callbacks, e: Event)
    requires Shape(o) && LockRight(w, i, o) && EndRight(o, may) && e.Go? && o.mode.Running? && Fits(o, op)
    ensures EndRight(Execute(w, i, o, op, e).1, may)
  {
    hide Program, Full, Images, Site, End;
  }

  lemma ExecuteKeeps(w: World, i: nat, o: Operator, op: Op, may: Callbacks, e: Event)
    requires RunInv(w, i, o, may) && e.Go? && o.mode.Running? && Fits(o, op)
    ensures var (v, q) := Execute(w, i, o, op, e); RunInv(v, i, q, may)
  {
    ExecuteShape(w, i, o, op, e);
    ExecuteLock(w, i, o, op, e);
    ExecuteReceipt(w, i, o, op, may, e);
    ExecuteLook(w, i, o, op, e);
    ExecuteEnd(w, i, o, op, may, e);
    hide Shape, LockRight, ReceiptRight, LookRight, EndRight, Fits, Execute;
  }

  lemma ExitFrames(o: Operator)
    requires Shape(o) && o.stack != []
    ensures var d, top := |o.stack| - 1, o.stack[|o.stack| - 1];
            && (top.Root? <==> d < o.roots) && (top.LockFile? <==> d == o.roots) && (top.ClearPool? <==> d == o.roots + 1)
            && (top.Completion? <==> d == o.roots + 2) && (top.RuntimeHold? <==> d == o.roots + 3)
    ensures o.stack[..|o.stack| - 1] <= Full(o.roots)
  {
    FullAt(o.roots);
    hide Full, Program, Images;
  }

  lemma ExitReceipt(w: World, i: nat, o: Operator, p: Option<Fault>, may: Callbacks, e: Event)
    requires Shape(o) && LockRight(w, i, o) && ReceiptRight(w, i, o, may) && e.Go? && o.mode == Unwinding(p) && o.stack != []
    ensures var (v, q) := Exit(w, i, o, p, may, e); ReceiptRight(v, i, q, may)
  {
    ExitFrames(o);
    hide Full, Program, Images, Site, End;
    assert e.first.Some? && !e.first.value.Ordinary? ==> IsUncertain(e.first);
  }

  lemma ExitEnd(w: World, i: nat, o: Operator, p: Option<Fault>, may: Callbacks, e: Event)
    requires Shape(o) && LockRight(w, i, o) && EndRight(o, may) && e.Go? && o.mode == Unwinding(p) && o.stack != []
    ensures EndRight(Exit(w, i, o, p, may, e).1, may)
  {
    ExitFrames(o);
    hide Full, Program, Images, Site, End;
  }

  lemma QuietOutlines(w: World, i: nat, o: Operator, p: Option<Fault>, may: Callbacks, e: Event)
    requires e.Go?
    ensures Left(o, p, ExitRoot(w, o, p, may, e).1, false)
    ensures Left(o, p, ExitClear(w, o, p, may, e).1, false)
  {
    hide Replace;
  }

  lemma ReceiptOutlines(w: World, i: nat, o: Operator, p: Option<Fault>, e: Event)
    requires e.Go?
    ensures Left(o, p, ExitCompletion(w, i, o, p, e).1, false)
    ensures Left(o, p, ExitRuntime(w, i, o, p, e).1, false)
  {
    hide Replace;
  }

  lemma LockOutline(w: World, i: nat, o: Operator, p: Option<Fault>, e: Event)
    requires e.Go?
    ensures Left(o, p, ExitLock(w, i, o, p, e).1, true)
  {
    hide IsUncertain, Converted;
  }

  /** Leaving a frame changes what is pending and whether the lock is kept; only the lock's frame goes on to unlink. */
  predicate Left(o: Operator, p: Option<Fault>, q: Operator, unlinks: bool) {
    && SameRun(o, q) && q.stack == o.stack && q.pc == o.pc && q.found == o.found && q.written == o.written
    && q.remembered == o.remembered
    && (q.mode.Unwinding? || (unlinks && q.mode == Unlinking(p) && !IsUncertain(p)))
  }

  lemma ExitOutline(w: World, i: nat, o: Operator, p: Option<Fault>, may: Callbacks, e: Event)
    requires e.Go? && o.stack != []
    ensures var top := |o.stack| - 1;
            Left(o.(stack := o.stack[..top]), p, Exit(w, i, o, p, may, e).1, o.stack[top].LockFile?)
  {
    var popped := o.(stack := o.stack[..|o.stack| - 1]);
    QuietOutlines(w, i, popped, p, may, e);
    ReceiptOutlines(w, i, popped, p, e);
    LockOutline(w, i, popped, p, e);
    hide Left, ExitRoot, ExitClear, ExitCompletion, ExitRuntime, ExitLock;
  }

  lemma ExitShape(w: World, i: nat, o: Operator, p: Option<Fault>, may: Callbacks, e: Event)
    requires Shape(o) && e.Go? && o.mode == Unwinding(p) && o.stack != []
    ensures Shape(Exit(w, i, o, p, may, e).1)
  {
    ExitFrames(o);
    ExitOutline(w, i, o, p, may, e);
    hide Full, Program, Images, Site, End, Exit;
  }

  lemma ExitLockRight(w: World, i: nat, o: Operator, p: Option<Fault>, may: Callbacks, e: Event)
    requires Shape(o) && LockRight(w, i, o) && e.Go? && o.mode == Unwinding(p) && o.stack != []
    ensures var (v, q) := Exit(w, i, o, p, may, e); LockRight(v, i, q)
  {
    ExitFrames(o);
    hide Full, Program, Images, Site, End, IsUncertain;
  }

  lemma ExitKeeps(w: World, i: nat, o: Operator, p: Option<Fault>, may: Callbacks, e: Event)
    requires RunInv(w, i, o, may) && e.Go? && o.mode == Unwinding(p) && o.stack != []
    ensures var (v, q) := Exit(w, i, o, p, may, e); RunInv(v, i, q, may)
  {
    ExitReceipt(w, i, o, p, may, e);
    ExitEnd(w, i, o, p, may, e);
    ExitShape(w, i, o, p, may, e);
    ExitLockRight(w, i, o, p, may, e);
    ExitOutline(w, i, o, p, may, e);
    hide Shape, LockRight, ReceiptRight, EndRight, Exit;
  }

  lemma ReturnIsInside(o: Operator)
    requires Shape(o) && o.mode.Running? && o.pc == End(o)
    ensures Inside(o) && |o.stack| == o.roots + 4 && o.pc >= o.roots + 2
  {
    ProgramShape(o);
    assert Site(o) >= o.roots + |OPENING|;
    hide Full, Program, Images;
  }

  /** The body has returned: everything is on the stack and nothing is pending. */
  lemma ReturnKeeps(w: World, i: nat, o: Operator, may: Callbacks)
    requires RunInv(w, i, o, may) && o.mode.Running? && o.pc == End(o)
    ensures RunInv(w, i, Raise(o, None), may)
  {
    ReturnIsInside(o);
    hide Full, Program, Images, Site;
  }

  lemma StepKeeps(w: World, i: nat, o: Operator, may: Callbacks, e: Event)
    requires RunInv(w, i, o, may)
    ensures var (v, q) := Step(w, i, o, may, e); RunInv(v, i, q, may)
  {
    hide Full, Program, Images, Site, Execute, Exit;
    if e.Go? && o.mode.Running? && o.pc < End(o) {
      CurrentFits(o);
      ExecuteKeeps(w, i, o, Program(o.roots, o.images, o.found)[o.pc], may, e);
      hide RunInv, Fits;
    } else if e.Go? && o.mode.Running? {
      ReturnKeeps(w, i, o, may);
      hide EndRight, ReceiptRight, LockRight;
    } else if e.Go? && o.mode.Unwinding? && o.stack != [] {
      ExitKeeps(w, i, o, o.mode.pending, may, e);
      hide RunInv, Fits;
    }
  }

  // ----- what a step of one run leaves alone

  /** All that run j may do to the shared files. */
  predicate Local(w: World, v: World, j: nat, o: Operator) {
    && (v.lock == w.lock || (w.lock.Absent? && v.lock == Torn(j)) || (w.lock == Torn(j) && v.lock == Held(j))
        || (w.lock == Held(j) && v.lock.Absent?))
    && w.confirmed <= v.confirmed <= w.confirmed + {j}
    && (forall c :: c in w.captures ==>
          && c in v.captures
          && (v.captures[c] == w.captures[c]
              || (c == o.capture && w.captures[c].receipt == Written(j) && v.captures[c] == Folder(Missing, Some(j)))))
    && (forall c :: c in v.captures && c !in w.captures ==>
          c == o.capture && w.lock == Held(j) && v.captures[c] in {Folder(Missing, None), Folder(Written(j), None)})
  }

  lemma StepIsLocal(w: World, j: nat, o: Operator, may: Callbacks, e: Event)
    requires RunInv(w, j, o, may)
    ensures Local(w, Step(w, j, o, may, e).0, j, o)
  {
    hide Full, Program, Images, Site, EndRight, ReceiptRight;
    if e.Go? && o.mode.Running? && o.pc < End(o) {
      CurrentFits(o);
    }
    if o.mode.Unwinding? && o.stack != [] {
      ExitFrames(o);
    }
  }

  /** A run that has looked holds the lock, so nobody else can add the capture it did not find. */
  lemma OtherSparesLook(w: World, v: World, i: nat, o: Operator, j: nat, mover: Operator)
    requires Shape(o) && LockRight(w, i, o) && LookRight(w, o) && Local(w, v, j, mover) && i != j
    ensures LookRight(v, o)
  {
    if o.mode.Running? && o.pc > Site(o) {
      assert Site(o) >= o.roots + |OPENING|;
      assert Inside(o);
    }
    hide Full, Program, Images;
  }

  lemma OtherKeeps(w: World, v: World, i: nat, o: Operator, j: nat, mover: Operator, may: Callbacks)
    requires RunInv(w, i, o, may) && Local(w, v, j, mover) && i != j
    ensures RunInv(v, i, o, may)
  {
    OtherSparesLook(w, v, i, o, j, mover);
    hide Shape, EndRight, Guarding, LookRight;
  }

  // ----- the system

  datatype System = System(world: World, ops: seq<Operator>, may: Callbacks)

  /** Run i takes its next step; the environment answers e. */
  function Move(s: System, i: nat, e: Event): System {
    if i < |s.ops| then
      var (v, q) := Step(s.world, i, s.ops[i], s.may, e);
      s.(world := v, ops := s.ops[i := q])
    else s
  }

  datatype Turn = Turn(operator: nat, event: Event)

  /** Any interleaving: whose turn it is and what the environment answers, as long as it goes on. */
  function Schedule(s: System, turns: seq<Turn>): System {
    if turns == [] then s
    else
      var last := |turns| - 1;
      Move(Schedule(s, turns[..last]), turns[last].operator, turns[last].event)
  }

  /** Nothing has started; files may be there already, and so may a lock that is none of these runs'. */
  predicate Initial(s: System) {
    && (forall i :: 0 <= i < |s.ops| ==> Fresh(s.ops[i]))
    && s.world.confirmed == {}
    && (s.world.lock.Torn? ==> s.world.lock.creator >= |s.ops|)
    && (s.world.lock.Held? ==> s.world.lock.owner >= |s.ops|)
    && (forall c :: c in s.world.captures ==> !s.world.captures[c].receipt.Written? && s.world.captures[c].quarantined.None?)
  }

  /** Receipts name the run that wrote them. */
  predicate ReceiptsNamed(s: System) {
    forall c :: c in s.world.captures && s.world.captures[c].receipt.Written? ==>
      var i := s.world.captures[c].receipt.writer;
      i < |s.ops| && s.ops[i].written && s.ops[i].capture == c
  }

  predicate Invariant(s: System) {
    && (forall i :: 0 <= i < |s.ops| ==> RunInv(s.world, i, s.ops[i], s.may))
    && ReceiptsNamed(s)
  }

  lemma FreshHolds(w: World, i: nat, o: Operator, may: Callbacks)
    requires Fresh(o) && i !in w.confirmed
    ensures RunInv(w, i, o, may)
  {
    ProgramShape(o);
    hide Program, Full, Images;
  }

  lemma InitialHolds(s: System)
    requires Initial(s)
    ensures Invariant(s)
  {
    hide RunInv;
    forall i | 0 <= i < |s.ops|
      ensures RunInv(s.world, i, s.ops[i], s.may)
    {
      FreshHolds(s.world, i, s.ops[i], s.may);
    }
  }

  predicate SameRun(o: Operator, q: Operator) {
    q.capture == o.capture && q.roots == o.roots && q.images == o.images && (o.written ==> q.written)
  }

  predicate TouchesFiles(op: Op) {
    op.CreateLock? || op.WriteToken? || op.WriteReceipt?
  }

  lemma FileOpIsSameRun(w: World, i: nat, o: Operator, op: Op, e: Event)
    requires e.Go? && TouchesFiles(op)
    ensures SameRun(o, Execute(w, i, o, op, e).1)
  {
    hide Converted, Or;
  }

  lemma ExecuteIsSameRun(w: World, i: nat, o: Operator, op: Op, e: Event)
    requires e.Go?
    ensures SameRun(o, Execute(w, i, o, op, e).1)
  {
    if TouchesFiles(op) {
      hide Execute;
      FileOpIsSameRun(w, i, o, op, e);
    }
  }

  lemma WrittenStays(w: World, i: nat, o: Operator, may: Callbacks, e: Event)
    ensures SameRun(o, Step(w, i, o, may, e).1)
  {
    hide Program, Execute, Exit;
    if e.Go? && o.mode.Running? && o.pc < End(o) {
      ExecuteIsSameRun(w, i, o, Program(o.roots, o.images, o.found)[o.pc], e);
    } else if e.Go? && o.mode.Unwinding? && o.stack != [] {
      ExitOutline(w, i, o, o.mode.pending, may, e);
    }
  }

  lemma FreshReceipts(w: World, i: nat, o: Operator, may: Callbacks, e: Event)
    requires RunInv(w, i, o, may)
    ensures var (v, q) := Step(w, i, o, may, e);
            forall c :: c in v.captures && v.captures[c].receipt.Written? ==>
              || (c in w.captures && v.captures[c] == w.captures[c])
              || (v.captures[c].receipt.writer == i && q.written && q.capture == c)
  {
    StepKeeps(w, i, o, may, e);
    StepIsLocal(w, i, o, may, e);
    WrittenStays(w, i, o, may, e);
    hide Program, Full, Images, Site, End, Execute, Exit, Shape, LockRight, EndRight;
    WritesAreRecorded(w, i, o, may, e);
  }

  lemma WritesAreRecorded(w: World, i: nat, o: Operator, may: Callbacks, e: Event)
    ensures var (v, q) := Step(w, i, o, may, e);
            (&& o.capture in v.captures && v.captures[o.capture].receipt == Written(i)
             && !(o.capture in w.captures && w.captures[o.capture] == v.captures[o.capture])) ==> q.written
  {
    hide Program;
  }

  /** Every turn keeps every run's invariant. */
  lemma MoveKeeps(s: System, i: nat, e: Event)
    requires Invariant(s)
    ensures Invariant(Move(s, i, e))
  {
    if i < |s.ops| {
      var (v, q) := Step(s.world, i, s.ops[i], s.may, e);
      StepKeeps(s.world, i, s.ops[i], s.may, e);
      StepIsLocal(s.world, i, s.ops[i], s.may, e);
      WrittenStays(s.world, i, s.ops[i], s.may, e);
      FreshReceipts(s.world, i, s.ops[i], s.may, e);
      hide RunInv, Local, Step;
      forall k | 0 <= k < |s.ops|
        ensures RunInv(v, k, Move(s, i, e).ops[k], s.may)
      {
        if k != i {
          OtherKeeps(s.world, v, k, s.ops[k], i, s.ops[i], s.may);
        }
      }
    }
  }

  lemma {:induction false} ScheduleKeeps(s: System, turns: seq<Turn>)
    requires Invariant(s)
    ensures Invariant(Schedule(s, turns))
    decreases |turns|
  {
    hide Invariant, Move;
    if turns != [] {
      var last := |turns| - 1;
      ScheduleKeeps(s, turns[..last]);
      MoveKeeps(Schedule(s, turns[..last]), turns[last].operator, turns[last].event);
    }
  }
}
