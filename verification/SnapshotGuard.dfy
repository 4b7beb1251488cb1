/** One operator's run of the snapshot guard: its steps, its exit stack and what unwinding does to the file system. */
module SnapshotGuard {

  datatype Option<T> = None | Some(value: T)

  /**
   * What can be raised: an error whose code ends with CLEANUP_UNCERTAIN, any other ordinary exception,
   * or an interruption that is no ordinary exception.
   */
  datatype Fault = Uncertain | Ordinary | Interrupt

  // ----- the file system

  /** The lock file: absent, created with its token not yet written, or holding an owner's token. */
  datatype Lock = Absent | Torn(creator: nat) | Held(owner: nat)

  datatype Receipt = Missing | Original | Written(writer: nat)

  /** A capture's folder: receipt.bin and receipt.uncertain. */
  datatype Folder = Folder(receipt: Receipt, quarantined: Option<nat>)

  /** Captures are told apart by their names; here by number. */
  type CaptureId = nat

  /** The files, and the runs whose recheck on exit has passed. */
  datatype World = World(lock: Lock, captures: map<CaptureId, Folder>, confirmed: set<nat>)

  // ----- the program

  datatype Check = Environment | MasterKey | Storage | PinContainers | RuntimeImage | Physical | Deadline | Pins | Runtime
    | ImageArchive(image: nat) | Reconstruct(image: nat) | Proofs | Ports | Data | ImageUnchanged(image: nat)

  datatype Op = PinRoot | CreateLock | WriteToken | PushClear | PushCompletion | EnterRuntime | Guarded(check: Check)
    | Locate | VerifyExisting | WriteReceipt | Remember

  datatype Frame = Root | LockFile | ClearPool | Completion | RuntimeHold

  function Repeat<T>(part: seq<T>, n: nat): seq<T> {
    if n == 0 then [] else part + Repeat(part, n - 1)
  }

  const OPENING: seq<Op> := [CreateLock, WriteToken, Guarded(Environment), Guarded(MasterKey), Guarded(Storage), PushClear,
                             Guarded(PinContainers), PushCompletion, EnterRuntime, Guarded(RuntimeImage), Guarded(Physical)]

  const RECHECK: seq<Check> := [Deadline, Pins, Runtime]

  /** Archiving every image between rechecks. */
  function Archives(n: nat): seq<Check> {
    if n == 0 then [] else Archives(n - 1) + (RECHECK + [ImageArchive(n - 1)] + RECHECK)
  }

  function Reconstructions(n: nat): seq<Check> {
    if n == 0 then [] else Reconstructions(n - 1) + [Deadline, Reconstruct(n - 1)]
  }

  function Comparisons(n: nat): seq<Check> {
    if n == 0 then [] else Comparisons(n - 1) + [Deadline, ImageUnchanged(n - 1)]
  }

  /** What happens to the images before the capture is looked for. */
  function Images(n: nat): seq<Check> {
    Archives(n) + Reconstructions(n) + [Proofs, Ports]
  }

  /** Copying the data, or reading what an existing capture holds, then the final check. */
  function Final(n: nat): seq<Check> {
    [Data] + Comparisons(n) + RECHECK + [Physical] + RECHECK
  }

  function Guards(checks: seq<Check>): (ops: seq<Op>)
    ensures |ops| == |checks| && forall k :: 0 <= k < |ops| ==> ops[k] == Guarded(checks[k])
  {
    seq(|checks|, k requires 0 <= k < |checks| => Guarded(checks[k]))
  }

  /** The operations of a run; an existing capture is only verified, with the same final check. */
  function Program(roots: nat, images: nat, present: bool): seq<Op> {
    Repeat([PinRoot], roots) + OPENING + Guards(Images(images)) + [Locate]
    + if present then [VerifyExisting] + Guards(Final(images)) else Guards(Final(images)) + [WriteReceipt, Remember]
  }

  // ----- a run

  datatype Mode =
    | Running
    | Unwinding(pending: Option<Fault>)
    | Unlinking(pending: Option<Fault>)
    | Ended(result: Option<Fault>)
    | Crashed

  /** One run; written, remembered and kept record what happened to the receipt and to the lock. */
  datatype Operator = Operator(capture: CaptureId, roots: nat, images: nat, pc: nat, stack: seq<Frame>, mode: Mode,
                               found: bool, written: bool, remembered: bool, kept: bool)

  /** Which callbacks may raise an ordinary exception while the stack unwinds. */
  datatype Callbacks = Callbacks(clearRaises: bool, rootsRaise: bool)

  /** How the environment answers the next step: what it raises, whether a failing step still took effect, or a crash. */
  datatype Event = Go(first: Option<Fault>, second: Option<Fault>, effect: bool) | Crash

  predicate IsUncertain(p: Option<Fault>) {
    p == Some(Uncertain) || p == Some(Interrupt)
  }

  /** `except Exception: raise other` lets interruptions through. */
  function Converted(f: Fault, other: Fault): Option<Fault> {
    Some(if f.Interrupt? then Interrupt else other)
  }

  function Raise(o: Operator, p: Option<Fault>): Operator {
    o.(mode := Unwinding(p))
  }

  function Push(o: Operator, frame: Frame): Operator {
    o.(stack := o.stack + [frame], pc := o.pc + 1)
  }

  function Next(o: Operator): Operator {
    o.(pc := o.pc + 1)
  }

  function Execute(w: World, i: nat, o: Operator, op: Op, e: Event): (World, Operator)
    requires e.Go?
  {
    match op
    case PinRoot => (w, if e.first.Some? then Raise(o, e.first) else Push(o, Root))
    case CreateLock =>
      if w.lock.Absent? && e.first.None? then (w.(lock := Torn(i)), Next(o))
      else (if w.lock.Absent? && e.effect then w.(lock := Torn(i)) else w,
            Raise(o, Converted(Or(e.first, Ordinary), Ordinary)))
    case WriteToken =>
      if e.first.None? then (w.(lock := Held(i)), Push(o, LockFile))
      else (if e.effect then w.(lock := Held(i)) else w, Raise(o, Converted(e.first.value, Ordinary)))
    case PushClear => (w, if e.first.Some? then Raise(o, e.first) else Push(o, ClearPool))
    case PushCompletion => (w, if e.first.Some? then Raise(o, e.first) else Push(o, Completion))
    case EnterRuntime => (w, if e.first.Some? then Raise(o, e.first) else Push(o, RuntimeHold))
    case Guarded(_) => (w, if e.first.Some? then Raise(o, e.first) else Next(o))
    case Locate => (w, if e.first.Some? then Raise(o, e.first) else Next(o).(found := o.capture in w.captures))
    case VerifyExisting =>
      if e.first.Some? then (w, Raise(o, e.first))
      else if o.capture !in w.captures || w.captures[o.capture].receipt.Missing? then (w, Raise(o, Some(Ordinary)))
      else (w, Next(o))
    case WriteReceipt =>
      if e.first.Some? then
        (if e.effect then w.(captures := w.captures[o.capture := Folder(Missing, None)]) else w, Raise(o, e.first))
      else (w.(captures := w.captures[o.capture := Folder(Written(i), None)]), Next(o).(written := true))
    case Remember => (w, if e.first.Some? then Raise(o, Some(Interrupt)) else Next(o).(remembered := true))
  }

  function Or<T>(x: Option<T>, default: T): T {
    if x.Some? then x.value else default
  }

  // ----- leaving the frames

  /** A later exception replaces the pending one. */
  function Replace(p: Option<Fault>, later: Option<Fault>): Option<Fault> {
    if later.Some? then later else p
  }

  /** QuiescentRuntime: recheck unless something was raised already; the holder has nothing to close but may be interrupted. */
  function ExitRuntime(w: World, i: nat, o: Operator, p: Option<Fault>, e: Event): (World, Operator)
    requires e.Go?
  {
    var close := if e.second == Some(Interrupt) then e.second else None;
    var passed := p.None? && e.first.None?;
    (if passed then w.(confirmed := w.confirmed + {i}) else w,
     Raise(o, Replace(if p.None? then e.first else p, close)))
  }

  /** _NewCaptureCompletion: quarantine this run's own receipt if it still is the one remembered; always uncertain. */
  function ExitCompletion(w: World, i: nat, o: Operator, p: Option<Fault>, e: Event): (World, Operator)
    requires e.Go?
  {
    if p.None? || !o.remembered then (w, Raise(o, p))
    else
      var own := o.capture in w.captures && w.captures[o.capture].receipt == Written(i);
      (if own && e.effect then w.(captures := w.captures[o.capture := Folder(Missing, Some(i))]) else w,
       Raise(o, Some(if e.second == Some(Interrupt) then Interrupt else Uncertain)))
  }

  function ExitClear(w: World, o: Operator, p: Option<Fault>, may: Callbacks, e: Event): (World, Operator)
    requires e.Go?
  {
    (w, Raise(o, if e.first == Some(Ordinary) && !may.clearRaises then p else Replace(p, e.first)))
  }

  /** _operator_lock: an uncertain end keeps the lock; otherwise read it, compare the token, and go on to unlink. */
  function ExitLock(w: World, i: nat, o: Operator, p: Option<Fault>, e: Event): (World, Operator)
    requires e.Go?
  {
    if IsUncertain(p) then (w, Raise(o, p).(kept := true))
    else if e.first.Some? then (w, Raise(o, Converted(e.first.value, Uncertain)).(kept := true))
    else if w.lock != Held(i) then (w, Raise(o, Some(Uncertain)).(kept := true))
    else (w, o.(mode := Unlinking(p)))
  }

  function Unlink(w: World, o: Operator, p: Option<Fault>, e: Event): (World, Operator)
    requires e.Go?
  {
    if e.first.Some? then (w, Raise(o, Converted(e.first.value, Uncertain)).(kept := true))
    else (w.(lock := Absent), Raise(o, p))
  }

  function ExitRoot(w: World, o: Operator, p: Option<Fault>, may: Callbacks, e: Event): (World, Operator)
    requires e.Go?
  {
    (w, Raise(o, if may.rootsRaise then Replace(p, e.first) else p))
  }

  /** Pop the top frame and run its exit. */
  function Exit(w: World, i: nat, o: Operator, p: Option<Fault>, may: Callbacks, e: Event): (World, Operator)
    requires e.Go? && o.stack != []
  {
    var top := |o.stack| - 1;
    var popped := o.(stack := o.stack[..top]);
    match o.stack[top]
    case Root => ExitRoot(w, popped, p, may, e)
    case LockFile => ExitLock(w, i, popped, p, e)
    case ClearPool => ExitClear(w, popped, p, may, e)
    case Completion => ExitCompletion(w, i, popped, p, e)
    case RuntimeHold => ExitRuntime(w, i, popped, p, e)
  }

  /** One step of run i. */
  function Step(w: World, i: nat, o: Operator, may: Callbacks, e: Event): (World, Operator) {
    if e.Crash? then (w, if o.mode.Ended? then o else o.(mode := Crashed))
    else match o.mode
      case Running =>
        var program := Program(o.roots, o.images, o.found);
        if o.pc < |program| then Execute(w, i, o, program[o.pc], e) else (w, Raise(o, None))
      case Unwinding(p) => if o.stack == [] then (w, o.(mode := Ended(p))) else Exit(w, i, o, p, may, e)
      case Unlinking(p) => Unlink(w, o, p, e)
      case Ended(_) => (w, o)
      case Crashed => (w, o)
  }

  predicate Fresh(o: Operator) {
    && o.pc == 0 && o.stack == [] && o.mode.Running?
    && !o.found && !o.written && !o.remembered && !o.kept
  }
}
