/** What a run of the snapshot guard has passed: no receipt without the final check, no image outside two rechecks. */
module OperatorTrails {
  import opened SnapshotGuard
  import opened OperatorInterleaving
  import opened OperatorGuarantees

  // ----- what a run has performed

  /** The turn is run i's, and it gets past its current operation. */
  predicate Performs(s: System, turn: Turn, i: nat) {
    && turn.operator == i < |s.ops| && turn.event.Go? && s.ops[i].mode.Running? && s.ops[i].pc < End(s.ops[i])
    && Move(s, i, turn.event).ops[i].mode.Running?
  }

  /** The operations that run i has got past, one after the other. */
  function Performed(s: System, turns: seq<Turn>, i: nat): seq<Op> {
    if turns == [] then []
    else
      var last := |turns| - 1;
      var before := Schedule(s, turns[..last]);
      Performed(s, turns[..last], i)
      + if Performs(before, turns[last], i) then
          var o := before.ops[i];
          [Program(o.roots, o.images, o.found)[o.pc]]
        else []
  }

  // ----- what the trail of a run must look like

  /** Cheap checks, which may stand between a recheck and what it covers. */
  predicate Light(op: Op) {
    op in {Guarded(Deadline), Guarded(Pins), Guarded(Runtime)}
  }

  /** Pins and runtime were rechecked before place k, with nothing but cheap checks since. */
  predicate RecheckedBefore(t: seq<Op>, k: nat)
    requires k <= |t|
  {
    exists p, r :: 0 <= p < k && 0 <= r < k && CoversUpTo(t, p, r, k)
  }

  predicate CoversUpTo(t: seq<Op>, p: nat, r: nat, k: nat)
    requires p < k <= |t| && r < k
  {
    t[p] == Guarded(Pins) && t[r] == Guarded(Runtime) && forall j :: 0 <= j < k && (p <= j || r <= j) ==> Light(t[j])
  }

  /** Pins and runtime were rechecked after place k, with nothing but cheap checks in between. */
  predicate RecheckedAfter(t: seq<Op>, k: nat)
    requires k < |t|
  {
    exists p, r :: k < p < |t| && k < r < |t| && CoversFrom(t, p, r, k)
  }

  predicate CoversFrom(t: seq<Op>, p: nat, r: nat, k: nat)
    requires k < p < |t| && k < r < |t|
  {
    t[p] == Guarded(Pins) && t[r] == Guarded(Runtime) && forall j :: k < j < |t| && (j <= p || j <= r) ==> Light(t[j])
  }

  /** Image m is archived at place k only right after a recheck, and the next thing that is not cheap comes after another. */
  predicate ArchivedBetweenRechecks(t: seq<Op>) {
    forall k :: 0 <= k < |t| && t[k].Guarded? && t[k].check.ImageArchive? ==>
      && RecheckedBefore(t, k)
      && forall j :: k < j < |t| && !Light(t[j]) ==> RecheckedAfter(t[..j], k)
  }

  /** Between data and place w the final check passed: every image unchanged, rechecks, the physical recheck, rechecks. */
  predicate FinallyChecked(t: seq<Op>, images: nat, data: nat, physical: nat, w: nat) {
    && data < physical < w <= |t|
    && t[data] == Guarded(Data) && t[physical] == Guarded(Physical)
    && (forall j :: data < j < w ==> t[j] != Guarded(Data))
    && (forall m: nat :: m < images ==> exists k :: data < k < physical && t[k] == Guarded(ImageUnchanged(m)))
    && RecheckedBefore(t, physical) && RecheckedBefore(t, w)
  }

  /** Whatever is b comes after something that is a. */
  predicate ComesAfter(t: seq<Op>, a: Op, b: Op) {
    forall k :: 0 <= k < |t| && t[k] == b ==> exists j :: 0 <= j < k && t[j] == a
  }

  /** The steps come in their order: locks before reading, pins before the runtime is held, images before data. */
  predicate InOrder(t: seq<Op>, roots: nat, images: nat) {
    && (forall k :: 0 <= k < |t| && t[k] == CreateLock ==> k == roots && forall j :: 0 <= j < k ==> t[j] == PinRoot)
    && ComesAfter(t, CreateLock, WriteToken) && ComesAfter(t, WriteToken, Guarded(Environment))
    && ComesAfter(t, Guarded(Environment), Guarded(MasterKey)) && ComesAfter(t, Guarded(MasterKey), Guarded(Storage))
    && ComesAfter(t, Guarded(Storage), PushClear) && ComesAfter(t, PushClear, Guarded(PinContainers))
    && ComesAfter(t, Guarded(PinContainers), PushCompletion) && ComesAfter(t, PushCompletion, EnterRuntime)
    && ComesAfter(t, EnterRuntime, Guarded(RuntimeImage)) && ComesAfter(t, Guarded(RuntimeImage), Guarded(Physical))
    && (forall m: nat :: m < images ==>
          && ComesAfter(t, Guarded(Physical), Guarded(ImageArchive(m)))
          && ComesAfter(t, Guarded(ImageArchive(m)), Guarded(Reconstruct(m)))
          && ComesAfter(t, Guarded(Reconstruct(m)), Guarded(Proofs)))
    && ComesAfter(t, Guarded(Proofs), Guarded(Ports)) && ComesAfter(t, Guarded(Ports), Locate)
    && ComesAfter(t, Locate, Guarded(Data)) && ComesAfter(t, Locate, VerifyExisting)
    && ComesAfter(t, Guarded(Data), WriteReceipt) && ComesAfter(t, WriteReceipt, Remember)
  }

  // ----- the program, place by place

  lemma {:induction false} ArchivesAt(n: nat)
    ensures |Archives(n)| == 7 * n
    ensures forall k :: 0 <= k < 7 * n ==> Archives(n)[k] == (RECHECK + [ImageArchive(k / 7)] + RECHECK)[k % 7]
  {
    if n > 0 {
      ArchivesAt(n - 1);
      forall k | 7 * (n - 1) <= k < 7 * n
        ensures k / 7 == n - 1 && k % 7 == k - 7 * (n - 1)
      {
      }
    }
  }

  lemma {:induction false} ReconstructionsAt(n: nat)
    ensures |Reconstructions(n)| == 2 * n
    ensures forall k :: 0 <= k < 2 * n ==> Reconstructions(n)[k] == if k % 2 == 0 then Deadline else Reconstruct(k / 2)
  {
    if n > 0 {
      ReconstructionsAt(n - 1);
    }
  }

  lemma {:induction false} ComparisonsAt(n: nat)
    ensures |Comparisons(n)| == 2 * n
    ensures forall k :: 0 <= k < 2 * n ==> Comparisons(n)[k] == if k % 2 == 0 then Deadline else ImageUnchanged(k / 2)
  {
    if n > 0 {
      ComparisonsAt(n - 1);
    }
  }

  lemma ImagesAt(n: nat)
    ensures |Images(n)| == 9 * n + 2 && |Archives(n)| == 7 * n && |Reconstructions(n)| == 2 * n
    ensures forall k :: 0 <= k < 7 * n ==> Images(n)[k] == Archives(n)[k]
    ensures forall k :: 7 * n <= k < 9 * n ==> Images(n)[k] == Reconstructions(n)[k - 7 * n]
    ensures Images(n)[9 * n] == Proofs && Images(n)[9 * n + 1] == Ports
  {
    hide Archives, Reconstructions;
    ArchivesAt(n);
    ReconstructionsAt(n);
  }

  lemma FinalAt(n: nat)
    ensures |Final(n)| == 2 * n + 8 && |Comparisons(n)| == 2 * n && Final(n)[0] == Data
    ensures forall k :: 0 <= k < 2 * n ==> Final(n)[1 + k] == Comparisons(n)[k]
    ensures Final(n)[2 * n + 1..] == [Deadline, Pins, Runtime, Physical, Deadline, Pins, Runtime]
  {
    hide Comparisons;
    ComparisonsAt(n);
  }

  /** Where the final check starts. */
  function Start(roots: nat, images: nat, found: bool): nat {
    roots + 11 + 9 * images + 3 + if found then 1 else 0
  }

  lemma ProgramAt(roots: nat, n: nat, found: bool)
    ensures |Images(n)| == 9 * n + 2 && |Final(n)| == 2 * n + 8
    ensures var p, a, f := Program(roots, n, found), roots + 11, Start(roots, n, found);
            && |p| == f + 2 * n + 8 + (if found then 0 else 2)
            && (forall k :: 0 <= k < roots ==> p[k] == PinRoot)
            && (forall k :: roots <= k < a ==> p[k] == OPENING[k - roots])
            && (forall k :: a <= k < a + 9 * n + 2 ==> p[k] == Guarded(Images(n)[k - a]))
            && p[a + 9 * n + 2] == Locate
            && (found ==> p[a + 9 * n + 3] == VerifyExisting)
            && (forall k :: f <= k < f + 2 * n + 8 ==> p[k] == Guarded(Final(n)[k - f]))
            && (!found ==> p[f + 2 * n + 8] == WriteReceipt && p[f + 2 * n + 9] == Remember)
  {
    hide Repeat, Images, Final;
    RepeatLength([PinRoot], roots);
    ImagesAt(n);
    FinalAt(n);
  }

  // ----- what follows from it

  /** The final check stands in a trail from place f on. */
  predicate HoldsFinal(t: seq<Op>, f: nat, n: nat) {
    && f + 2 * n + 8 <= |t| && |Final(n)| == 2 * n + 8
    && forall k :: f <= k < f + 2 * n + 8 ==> t[k] == Guarded(Final(n)[k - f])
  }

  lemma FinalIsFinal(t: seq<Op>, f: nat, n: nat)
    requires HoldsFinal(t, f, n)
    ensures FinallyChecked(t, n, f, f + 2 * n + 4, f + 2 * n + 8)
  {
    hide Final, RecheckedBefore, Comparisons;
    FinalAt(n);
    FinalTail(t, f, n);
    ComparisonsAt(n);
    Rechecked(t, f + 2 * n + 1);
    Rechecked(t, f + 2 * n + 5);
    forall m: nat | m < n
      ensures exists k :: f < k < f + 2 * n + 4 && t[k] == Guarded(ImageUnchanged(m))
    {
      var k := 2 * m + 1;
      assert Comparisons(n)[k] == ImageUnchanged(k / 2) && t[f + 1 + k] == Guarded(Final(n)[1 + k]);
    }
    forall j | f < j < f + 2 * n + 8
      ensures t[j] != Guarded(Data)
    {
      if j < f + 2 * n + 1 {
        assert Final(n)[1 + (j - f - 1)] == Comparisons(n)[j - f - 1];
      }
    }
  }

  lemma FinalTail(t: seq<Op>, f: nat, n: nat)
    requires HoldsFinal(t, f, n) && Final(n)[2 * n + 1..] == [Deadline, Pins, Runtime, Physical, Deadline, Pins, Runtime]
    ensures var e := f + 2 * n + 1;
            && t[e] == t[e + 4] == Guarded(Deadline) && t[e + 1] == t[e + 5] == Guarded(Pins)
            && t[e + 2] == t[e + 6] == Guarded(Runtime) && t[e + 3] == Guarded(Physical)
  {
    var tail := Final(n)[2 * n + 1..];
    assert forall x :: 0 <= x < 7 ==> Final(n)[2 * n + 1 + x] == tail[x];
    hide Final;
  }

  /** Three steps of a recheck cover what comes after them. */
  lemma Rechecked(t: seq<Op>, k: nat)
    requires k + 3 <= |t| && t[k] == Guarded(Deadline) && t[k + 1] == Guarded(Pins) && t[k + 2] == Guarded(Runtime)
    ensures RecheckedBefore(t, k + 3)
    ensures k > 0 ==> RecheckedAfter(t, k - 1)
  {
    assert CoversUpTo(t, k + 1, k + 2, k + 3);
    if k > 0 {
      assert CoversFrom(t, k + 1, k + 2, k - 1);
    }
  }

  predicate IsArchive(op: Op) {
    op.Guarded? && op.check.ImageArchive?
  }

  /** What surrounds an archived image in the program. */
  predicate Surrounded(t: seq<Op>, k: nat) {
    && 3 <= k < |t|
    && t[k - 3] == Guarded(Deadline) && t[k - 2] == Guarded(Pins) && t[k - 1] == Guarded(Runtime)
    && (k + 1 < |t| ==> t[k + 1] == Guarded(Deadline)) && (k + 2 < |t| ==> t[k + 2] == Guarded(Pins))
    && (k + 3 < |t| ==> t[k + 3] == Guarded(Runtime))
  }

  /** Images are archived only in their part of the program. */
  lemma ArchivePlace(roots: nat, n: nat, found: bool, k: nat)
    requires k < |Program(roots, n, found)| && IsArchive(Program(roots, n, found)[k])
    ensures roots + 11 <= k < roots + 11 + 7 * n
  {
    hide Program, Images, Final, Archives, Reconstructions, Comparisons;
    ProgramAt(roots, n, found);
    ImagesAt(n);
    ReconstructionsAt(n);
    NoArchiveInFinal(n);
  }

  lemma NoArchiveInFinal(n: nat)
    ensures forall k :: 0 <= k < |Final(n)| ==> !Final(n)[k].ImageArchive?
  {
    hide Final, Comparisons;
    FinalAt(n);
    ComparisonsAt(n);
    forall k | 0 <= k < |Final(n)|
      ensures !Final(n)[k].ImageArchive?
    {
      if 0 < k <= 2 * n {
        assert Final(n)[1 + (k - 1)] == Comparisons(n)[k - 1];
      } else if k > 2 * n {
        assert Final(n)[k] == Final(n)[2 * n + 1..][k - 2 * n - 1];
      }
    }
  }

  lemma Divided(m: nat, x: nat)
    requires x < 7
    ensures (7 * m + x) / 7 == m && (7 * m + x) % 7 == x
  {
  }

  /** The x-th step in the archiving of image m. */
  lemma ArchiveStep(roots: nat, n: nat, found: bool, m: nat, x: nat)
    requires m < n && x < 7
    ensures roots + 11 + 7 * m + x < |Program(roots, n, found)|
    ensures Program(roots, n, found)[roots + 11 + 7 * m + x] == Guarded((RECHECK + [ImageArchive(m)] + RECHECK)[x])
  {
    hide Program, Images, Final, Archives, Reconstructions;
    ProgramAt(roots, n, found);
    ImagesAt(n);
    ArchivesAt(n);
    Divided(m, x);
    var k := 7 * m + x;
    assert Images(n)[k] == Archives(n)[k] == (RECHECK + [ImageArchive(k / 7)] + RECHECK)[k % 7];
    assert Program(roots, n, found)[roots + 11 + k] == Guarded(Images(n)[k]);
  }

  lemma ArchiveIsSurrounded(roots: nat, n: nat, found: bool, k: nat)
    requires k < |Program(roots, n, found)| && IsArchive(Program(roots, n, found)[k])
    ensures Surrounded(Program(roots, n, found), k)
  {
    hide Program;
    ArchivePlace(roots, n, found, k);
    var m, x := (k - roots - 11) / 7, (k - roots - 11) % 7;
    ArchiveStep(roots, n, found, m, x);
    assert x == 3;
    ArchiveStep(roots, n, found, m, 0);
    ArchiveStep(roots, n, found, m, 1);
    ArchiveStep(roots, n, found, m, 2);
    ArchiveStep(roots, n, found, m, 4);
    ArchiveStep(roots, n, found, m, 5);
    ArchiveStep(roots, n, found, m, 6);
  }

  lemma SurroundedIsBetween(t: seq<Op>)
    requires forall k :: 0 <= k < |t| && IsArchive(t[k]) ==> Surrounded(t, k)
    ensures ArchivedBetweenRechecks(t)
  {
    hide RecheckedBefore, RecheckedAfter;
    forall k | 0 <= k < |t| && IsArchive(t[k])
      ensures RecheckedBefore(t, k)
      ensures forall j :: k < j < |t| && !Light(t[j]) ==> RecheckedAfter(t[..j], k)
    {
      Rechecked(t, k - 3);
      forall j | k < j < |t| && !Light(t[j])
        ensures RecheckedAfter(t[..j], k)
      {
        Rechecked(t[..j], k + 1);
      }
    }
  }

  /** However far a run has come, it has archived images only between rechecks. */
  lemma PrefixIsBetween(roots: nat, n: nat, found: bool, pc: nat)
    requires pc <= |Program(roots, n, found)|
    ensures ArchivedBetweenRechecks(Program(roots, n, found)[..pc])
  {
    hide Program, Surrounded, ArchivedBetweenRechecks;
    var t := Program(roots, n, found)[..pc];
    forall k | 0 <= k < |t| && IsArchive(t[k])
      ensures Surrounded(t, k)
    {
      ArchiveIsSurrounded(roots, n, found, k);
      SurroundedInPrefix(Program(roots, n, found), pc, k);
    }
    SurroundedIsBetween(t);
  }

  lemma SurroundedInPrefix(p: seq<Op>, pc: nat, k: nat)
    requires k < pc <= |p| && Surrounded(p, k)
    ensures Surrounded(p[..pc], k)
  {
  }

  // ----- the order of the steps

  lemma ComesAfterFrom(p: seq<Op>, pc: nat, a: Op, j: nat, b: Op)
    requires pc <= |p| && j < |p| && p[j] == a && forall k :: 0 <= k <= j ==> p[k] != b
    ensures ComesAfter(p[..pc], a, b)
  {
    forall k | 0 <= k < pc && p[k] == b
      ensures exists j :: 0 <= j < k && p[..pc][j] == a
    {
      assert p[..pc][j] == a;
    }
  }

  /** What occurs before the images. */
  lemma OpeningPlaces(roots: nat, n: nat, found: bool)
    ensures roots + 11 <= |Program(roots, n, found)|
    ensures forall k :: 0 <= k < roots ==> Program(roots, n, found)[k] == PinRoot
    ensures Program(roots, n, found)[roots..roots + 11]
         == [CreateLock, WriteToken, Guarded(Environment), Guarded(MasterKey), Guarded(Storage), PushClear,
             Guarded(PinContainers), PushCompletion, EnterRuntime, Guarded(RuntimeImage), Guarded(Physical)]
  {
    hide Program, Images, Final;
    ProgramAt(roots, n, found);
  }

  predicate AllDiffer(o: seq<Op>) {
    (forall j, k :: 0 <= j < k < |o| ==> o[j] != o[k]) && forall k :: 0 <= k < |o| ==> !o[k].PinRoot?
  }

  lemma OpeningDiffers(o: seq<Op>)
    requires o == [CreateLock, WriteToken, Guarded(Environment), Guarded(MasterKey), Guarded(Storage), PushClear,
                   Guarded(PinContainers), PushCompletion, EnterRuntime, Guarded(RuntimeImage), Guarded(Physical)]
    ensures AllDiffer(o)
  {
  }

  lemma OpeningInOrder(p: seq<Op>, roots: nat, pc: nat)
    requires roots + 11 <= |p| && pc <= |p| && forall k :: 0 <= k < roots ==> p[k] == PinRoot
    requires p[roots..roots + 11]
          == [CreateLock, WriteToken, Guarded(Environment), Guarded(MasterKey), Guarded(Storage), PushClear,
              Guarded(PinContainers), PushCompletion, EnterRuntime, Guarded(RuntimeImage), Guarded(Physical)]
    ensures var t := p[..pc];
            && ComesAfter(t, CreateLock, WriteToken) && ComesAfter(t, WriteToken, Guarded(Environment))
            && ComesAfter(t, Guarded(Environment), Guarded(MasterKey)) && ComesAfter(t, Guarded(MasterKey), Guarded(Storage))
            && ComesAfter(t, Guarded(Storage), PushClear) && ComesAfter(t, PushClear, Guarded(PinContainers))
            && ComesAfter(t, Guarded(PinContainers), PushCompletion) && ComesAfter(t, PushCompletion, EnterRuntime)
            && ComesAfter(t, EnterRuntime, Guarded(RuntimeImage)) && ComesAfter(t, Guarded(RuntimeImage), Guarded(Physical))
  {
    hide ComesAfter, AllDiffer;
    var o := p[roots..roots + 11];
    OpeningDiffers(o);
    NextComesAfter(p, roots, o, pc, 0);
    NextComesAfter(p, roots, o, pc, 1);
    NextComesAfter(p, roots, o, pc, 2);
    NextComesAfter(p, roots, o, pc, 3);
    NextComesAfter(p, roots, o, pc, 4);
    NextComesAfter(p, roots, o, pc, 5);
    NextComesAfter(p, roots, o, pc, 6);
    NextComesAfter(p, roots, o, pc, 7);
    NextComesAfter(p, roots, o, pc, 8);
    NextComesAfter(p, roots, o, pc, 9);
  }

  /** Of steps that all differ the next one comes after this one. */
  lemma NextComesAfter(p: seq<Op>, roots: nat, o: seq<Op>, pc: nat, x: nat)
    requires roots + |o| <= |p| && pc <= |p| && o == p[roots..roots + |o|] && x + 1 < |o|
    requires forall k :: 0 <= k < roots ==> p[k] == PinRoot
    requires AllDiffer(o)
    ensures ComesAfter(p[..pc], o[x], o[x + 1])
  {
    hide ComesAfter;
    forall k | 0 <= k <= roots + x
      ensures p[k] != o[x + 1]
    {
      if k >= roots {
        assert p[k] == o[k - roots];
      }
    }
    ComesAfterFrom(p, pc, o[x], roots + x, o[x + 1]);
  }

  /** In which part of the program each step stands. */
  predicate Placed(p: seq<Op>, roots: nat, n: nat, found: bool) {
    var a, f := roots + 11, Start(roots, n, found);
    && |p| >= f + 2 * n + 8
    && (forall k :: 0 <= k < a ==> (p[k].PinRoot? <==> k < roots) && (p[k].CreateLock? <==> k == roots))
    && (forall k :: 0 <= k < a && p[k].Guarded? ==>
          p[k].check in {Environment, MasterKey, Storage, PinContainers, RuntimeImage, Physical})
    && (forall k :: 0 <= k < a ==> !p[k].Locate? && !p[k].VerifyExisting? && !p[k].WriteReceipt? && !p[k].Remember?)
    && (forall k :: a <= k < a + 7 * n ==>
          p[k].Guarded? && (p[k].check in {Deadline, Pins, Runtime} || p[k].check.ImageArchive?))
    && (forall k :: a + 7 * n <= k < a + 9 * n ==> p[k].Guarded? && (p[k].check.Deadline? || p[k].check.Reconstruct?))
    && p[a + 9 * n] == Guarded(Proofs) && p[a + 9 * n + 1] == Guarded(Ports) && p[a + 9 * n + 2] == Locate
    && (found ==> p[a + 9 * n + 3] == VerifyExisting)
    && p[f] == Guarded(Data)
    && (forall k :: f < k < f + 2 * n + 8 ==>
          p[k].Guarded? && (p[k].check in {Deadline, Pins, Runtime, Physical} || p[k].check.ImageUnchanged?))
    && (!found ==> |p| == f + 2 * n + 10 && p[f + 2 * n + 8] == WriteReceipt && p[f + 2 * n + 9] == Remember)
    && (found ==> |p| == f + 2 * n + 8)
  }

  lemma OpeningPlaced(roots: nat, n: nat, found: bool)
    ensures var p, a := Program(roots, n, found), roots + 11;
            && a <= |p|
            && (forall k :: 0 <= k < a ==> (p[k].PinRoot? <==> k < roots) && (p[k].CreateLock? <==> k == roots))
            && (forall k :: 0 <= k < a && p[k].Guarded? ==>
                  p[k].check in {Environment, MasterKey, Storage, PinContainers, RuntimeImage, Physical})
            && (forall k :: 0 <= k < a ==> !p[k].Locate? && !p[k].VerifyExisting? && !p[k].WriteReceipt? && !p[k].Remember?)
  {
    hide Program;
    OpeningPlaces(roots, n, found);
    var p := Program(roots, n, found);
    var o := p[roots..roots + 11];
    assert forall k :: roots <= k < roots + 11 ==> p[k] == o[k - roots];
  }

  lemma ImagesPlaced(n: nat)
    ensures |Images(n)| == 9 * n + 2
    ensures forall k :: 0 <= k < 7 * n ==> Images(n)[k] in {Deadline, Pins, Runtime} || Images(n)[k].ImageArchive?
    ensures forall k :: 7 * n <= k < 9 * n ==> Images(n)[k].Deadline? || Images(n)[k].Reconstruct?
    ensures Images(n)[9 * n] == Proofs && Images(n)[9 * n + 1] == Ports
  {
    hide Images, Archives, Reconstructions;
    ImagesAt(n);
    ArchivesAt(n);
    ReconstructionsAt(n);
  }

  lemma FinalPlaced(n: nat)
    ensures |Final(n)| == 2 * n + 8 && Final(n)[0] == Data
    ensures forall k :: 0 < k < |Final(n)| ==> Final(n)[k] in {Deadline, Pins, Runtime, Physical} || Final(n)[k].ImageUnchanged?
  {
    hide Final, Comparisons;
    FinalAt(n);
    ComparisonsAt(n);
    forall k | 0 < k < |Final(n)|
      ensures Final(n)[k] in {Deadline, Pins, Runtime, Physical} || Final(n)[k].ImageUnchanged?
    {
      if k <= 2 * n {
        assert Final(n)[1 + (k - 1)] == Comparisons(n)[k - 1];
      } else {
        assert Final(n)[k] == Final(n)[2 * n + 1..][k - 2 * n - 1];
      }
    }
  }

  lemma ProgramPlaced(roots: nat, n: nat, found: bool)
    ensures Placed(Program(roots, n, found), roots, n, found)
  {
    hide Program, Images, Final;
    ProgramAt(roots, n, found);
    OpeningPlaced(roots, n, found);
    ImagesPlaced(n);
    FinalPlaced(n);
    var p, a, f := Program(roots, n, found), roots + 11, Start(roots, n, found);
    forall k | a <= k < a + 9 * n + 2
      ensures p[k] == Guarded(Images(n)[k - a])
    {
    }
    assert p[a + 9 * n] == Guarded(Images(n)[9 * n]) && p[a + 9 * n + 1] == Guarded(Images(n)[9 * n + 1]);
    assert p[f] == Guarded(Final(n)[0]);
  }

  lemma ReconstructStep(roots: nat, n: nat, found: bool, m: nat)
    requires m < n
    ensures roots + 11 + 7 * n + 2 * m + 1 < |Program(roots, n, found)|
    ensures Program(roots, n, found)[roots + 11 + 7 * n + 2 * m + 1] == Guarded(Reconstruct(m))
  {
    hide Program, Images, Final, Archives, Reconstructions;
    ProgramAt(roots, n, found);
    ImagesAt(n);
    ReconstructionsAt(n);
    var k := 2 * m + 1;
    assert Images(n)[7 * n + k] == Reconstructions(n)[k] == Reconstruct(k / 2);
    assert Program(roots, n, found)[roots + 11 + (7 * n + k)] == Guarded(Images(n)[7 * n + k]);
  }

  lemma ImagesInOrder(roots: nat, n: nat, found: bool, pc: nat, m: nat)
    requires pc <= |Program(roots, n, found)| && m < n
    ensures var t := Program(roots, n, found)[..pc];
            && ComesAfter(t, Guarded(Physical), Guarded(ImageArchive(m)))
            && ComesAfter(t, Guarded(ImageArchive(m)), Guarded(Reconstruct(m)))
            && ComesAfter(t, Guarded(Reconstruct(m)), Guarded(Proofs))
  {
    hide Program, ComesAfter;
    var p := Program(roots, n, found);
    ProgramPlaced(roots, n, found);
    OpeningPlaces(roots, n, found);
    ArchiveStep(roots, n, found, m, 3);
    ReconstructStep(roots, n, found, m);
    assert p[roots + 10] == p[roots..roots + 11][10] == Guarded(Physical);
    ComesAfterFrom(p, pc, Guarded(Physical), roots + 10, Guarded(ImageArchive(m)));
    ComesAfterFrom(p, pc, Guarded(ImageArchive(m)), roots + 11 + 7 * m + 3, Guarded(Reconstruct(m)));
    ComesAfterFrom(p, pc, Guarded(Reconstruct(m)), roots + 11 + 7 * n + 2 * m + 1, Guarded(Proofs));
  }

  lemma RestInOrder(p: seq<Op>, roots: nat, n: nat, found: bool, pc: nat)
    requires Placed(p, roots, n, found) && pc <= |p|
    ensures var t := p[..pc];
            && ComesAfter(t, Guarded(Proofs), Guarded(Ports)) && ComesAfter(t, Guarded(Ports), Locate)
            && ComesAfter(t, Locate, Guarded(Data)) && ComesAfter(t, Locate, VerifyExisting)
            && ComesAfter(t, Guarded(Data), WriteReceipt) && ComesAfter(t, WriteReceipt, Remember)
  {
    hide ComesAfter, Placed;
    LookInOrder(p, roots, n, found, pc);
    DataInOrder(p, roots, n, found, pc);
    ReceiptInOrder(p, roots, n, found, pc);
  }

  lemma LookInOrder(p: seq<Op>, roots: nat, n: nat, found: bool, pc: nat)
    requires Placed(p, roots, n, found) && pc <= |p|
    ensures ComesAfter(p[..pc], Guarded(Proofs), Guarded(Ports)) && ComesAfter(p[..pc], Guarded(Ports), Locate)
  {
    hide ComesAfter;
    var a := roots + 11 + 9 * n;
    ComesAfterFrom(p, pc, Guarded(Proofs), a, Guarded(Ports));
    ComesAfterFrom(p, pc, Guarded(Ports), a + 1, Locate);
  }

  lemma DataInOrder(p: seq<Op>, roots: nat, n: nat, found: bool, pc: nat)
    requires Placed(p, roots, n, found) && pc <= |p|
    ensures ComesAfter(p[..pc], Locate, Guarded(Data)) && ComesAfter(p[..pc], Locate, VerifyExisting)
  {
    hide ComesAfter;
    var a := roots + 11 + 9 * n;
    ComesAfterFrom(p, pc, Locate, a + 2, Guarded(Data));
    ComesAfterFrom(p, pc, Locate, a + 2, VerifyExisting);
  }

  lemma ReceiptInOrder(p: seq<Op>, roots: nat, n: nat, found: bool, pc: nat)
    requires Placed(p, roots, n, found) && pc <= |p|
    ensures ComesAfter(p[..pc], Guarded(Data), WriteReceipt) && ComesAfter(p[..pc], WriteReceipt, Remember)
  {
    hide ComesAfter;
    var f := Start(roots, n, found);
    ComesAfterFrom(p, pc, Guarded(Data), f, WriteReceipt);
    if found {
      NeverComes(p, pc, WriteReceipt, Remember);
    } else {
      ComesAfterFrom(p, pc, WriteReceipt, f + 2 * n + 8, Remember);
    }
  }

  lemma NeverComes(p: seq<Op>, pc: nat, a: Op, b: Op)
    requires pc <= |p| && forall k :: 0 <= k < |p| ==> p[k] != b
    ensures ComesAfter(p[..pc], a, b)
  {
  }

  /** However far a run has come, its steps have come in their order. */
  lemma PrefixIsInOrder(roots: nat, n: nat, found: bool, pc: nat)
    requires pc <= |Program(roots, n, found)|
    ensures InOrder(Program(roots, n, found)[..pc], roots, n)
  {
    hide Program, ComesAfter;
    var p := Program(roots, n, found);
    ProgramPlaced(roots, n, found);
    OpeningPlaces(roots, n, found);
    OpeningInOrder(p, roots, pc);
    RestInOrder(p, roots, n, found, pc);
    forall m: nat | m < n
      ensures ComesAfter(p[..pc], Guarded(Physical), Guarded(ImageArchive(m)))
      ensures ComesAfter(p[..pc], Guarded(ImageArchive(m)), Guarded(Reconstruct(m)))
      ensures ComesAfter(p[..pc], Guarded(Reconstruct(m)), Guarded(Proofs))
    {
      ImagesInOrder(roots, n, found, pc, m);
    }
  }

  // ----- the trail of a run

  /** A run has written only near its end, and is confirmed only when its body has returned. */
  predicate TrailRight(w: World, i: nat, o: Operator) {
    && o.pc <= End(o)
    && (o.written ==> !o.found && o.pc + 1 >= End(o))
    && (o.mode == Unwinding(None) && |o.stack| == o.roots + 4 ==> o.pc == End(o))
    && (i in w.confirmed ==> o.pc == End(o))
  }

  function Trail(o: Operator): seq<Op>
    requires o.pc <= End(o)
  {
    Program(o.roots, o.images, o.found)[..o.pc]
  }

  /** What a step adds to a trail: the operation it gets past, or nothing. */
  predicate Extends(o: Operator, q: Operator) {
    && q.roots == o.roots && q.images == o.images && q.capture == o.capture && o.pc <= End(o) && q.pc <= End(q)
    && if o.mode.Running? && q.mode.Running? && o.pc < End(o) then
         Trail(q) == Trail(o) + [Program(o.roots, o.images, o.found)[o.pc]]
       else Trail(q) == Trail(o)
  }

  /** Until it is known if the capture exists, both programs are the same. */
  lemma SameUpToLook(roots: nat, n: nat, x: bool, y: bool, k: nat)
    requires k <= roots + 11 + 9 * n + 3
    ensures k <= |Program(roots, n, x)| && k <= |Program(roots, n, y)| && Program(roots, n, x)[..k] == Program(roots, n, y)[..k]
  {
    hide Program, Images, Final;
    ProgramAt(roots, n, x);
    ProgramAt(roots, n, y);
  }

  lemma SiteAt(o: Operator)
    ensures Site(o) == o.roots + 11 + 9 * o.images + 2
  {
    ImagesAt(o.images);
    hide Images;
  }

  lemma AdvanceExtends(w: World, o: Operator, op: Op)
    requires Shape(o) && o.mode.Running? && o.pc < End(o) && op == Program(o.roots, o.images, o.found)[o.pc] && Fits(o, op)
    ensures var q := Advanced(w, o, op);
            && Extends(o, q) && q.mode.Running? && q.pc == o.pc + 1
            && (q.written ==> !q.found && q.pc + 1 >= End(q))
  {
    var q := Advanced(w, o, op);
    hide Program, Images, Full;
    SiteAt(o);
    if op.Locate? {
      SameUpToLook(o.roots, o.images, o.found, q.found, q.pc);
    }
    var p := Program(o.roots, o.images, o.found);
    assert p[..o.pc + 1] == p[..o.pc] + [p[o.pc]];
  }

  lemma RaisesSomething(w: World, i: nat, o: Operator, op: Op, e: Event)
    requires e.Go? && !Execute(w, i, o, op, e).1.mode.Running? && o.mode.Running?
    ensures Execute(w, i, o, op, e).1.mode.Unwinding? && Execute(w, i, o, op, e).1.mode.pending.Some?
    ensures var q := Execute(w, i, o, op, e).1; q == o.(mode := q.mode)
  {
    hide Execute;
    if op.CreateLock? || op.WriteToken? {
      LockRaises(w, i, o, op, e);
    } else {
      OthersRaise(w, i, o, op, e);
    }
  }

  lemma LockRaises(w: World, i: nat, o: Operator, op: Op, e: Event)
    requires e.Go? && !Execute(w, i, o, op, e).1.mode.Running? && o.mode.Running? && (op.CreateLock? || op.WriteToken?)
    ensures var q := Execute(w, i, o, op, e).1; q == o.(mode := q.mode) && q.mode.Unwinding? && q.mode.pending.Some?
  {
    hide Or;
  }

  lemma OthersRaise(w: World, i: nat, o: Operator, op: Op, e: Event)
    requires e.Go? && !Execute(w, i, o, op, e).1.mode.Running? && o.mode.Running? && !op.CreateLock? && !op.WriteToken?
    ensures var q := Execute(w, i, o, op, e).1; q == o.(mode := q.mode) && q.mode.Unwinding? && q.mode.pending.Some?
  {
    hide Or, Converted;
  }

  lemma ExecuteConfirmsNothing(w: World, i: nat, o: Operator, op: Op, e: Event)
    requires e.Go?
    ensures Execute(w, i, o, op, e).0.confirmed == w.confirmed
  {
    hide Or, Converted;
  }

  lemma ExecuteExtends(w: World, i: nat, o: Operator, op: Op, e: Event)
    requires Shape(o) && TrailRight(w, i, o) && o.mode.Running? && e.Go? && o.pc < End(o)
    requires op == Program(o.roots, o.images, o.found)[o.pc] && Fits(o, op)
    ensures var (v, q) := Execute(w, i, o, op, e); TrailRight(v, i, q) && Extends(o, q)
  {
    hide Execute, Advanced, Program, Shape, Fits;
    var p := ExecuteOutcome(w, i, o, op, e);
    ExecuteConfirmsNothing(w, i, o, op, e);
    var q := Execute(w, i, o, op, e).1;
    if q.mode.Running? {
      AdvanceExtends(w, o, op);
    } else {
      RaisesSomething(w, i, o, op, e);
    }
  }

  lemma ExitConfirms(w: World, i: nat, o: Operator, p: Option<Fault>, may: Callbacks, e: Event)
    requires e.Go? && o.stack != []
    ensures var v := Exit(w, i, o, p, may, e).0;
            v.confirmed == w.confirmed || (v.confirmed == w.confirmed + {i} && p.None? && o.stack[|o.stack| - 1].RuntimeHold?)
  {
  }

  lemma ExitExtends(w: World, i: nat, o: Operator, p: Option<Fault>, may: Callbacks, e: Event)
    requires Shape(o) && TrailRight(w, i, o) && e.Go? && o.mode == Unwinding(p) && o.stack != []
    ensures var (v, q) := Exit(w, i, o, p, may, e); TrailRight(v, i, q) && Extends(o, q)
  {
    hide Exit, Program, Full, Images, Site;
    ExitFrames(o);
    ExitOutline(w, i, o, p, may, e);
    ExitConfirms(w, i, o, p, may, e);
    FullAt(o.roots);
  }

  lemma StepExtends(w: World, i: nat, o: Operator, may: Callbacks, e: Event)
    requires RunInv(w, i, o, may) && TrailRight(w, i, o)
    ensures var (v, q) := Step(w, i, o, may, e); TrailRight(v, i, q) && Extends(o, q)
  {
    hide Program, Full, Images, Site, Execute, Exit;
    if e.Go? && o.mode.Running? && o.pc < End(o) {
      CurrentFits(o);
      ExecuteExtends(w, i, o, Program(o.roots, o.images, o.found)[o.pc], e);
      hide RunInv, Fits, TrailRight, Extends;
    } else if e.Go? && o.mode.Unwinding? && o.stack != [] {
      ExitExtends(w, i, o, o.mode.pending, may, e);
      hide RunInv, Fits, TrailRight, Extends;
    }
  }

  lemma MoveExtends(s: System, i: nat, turn: Turn)
    requires Invariant(s) && i < |s.ops| && TrailRight(s.world, i, s.ops[i])
    ensures var t := Move(s, turn.operator, turn.event);
            && |t.ops| == |s.ops| && TrailRight(t.world, i, t.ops[i])
            && t.ops[i].roots == s.ops[i].roots && t.ops[i].images == s.ops[i].images
            && Trail(t.ops[i]) == Trail(s.ops[i]) + if Performs(s, turn, i)
                 then [Program(s.ops[i].roots, s.ops[i].images, s.ops[i].found)[s.ops[i].pc]] else []
  {
    hide RunInv, Step, Trail, End, Program, Local;
    var j := turn.operator;
    if j < |s.ops| {
      StepIsLocal(s.world, j, s.ops[j], s.may, turn.event);
      if j == i {
        StepExtends(s.world, i, s.ops[i], s.may, turn.event);
        if turn.event.Crash? {
          NothingOnCrash(s.world, i, s.ops[i], s.may, turn.event);
        }
      } else {
        LocalConfirms(s.world, Move(s, j, turn.event).world, j, s.ops[j], i);
      }
    }
  }

  lemma NothingOnCrash(w: World, i: nat, o: Operator, may: Callbacks, e: Event)
    requires e.Crash?
    ensures !Step(w, i, o, may, e).1.mode.Running?
  {
  }

  lemma LocalConfirms(w: World, v: World, j: nat, o: Operator, i: nat)
    requires Local(w, v, j, o) && i != j
    ensures i in v.confirmed <==> i in w.confirmed
  {
  }

  lemma FreshTrail(w: World, i: nat, o: Operator)
    requires Fresh(o) && i !in w.confirmed
    ensures TrailRight(w, i, o) && Trail(o) == []
  {
    hide Program;
  }

  /** What a run has performed is the program up to where it stands. */
  lemma {:induction false} PerformedIsTrail(s: System, turns: seq<Turn>, i: nat)
    requires Initial(s) && i < |s.ops|
    ensures var t := Schedule(s, turns);
            && |t.ops| == |s.ops| && TrailRight(t.world, i, t.ops[i]) && Performed(s, turns, i) == Trail(t.ops[i])
            && t.ops[i].roots == s.ops[i].roots && t.ops[i].images == s.ops[i].images
    decreases |turns|
  {
    hide Invariant, Trail, TrailRight, Move, Performs, End, Program;
    if turns == [] {
      FreshTrail(s.world, i, s.ops[i]);
    } else {
      var last := |turns| - 1;
      PerformedIsTrail(s, turns[..last], i);
      Reachable(s, turns[..last]);
      MoveExtends(Schedule(s, turns[..last]), i, turns[last]);
    }
  }

  // ----- what that means

  /** Main result: whatever a run has done so far came in order, and every image was archived between two rechecks. */
  lemma StepsComeInOrder(s: System, turns: seq<Turn>, i: nat)
    requires Initial(s) && i < |s.ops|
    ensures InOrder(Performed(s, turns, i), s.ops[i].roots, s.ops[i].images)
    ensures ArchivedBetweenRechecks(Performed(s, turns, i))
  {
    hide Schedule, Performed, Program, Initial, InOrder, ArchivedBetweenRechecks;
    PerformedIsTrail(s, turns, i);
    var o := Schedule(s, turns).ops[i];
    PrefixIsInOrder(o.roots, o.images, o.found, o.pc);
    PrefixIsBetween(o.roots, o.images, o.found, o.pc);
  }

  /**
   * Main result: no receipt without the final check. When a run has written, it had copied the data, then found every image
   * unchanged, and rechecked pins and runtime after that and, once more, after the physical recheck, with nothing expensive
   * before the receipt.
   */
  lemma NoReceiptUnchecked(s: System, turns: seq<Turn>, i: nat) returns (data: nat, physical: nat, w: nat)
    requires Initial(s) && i < |s.ops| && |Schedule(s, turns).ops| == |s.ops| && Schedule(s, turns).ops[i].written
    ensures w < |Performed(s, turns, i)| && Performed(s, turns, i)[w] == WriteReceipt
    ensures FinallyChecked(Performed(s, turns, i), s.ops[i].images, data, physical, w)
  {
    hide Schedule, Performed, Program, Initial, FinallyChecked, HoldsFinal;
    PerformedIsTrail(s, turns, i);
    var o := Schedule(s, turns).ops[i];
    var n, f := o.images, Start(o.roots, o.images, false);
    data, physical, w := f, f + 2 * n + 4, f + 2 * n + 8;
    TrailHoldsFinal(o);
    FinalIsFinal(Trail(o), f, n);
  }

  /** The trail of a run that has come to the end of its final check. */
  lemma TrailHoldsFinal(o: Operator)
    requires o.pc <= End(o) && (if o.found then o.pc == End(o) else o.pc + 1 >= End(o))
    ensures HoldsFinal(Trail(o), Start(o.roots, o.images, o.found), o.images)
    ensures var f := Start(o.roots, o.images, o.found);
            if o.found then |Trail(o)| == f + 2 * o.images + 8 && Trail(o)[f - 1] == VerifyExisting
            else |Trail(o)| > f + 2 * o.images + 8 && Trail(o)[f + 2 * o.images + 8] == WriteReceipt
  {
    hide Program, Final, Images;
    ProgramAt(o.roots, o.images, o.found);
  }

  /** Main result: nor is a run confirmed without it, whether it wrote the capture or verified one that was there. */
  lemma NoneConfirmedUnchecked(s: System, turns: seq<Turn>, i: nat) returns (data: nat, physical: nat, w: nat)
    requires Initial(s) && i < |s.ops| && i in Schedule(s, turns).world.confirmed
    ensures FinallyChecked(Performed(s, turns, i), s.ops[i].images, data, physical, w)
    ensures |Schedule(s, turns).ops| == |s.ops|
    ensures var t := Performed(s, turns, i);
            if Schedule(s, turns).ops[i].found then w == |t| && exists v :: 0 <= v < data && t[v] == VerifyExisting
            else w < |t| && t[w] == WriteReceipt
  {
    hide Schedule, Performed, Program, Initial, FinallyChecked, HoldsFinal;
    PerformedIsTrail(s, turns, i);
    var o := Schedule(s, turns).ops[i];
    var n, f := o.images, Start(o.roots, o.images, o.found);
    data, physical, w := f, f + 2 * n + 4, f + 2 * n + 8;
    TrailHoldsFinal(o);
    FinalIsFinal(Trail(o), f, n);
  }
}
