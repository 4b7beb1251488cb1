/** The order of pins, rechecks and receipt, and what a confirmed receipt proves about the containers and the files. */
module GuardedCapture {
  import opened PinnedContainers

  /** One look at the runtime: the target's row, all containers, the time, and the measured files. */
  datatype Look = Look(row: Row, rows: seq<Row>, now: int, files: nat)

  function EvidenceOf(config: Config, pins: seq<Pin>, target: (nat, Mount), look: Option<Look>): Option<Evidence> {
    if look.Some? && Quiescent(config, pins, target, look.value.row, look.value.rows, look.value.now) then
      Some(Evidence(target.0, look.value.row.startedAt, look.value.row.finishedAt, target.1, look.value.files))
    else None
  }

  /** All looks so far showed the same evidence. */
  predicate Steady(config: Config, pins: seq<Pin>, target: (nat, Mount), looks: nat -> Option<Look>, n: nat, before: Evidence) {
    forall k :: 0 <= k < n ==> EvidenceOf(config, pins, target, looks(k)) == Some(before)
  }

  /** Every pinned container but the target runs. */
  predicate OthersRun(pins: seq<Pin>, id: nat) {
    forall k :: 0 <= k < |pins| && pins[k].id != id ==> pins[k].view.row.running
  }

  // ----- when a capture goes through

  /** The pins that inspections from number n on give, if each approved container is there exactly once. */
  predicate Pinned(config: Config, daemon: Daemon, n: nat, pins: seq<Pin>) {
    && PinsObserved(config, daemon, n, Targets(config.images), pins) && DistinctIds(pins)
    && Ids(pins) == ApprovedIds(config.bindings)
  }

  /** Mount m of container b is the only one that holds the files; the others run, and the first look shows the evidence. */
  ghost predicate Entered(config: Config, pins: seq<Pin>, looks: nat -> Option<Look>, b: nat, m: nat, before: Evidence) {
    && Serves(config, pins, b, m) && OnlyOne(config, pins, b, m)
    && var target := (config.bindings[b].id, config.bindings[b].mounts[m]);
       OthersRun(pins, target.0) && EvidenceOf(config, pins, target, looks(0)) == Some(before)
  }

  /** The first n steps pass: each rechecks all pins, looks at the runtime, and then nothing else fails. */
  predicate StepsPass(config: Config, daemon: Daemon, pins: seq<Pin>, target: (nat, Mount), looks: nat -> Option<Look>,
                      before: Evidence, start: nat, fails: nat -> bool, n: nat)
  {
    n == 0
    || (&& StepsPass(config, daemon, pins, target, looks, before, start, fails, n - 1)
        && Unchanged(config, daemon, start + (n - 1) * |pins|, pins)
        && EvidenceOf(config, pins, target, looks(n)) == Some(before) && !fails(n - 1))
  }

  lemma {:induction false} StepsPassBefore(config: Config, daemon: Daemon, pins: seq<Pin>, target: (nat, Mount),
                                           looks: nat -> Option<Look>, before: Evidence, start: nat, fails: nat -> bool,
                                           k: nat, n: nat)
    requires k <= n && StepsPass(config, daemon, pins, target, looks, before, start, fails, n)
    ensures StepsPass(config, daemon, pins, target, looks, before, start, fails, k)
    decreases n
  {
    hide EvidenceOf, Unchanged;
    if k < n {
      StepsPassBefore(config, daemon, pins, target, looks, before, start, fails, k, n - 1);
    }
  }

  /** Everything that a capture of so many images needs in order to leave a receipt. */
  ghost predicate Capturable(config: Config, daemon: Daemon, n: nat, looks: nat -> Option<Look>, fails: nat -> bool, images: nat) {
    exists pins: seq<Pin>, b: nat, m: nat, before: Evidence ::
      && Pinned(config, daemon, n, pins) && Entered(config, pins, looks, b, m, before)
      && StepsPass(config, daemon, pins, (config.bindings[b].id, config.bindings[b].mounts[m]), looks, before, n + |pins|,
                   fails, 2 * images + 2)
  }

  lemma SamePins(config: Config, daemon: Daemon, n: nat, pins: seq<Pin>, other: seq<Pin>)
    requires Pinned(config, daemon, n, pins) && Pinned(config, daemon, n, other)
    ensures pins == other
  {
    hide PinsObserved, DistinctIds, Ids, ApprovedIds;
    OnlyThesePins(config, daemon, n, Targets(config.images), pins);
  }

  lemma SameEntry(config: Config, pins: seq<Pin>, looks: nat -> Option<Look>, b: nat, m: nat, before: Evidence,
                  c: nat, k: nat, other: Evidence)
    requires Entered(config, pins, looks, b, m, before) && Entered(config, pins, looks, c, k, other)
    ensures b == c && m == k && before == other
  {
    hide Serves, EvidenceOf, OthersRun;
  }

  /** Where the only target stands. */
  ghost function TargetPlace(config: Config, pins: seq<Pin>, target: (nat, Mount)): (place: (nat, nat))
    requires exists b: nat, m: nat :: && Serves(config, pins, b, m) && OnlyOne(config, pins, b, m)
                                      && target == (config.bindings[b].id, config.bindings[b].mounts[m])
    ensures Serves(config, pins, place.0, place.1) && OnlyOne(config, pins, place.0, place.1)
    ensures target == (config.bindings[place.0].id, config.bindings[place.0].mounts[place.1])
  {
    var b: nat, m: nat :| && Serves(config, pins, b, m) && OnlyOne(config, pins, b, m)
                          && target == (config.bindings[b].id, config.bindings[b].mounts[m]);
    (b, m)
  }

  lemma OnlyEntry(config: Config, pins: seq<Pin>, looks: nat -> Option<Look>, b: nat, m: nat)
    requires Serves(config, pins, b, m) && OnlyOne(config, pins, b, m)
    ensures forall c: nat, k: nat, evidence: Evidence :: Entered(config, pins, looks, c, k, evidence) ==> c == b && k == m
  {
    hide Serves, EvidenceOf, OthersRun;
  }

  class QuiescentRuntime {
    const pins: Containers
    const looks: nat -> Option<Look>
    var looked: nat
    var target: (nat, Mount)
    var before: Evidence

    constructor (pins: Containers, looks: nat -> Option<Look>, target: (nat, Mount), before: Evidence)
      ensures this.pins == pins && this.looks == looks && looked == 0
    {
      this.pins, this.looks, looked, this.target, this.before := pins, looks, 0, target, before;
    }

    /** The first n looks all showed what was recorded. */
    ghost predicate HeldFor(n: nat)
      reads this, pins
    {
      pins.pins.Some? && Steady(pins.config, pins.pins.value, target, looks, n, before)
    }

    ghost predicate Held()
      reads this, pins
    {
      HeldFor(looked)
    }

    /** The containers were pinned by the inspections from number n on, each approved one exactly once. */
    ghost predicate PinnedAt(n: nat)
      reads pins
    {
      && pins.pins.Some? && n + |pins.pins.value| <= pins.asked
      && PinsObserved(pins.config, pins.daemon, n, Targets(pins.config.images), pins.pins.value)
      && DistinctIds(pins.pins.value) && Ids(pins.pins.value) == ApprovedIds(pins.config.bindings)
    }

    /**
     * What a receipt stands for: the containers pinned from inspection number pinned on showed the same witnesses from number
     * last on, and all looks but the last were equal, that one too exactly if the receipt was confirmed on exit.
     */
    ghost predicate Certified(confirmed: bool, pinned: nat, last: nat)
      reads this, pins
    {
      && PinnedAt(pinned) && pinned + |pins.pins.value| <= last
      && Unchanged(pins.config, pins.daemon, last, pins.pins.value)
      && looked > 1 && HeldFor(looked - 1) && (confirmed <==> Held())
    }

    /** The target is mount m of container b. */
    ghost predicate EnteredAt(b: nat, m: nat)
      reads this, pins
    {
      && pins.pins.Some? && Entered(pins.config, pins.pins.value, looks, b, m, before)
      && target == (pins.config.bindings[b].id, pins.config.bindings[b].mounts[m])
    }

    /** The first n steps have passed since the pinning ended with inspection number start. */
    ghost predicate Passes(start: nat, fails: nat -> bool, n: nat)
      reads this, pins
    {
      && pins.pins.Some?
      && StepsPass(pins.config, pins.daemon, pins.pins.value, target, looks, before, start, fails, n)
    }

    ghost predicate Stands(start: nat, n: nat)
      reads this, pins
    {
      pins.pins.Some? && looked == n + 1 && pins.asked == start + n * |pins.pins.value|
    }

    /** Finds the only mount that can hold the files and takes the first look. */
    method Enter() returns (ok: bool)
      requires looked == 0
      modifies this`looked, this`target, this`before
      ensures ok ==> Held() && looked == 1 && OthersRun(pins.pins.value, target.0)
      ensures ok <==> pins.pins.Some? && exists b: nat, m: nat, evidence: Evidence ::
                        Entered(pins.config, pins.pins.value, looks, b, m, evidence)
      ensures ok ==> exists b: nat, m: nat :: EnteredAt(b, m)
    {
      hide EvidenceOf, Serves, OthersRun, OnlyOne;
      if pins.pins.None? {
        return false;
      }
      var found := RuntimeTarget(pins.config, pins.pins.value);
      if found.None? {
        return false;
      }
      ghost var (b, m) := TargetPlace(pins.config, pins.pins.value, found.value);
      OnlyEntry(pins.config, pins.pins.value, looks, b, m);
      if !OthersRun(pins.pins.value, found.value.0) {
        return false;
      }
      target := found.value;
      var evidence := EvidenceOf(pins.config, pins.pins.value, target, looks(0));
      looked := 1;
      if evidence.None? {
        return false;
      }
      before := evidence.value;
      assert Entered(pins.config, pins.pins.value, looks, b, m, before) && EnteredAt(b, m);
      ok := true;
    }

    method Recheck() returns (ok: bool)
      requires pins.pins.Some?
      modifies this`looked
      ensures looked == old(looked) + 1
      ensures ok <==> EvidenceOf(pins.config, pins.pins.value, target, looks(old(looked))) == Some(before)
      ensures old(Held()) ==> HeldFor(old(looked)) && (ok <==> Held())
    {
      hide EvidenceOf;
      ok := EvidenceOf(pins.config, pins.pins.value, target, looks(looked)) == Some(before);
      looked := looked + 1;
    }
  }

  /** Rechecks of both guards, as before and after every expensive step. */
  method RecheckBoth(runtime: QuiescentRuntime) returns (ok: bool)
    requires runtime.Held()
    modifies runtime`looked, runtime.pins`asked
    ensures ok ==> runtime.looked == old(runtime.looked) + 1 && runtime.pins.asked == old(runtime.pins.asked) + |runtime.pins.pins.value|
    ensures ok ==> runtime.Held()
    ensures ok <==>
              && Unchanged(runtime.pins.config, runtime.pins.daemon, old(runtime.pins.asked), runtime.pins.pins.value)
              && EvidenceOf(runtime.pins.config, runtime.pins.pins.value, runtime.target, runtime.looks(old(runtime.looked)))
                 == Some(runtime.before)
  {
    hide EvidenceOf, Unchanged;
    ok := runtime.pins.Recheck();
    if ok {
      ok := runtime.Recheck();
    }
  }

  /** One more step: both rechecks, then whatever comes before the next one. */
  method StepOn(runtime: QuiescentRuntime, ghost start: nat, fails: nat -> bool, n: nat) returns (ok: bool)
    requires runtime.Held() && runtime.Passes(start, fails, n) && runtime.Stands(start, n)
    modifies runtime`looked, runtime.pins`asked
    ensures ok <==> runtime.Passes(start, fails, n + 1)
    ensures ok ==> runtime.Held() && runtime.Stands(start, n + 1)
    ensures ok ==> Unchanged(runtime.pins.config, runtime.pins.daemon, old(runtime.pins.asked), runtime.pins.pins.value)
  {
    hide EvidenceOf, Unchanged;
    ok := RecheckBoth(runtime);
    ok := ok && !fails(n);
    assert (n + 1) * |runtime.pins.pins.value| == n * |runtime.pins.pins.value| + |runtime.pins.pins.value|;
  }

  /** The containers are pinned and the runtime entered: where its only target stands. */
  ghost predicate Begun(runtime: QuiescentRuntime, pinned: nat, b: nat, m: nat)
    reads runtime, runtime.pins
  {
    && runtime.EnteredAt(b, m)
    && Pinned(runtime.pins.config, runtime.pins.daemon, pinned, runtime.pins.pins.value)
  }

  /** Pin the containers and enter the runtime. */
  method Begin(runtime: QuiescentRuntime) returns (ok: bool, ghost pinned: nat)
    requires runtime.looked == 0
    modifies runtime`looked, runtime`target, runtime`before, runtime.pins`asked, runtime.pins`pins
    ensures pinned == old(runtime.pins.asked)
    ensures ok ==> && old(runtime.pins.pins).None? && runtime.Held() && runtime.PinnedAt(pinned)
                   && runtime.Stands(pinned + |runtime.pins.pins.value|, 0)
                   && exists b: nat, m: nat :: Begun(runtime, pinned, b, m)
    ensures !ok && old(runtime.pins.pins).None? ==>
              forall pins: seq<Pin>, b: nat, m: nat, before: Evidence :: Pinned(runtime.pins.config, runtime.pins.daemon, pinned, pins) ==>
                !Entered(runtime.pins.config, pins, runtime.looks, b, m, before)
  {
    hide PinsObserved, EvidenceOf, DistinctIds, Ids, ApprovedIds, Serves, OthersRun, OnlyOne, Steady, Entered, Targets;
    pinned := runtime.pins.asked;
    ok := runtime.pins.PinAll();
    if !ok {
      return;
    }
    ghost var found := runtime.pins.pins.value;
    assert Pinned(runtime.pins.config, runtime.pins.daemon, pinned, found);
    forall pins: seq<Pin> | Pinned(runtime.pins.config, runtime.pins.daemon, pinned, pins)
      ensures pins == found
    {
      SamePins(runtime.pins.config, runtime.pins.daemon, pinned, found, pins);
    }
    ok := runtime.Enter();
    if ok {
      ghost var b: nat, m: nat :| runtime.EnteredAt(b, m);
      assert Begun(runtime, pinned, b, m);
    }
  }

  /**
   * capture_service, as far as its guards go: pin and enter, archive each image between rechecks, then the two rechecks of the
   * final check, the receipt and the recheck on exit. The steps between are what the environment makes of them.
   */
  method Capture(runtime: QuiescentRuntime, images: nat, fails: nat -> bool)
    returns (receipt: bool, confirmed: bool, ghost pinned: nat, ghost last: nat)
    requires runtime.looked == 0
    modifies runtime`looked, runtime`target, runtime`before, runtime.pins`asked, runtime.pins`pins
    ensures confirmed ==> receipt
    ensures receipt ==> runtime.Certified(confirmed, pinned, last)
    ensures receipt <==> old(runtime.pins.pins).None?
                         && Capturable(runtime.pins.config, runtime.pins.daemon, old(runtime.pins.asked), runtime.looks, fails, images)
  {
    hide PinsObserved, Unchanged, EvidenceOf, DistinctIds, Ids, ApprovedIds, Steady, Targets, StepsPass, Pinned, Entered;
    receipt, confirmed, last := false, false, 0;
    var ok;
    ok, pinned := Begin(runtime);
    if !ok {
      return;
    }
    ghost var start := pinned + |runtime.pins.pins.value|;
    NoStepYet(runtime, start, fails);
    ghost var b: nat, m: nat :| Begun(runtime, pinned, b, m);
    for step := 0 to 2 * images
      modifies runtime`looked, runtime.pins`asked
      invariant Begun(runtime, pinned, b, m)
      invariant ok <==> runtime.Passes(start, fails, step)
      invariant ok ==> runtime.Held() && runtime.PinnedAt(pinned) && runtime.Stands(start, step)
    {
      if ok {
        ok := StepOn(runtime, start, fails, step);
      } else {
        NoStepAfter(runtime, start, fails, step, step + 1);
      }
    }
    DecidedByAllSteps(runtime, pinned, b, m, fails, images);
    if ok {
      receipt, confirmed, last := Finish(runtime, start, pinned, fails, 2 * images);
    } else {
      NoStepAfter(runtime, start, fails, 2 * images, 2 * images + 2);
    }
  }

  /** The final check with its two rechecks, the receipt and the recheck on exit. */
  method Finish(runtime: QuiescentRuntime, ghost start: nat, ghost pinned: nat, fails: nat -> bool, n: nat)
    returns (receipt: bool, confirmed: bool, ghost last: nat)
    requires runtime.Held() && runtime.PinnedAt(pinned) && runtime.Passes(start, fails, n) && runtime.Stands(start, n)
    modifies runtime`looked, runtime.pins`asked
    ensures receipt <==> runtime.Passes(start, fails, n + 2)
    ensures confirmed ==> receipt
    ensures receipt ==> runtime.Certified(confirmed, pinned, last)
  {
    hide PinsObserved, Unchanged, EvidenceOf, DistinctIds, Ids, ApprovedIds, Steady, Targets, StepsPass;
    receipt, confirmed, last := false, false, 0;
    var ok := StepOn(runtime, start, fails, n);
    if !ok {
      NoStepAfter(runtime, start, fails, n + 1, n + 2);
      return;
    }
    last := runtime.pins.asked;
    receipt := StepOn(runtime, start, fails, n + 1);
    if receipt {
      confirmed := runtime.Recheck();
    }
  }

  lemma NoStepYet(runtime: QuiescentRuntime, start: nat, fails: nat -> bool)
    requires runtime.pins.pins.Some?
    ensures runtime.Passes(start, fails, 0)
  {
  }

  lemma NoStepAfter(runtime: QuiescentRuntime, start: nat, fails: nat -> bool, k: nat, n: nat)
    requires runtime.pins.pins.Some? && !runtime.Passes(start, fails, k) && k <= n
    ensures !runtime.Passes(start, fails, n)
  {
    hide StepsPass;
    var c := runtime.pins;
    if runtime.Passes(start, fails, n) {
      StepsPassBefore(c.config, c.daemon, c.pins.value, runtime.target, runtime.looks, runtime.before, start, fails, k, n);
    }
  }

  /** With the containers pinned and the runtime entered, all steps decide. */
  lemma DecidedByAllSteps(runtime: QuiescentRuntime, pinned: nat, b: nat, m: nat, fails: nat -> bool, images: nat)
    requires Begun(runtime, pinned, b, m)
    ensures Capturable(runtime.pins.config, runtime.pins.daemon, pinned, runtime.looks, fails, images)
       <==> runtime.Passes(pinned + |runtime.pins.pins.value|, fails, 2 * images + 2)
  {
    hide StepsPass, Pinned, Entered;
    var c, found := runtime.pins, runtime.pins.pins.value;
    forall pins: seq<Pin>, d: nat, k: nat, before: Evidence
      | Pinned(c.config, c.daemon, pinned, pins) && Entered(c.config, pins, runtime.looks, d, k, before)
      ensures pins == found && d == b && k == m && before == runtime.before
    {
      SamePins(c.config, c.daemon, pinned, found, pins);
      SameEntry(c.config, found, runtime.looks, b, m, runtime.before, d, k, before);
    }
  }

  /** Evidence shows which version of the runtime was seen. */
  ghost predicate ShowsVersion(config: Config, pins: seq<Pin>, target: (nat, Mount), looks: nat -> Option<Look>,
                               at: nat -> nat, version: nat -> nat) {
    forall n: nat, m: nat :: EvidenceOf(config, pins, target, looks(n)).Some?
                             && EvidenceOf(config, pins, target, looks(n)) == EvidenceOf(config, pins, target, looks(m)) ==>
                               version(at(n)) == version(at(m))
  }

  /** From the first look to the last one the runtime's container and files were the same, at every moment in between. */
  lemma RuntimeUnchanged(config: Config, pins: seq<Pin>, target: (nat, Mount), looks: nat -> Option<Look>, n: nat,
                         before: Evidence, at: nat -> nat, version: nat -> nat, t: nat)
    requires Ordered(at) && (forall u: nat, v: nat :: u <= v ==> version(u) <= version(v))
    requires ShowsVersion(config, pins, target, looks, at, version)
    requires Steady(config, pins, target, looks, n + 1, before) && at(0) <= t <= at(n)
    ensures version(t) == version(at(0))
  {
    hide EvidenceOf;
    assert EvidenceOf(config, pins, target, looks(0)) == EvidenceOf(config, pins, target, looks(n));
    assert version(at(0)) <= version(t) <= version(at(n));
  }

  /**
   * Main result: a receipt proves that no pinned container changed between its pinning and the last recheck, and that the
   * runtime stayed stopped, alone with its directory and unchanged up to the last look; up to the exit if it was confirmed.
   */
  lemma ReceiptProves(runtime: QuiescentRuntime, confirmed: bool, pinned: nat, last: nat,
                      at: nat -> nat, version: (nat, nat) -> nat, lookedAt: nat -> nat, state: nat -> nat)
    requires runtime.Certified(confirmed, pinned, last)
    requires Ordered(at) && Versioned(version) && Faithful(runtime.pins.daemon, at, version)
    requires Ordered(lookedAt) && (forall u: nat, v: nat :: u <= v ==> state(u) <= state(v))
    requires ShowsVersion(runtime.pins.config, runtime.pins.pins.value, runtime.target, runtime.looks, lookedAt, state)
    ensures var pins := runtime.pins.pins.value;
            forall k, t: nat :: 0 <= k < |pins| && at(pinned + |pins|) <= t <= at(last) ==>
              version(pins[k].id, t) == version(pins[k].id, at(pinned + |pins|))
    ensures var looks := if confirmed then runtime.looked else runtime.looked - 1;
            && (forall n: nat :: n < looks ==>
                  EvidenceOf(runtime.pins.config, runtime.pins.pins.value, runtime.target, runtime.looks(n)).Some?)
            && (forall t: nat :: lookedAt(0) <= t <= lookedAt(looks - 1) ==> state(t) == state(lookedAt(0)))
  {
    var pins := runtime.pins.pins.value;
    var looks := if confirmed then runtime.looked else runtime.looked - 1;
    hide PinsObserved, Unchanged, EvidenceOf, Faithful, ShowsVersion, Versioned, Ordered;
    NothingChanged(runtime.pins.config, runtime.pins.daemon, at, version, pinned, last, Targets(runtime.pins.config.images), pins);
    forall t: nat | lookedAt(0) <= t <= lookedAt(looks - 1)
      ensures state(t) == state(lookedAt(0))
    {
      RuntimeUnchanged(runtime.pins.config, pins, runtime.target, runtime.looks, looks - 1, runtime.before, lookedAt, state, t);
    }
  }
}
