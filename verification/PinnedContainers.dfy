/** Containers pinned by witness: what pinning accepts, and what an equal witness later proves. */
module PinnedContainers {

  datatype Option<T> = None | Some(value: T)

  // ----- paths

  /** An absolute path by its parts. */
  type Path = seq<string>

  /** _inside: relative_to succeeds exactly for a path that starts with the directory's parts. */
  predicate InsideOf(path: Path, directory: Path) {
    directory <= path
  }

  /** _roots: no written root may contain a path that is only read, nor lie inside one. */
  method RootsApproved(roots: seq<Path>, readPaths: seq<Path>) returns (ok: bool)
    ensures ok <==> forall root, path :: root in roots && path in readPaths ==> !Overlapping(root, path)
  {
    ok := true;
    for i := 0 to |roots|
      invariant ok <==> forall root, path :: root in roots[..i] && path in readPaths ==> !Overlapping(root, path)
    {
      for j := 0 to |readPaths|
        invariant ok <==> && (forall root, path :: root in roots[..i] && path in readPaths ==> !Overlapping(root, path))
                          && (forall path :: path in readPaths[..j] ==> !Overlapping(roots[i], path))
      {
        Overlap(roots[i], readPaths[j]);
        if InsideOf(readPaths[j], roots[i]) || InsideOf(roots[i], readPaths[j]) {
          ok := false;
        }
      }
      assert readPaths[..|readPaths|] == readPaths;
    }
    assert roots[..|roots|] == roots;
  }

  /** Some path lies in both directories. */
  ghost predicate Overlapping(a: Path, b: Path) {
    exists p: Path :: InsideOf(p, a) && InsideOf(p, b)
  }

  /** Two directories have a common path exactly when one lies inside the other. */
  lemma Overlap(a: Path, b: Path)
    ensures Overlapping(a, b) <==> InsideOf(a, b) || InsideOf(b, a)
  {
    if InsideOf(a, b) {
      assert InsideOf(a, a);
    }
    if InsideOf(b, a) {
      assert InsideOf(b, b);
    }
    if p: Path :| InsideOf(p, a) && InsideOf(p, b) {
      if |a| <= |b| {
        assert b[..|a|] == p[..|a|];
      } else {
        assert a[..|b|] == p[..|b|];
      }
    }
  }

  // ----- what is approved and what is observed

  datatype MountKind = Bind | Volume | Tmpfs

  datatype Mount = Mount(kind: MountKind, name: Option<string>, source: Path, destination: Path, readOnly: bool)

  /** A container as it is approved. */
  datatype Binding = Binding(id: nat, project: Option<string>, service: Option<string>, mounts: seq<Mount>)

  /** An image and the references of its containers. */
  datatype Image = Image(digest: nat, refs: seq<nat>)

  datatype Config = Config(images: seq<Image>, bindings: seq<Binding>, specImage: nat, runtimeFiles: seq<Path>)

  /** A reference names a container by its id or by its name; both are numbered here. */
  datatype Row = Row(id: nat, name: nat, image: nat, service: Option<string>, project: Option<string>,
                     running: bool, exitCode: int, pid: int, startedAt: int, finishedAt: int,
                     paused: bool, dead: bool, restarting: bool, mounts: seq<Mount>, rest: nat)

  /** The canonical copy of a row that is kept to detect changes: mounts in a fixed order. */
  datatype Witness = Witness(row: Row, mounts: multiset<Mount>)

  function WitnessOf(row: Row): Witness {
    Witness(row.(mounts := []), multiset(row.mounts))
  }

  const MAX_MOUNTS := 32

  predicate Distinct<T(==)>(s: seq<T>) {
    forall i, j :: 0 <= i < j < |s| ==> s[i] != s[j]
  }

  /** The same mounts in any order, none of them twice. */
  predicate SameMounts(observed: seq<Mount>, approved: seq<Mount>) {
    && |observed| <= MAX_MOUNTS && |approved| <= MAX_MOUNTS && Distinct(observed) && Distinct(approved)
    && (forall m :: m in observed ==> m in approved) && (forall m :: m in approved ==> m in observed)
  }

  predicate Approves(b: Binding, row: Row) {
    b.id == row.id && row.project == b.project && row.service == b.service && SameMounts(row.mounts, b.mounts)
  }

  /** The container is the one approved under this reference and image, and in an acceptable state. */
  predicate Acceptable(config: Config, ref: nat, image: nat, row: Row) {
    && row.image == image && (ref == row.id || ref == row.name)
    && (exists i :: 0 <= i < |config.bindings| && Approves(config.bindings[i], row)
                    && forall j :: 0 <= j < |config.bindings| && j != i ==> config.bindings[j].id != row.id)
    && !row.paused && !row.dead && !row.restarting
    && if row.running then row.pid > 0 else image == config.specImage && row.pid == 0 && row.exitCode == 0
  }

  /** What the n-th inspection answers about a reference; no answer stands for every failure of the probe. */
  type Daemon = (nat, nat) -> Option<Row>

  function Observed(config: Config, ref: nat, image: nat, answer: Option<Row>): Option<(nat, Witness)> {
    if answer.Some? && Acceptable(config, ref, image, answer.value) then Some((answer.value.id, WitnessOf(answer.value)))
    else None
  }

  datatype Pin = Pin(id: nat, image: nat, view: Witness)

  datatype Target = Target(ref: nat, image: nat)

  /** The references in the order in which they are pinned. */
  function Targets(images: seq<Image>): seq<Target> {
    if images == [] then []
    else Targets(images[..|images| - 1]) + ImageTargets(images[|images| - 1], |images[|images| - 1].refs|)
  }

  function ImageTargets(image: Image, n: nat): (targets: seq<Target>)
    requires n <= |image.refs|
    ensures |targets| == n && forall k :: 0 <= k < n ==> targets[k] == Target(image.refs[k], image.digest)
  {
    seq(n, k requires 0 <= k < n => Target(image.refs[k], image.digest))
  }

  /** The pins are what the inspections n, n+1, ... answered about the targets. */
  predicate PinsObserved(config: Config, daemon: Daemon, n: nat, targets: seq<Target>, pins: seq<Pin>) {
    && |pins| == |targets|
    && forall k :: 0 <= k < |pins| ==>
         && pins[k].image == targets[k].image
         && Observed(config, targets[k].ref, targets[k].image, daemon(n + k, targets[k].ref)) == Some((pins[k].id, pins[k].view))
  }

  predicate DistinctIds(pins: seq<Pin>) {
    forall i, j :: 0 <= i < j < |pins| ==> pins[i].id != pins[j].id
  }

  predicate SeenBefore(pins: seq<Pin>, id: nat) {
    exists k :: 0 <= k < |pins| && pins[k].id == id
  }

  function Ids(pins: seq<Pin>): set<nat> {
    set k | 0 <= k < |pins| :: pins[k].id
  }

  function ApprovedIds(bindings: seq<Binding>): set<nat> {
    set k | 0 <= k < |bindings| :: bindings[k].id
  }

  /** Every pinned container still looks the same when asked for by its id. */
  predicate Unchanged(config: Config, daemon: Daemon, n: nat, pins: seq<Pin>) {
    forall k :: 0 <= k < |pins| ==> PinHolds(config, daemon, n + k, pins[k])
  }

  predicate PinHolds(config: Config, daemon: Daemon, n: nat, pin: Pin) {
    Observed(config, pin.id, pin.image, daemon(n, pin.id)) == Some((pin.id, pin.view))
  }

  class Containers {
    const config: Config
    const daemon: Daemon
    var asked: nat
    var pins: Option<seq<Pin>>

    constructor (config: Config, daemon: Daemon)
      ensures this.config == config && this.daemon == daemon && asked == 0 && pins.None?
    {
      this.config, this.daemon, asked, pins := config, daemon, 0, None;
    }

    method Observe(ref: nat, image: nat) returns (observed: Option<(nat, Witness)>)
      modifies this`asked
      ensures asked == old(asked) + 1
      ensures observed == Observed(config, ref, image, daemon(old(asked), ref))
    {
      var answer := daemon(asked, ref);
      asked := asked + 1;
      if answer.None? || !Acceptable(config, ref, image, answer.value) {
        return None;
      }
      observed := Some((answer.value.id, WitnessOf(answer.value)));
    }

    /** The containers of one image, after those of the images before it. */
    method PinImage(i: nat, before: seq<Pin>, ghost start: nat) returns (found: Option<seq<Pin>>)
      requires i < |config.images| && asked == start + |before| && DistinctIds(before)
      requires PinsObserved(config, daemon, start, Targets(config.images[..i]), before)
      modifies this`asked
      ensures found.Some? ==> && PinsObserved(config, daemon, start, Targets(config.images[..i + 1]), found.value)
                              && DistinctIds(found.value) && asked == start + |found.value|
      ensures found.None? ==> forall other :: PinsObserved(config, daemon, start, Targets(config.images), other) ==> !DistinctIds(other)
    {
      var image, pins := config.images[i], before;
      ghost var done := Targets(config.images[..i]);
      assert |before| == |done| && done + ImageTargets(image, 0) == done;
      TargetsStep(config.images, i);
      hide Observed, PinsObserved, DistinctIds, Ids, Targets, ImageTargets, SeenBefore;
      for j := 0 to |image.refs|
        invariant asked == start + |pins| && DistinctIds(pins)
        invariant |pins| == |done| + j && PinsObserved(config, daemon, start, done + ImageTargets(image, j), pins)
      {
        var observed := Observe(image.refs[j], image.digest);
        TargetAt(config.images, i, j);
        ghost var target := Target(image.refs[j], image.digest);
        if observed.None? || SeenBefore(pins, observed.value.0) {
          Unpinnable(config, daemon, start, Targets(config.images), done + ImageTargets(image, j), pins, observed);
          return None;
        }
        PinsAppend(config, daemon, start, done + ImageTargets(image, j), pins, target, observed.value.0, observed.value.1);
        ImageTargetsStep(done, image, j);
        pins := pins + [Pin(observed.value.0, image.digest, observed.value.1)];
      }
      found := Some(pins);
    }

    /** Pins every container once: distinct ids, together exactly the approved ones. */
    method PinAll() returns (ok: bool)
      modifies this`asked, this`pins
      ensures ok ==> && old(pins).None? && pins.Some?
                     && PinsObserved(config, daemon, old(asked), Targets(config.images), pins.value)
                     && asked == old(asked) + |pins.value|
                     && DistinctIds(pins.value) && Ids(pins.value) == ApprovedIds(config.bindings)
      ensures !ok ==> pins == old(pins)
      ensures ok <==> old(pins).None? && exists found: seq<Pin> ::
                        && PinsObserved(config, daemon, old(asked), Targets(config.images), found)
                        && DistinctIds(found) && Ids(found) == ApprovedIds(config.bindings)
    {
      if pins.Some? {
        return false;
      }
      var found: seq<Pin> := [];
      for i := 0 to |config.images|
        invariant pins.None? && asked == old(asked) + |found| && DistinctIds(found)
        invariant PinsObserved(config, daemon, old(asked), Targets(config.images[..i]), found)
      {
        hide PinsObserved, DistinctIds, Ids;
        var more := PinImage(i, found, old(asked));
        if more.None? {
          return false;
        }
        found := more.value;
      }
      hide PinsObserved, DistinctIds, Ids, ApprovedIds;
      assert config.images[..|config.images|] == config.images;
      OnlyThesePins(config, daemon, old(asked), Targets(config.images), found);
      if Ids(found) != ApprovedIds(config.bindings) {
        return false;
      }
      pins := Some(found);
      ok := true;
    }

    method Recheck() returns (ok: bool)
      modifies this`asked
      ensures ok <==> pins.Some? && Unchanged(config, daemon, old(asked), pins.value)
      ensures ok ==> asked == old(asked) + |pins.value|
    {
      hide Acceptable, WitnessOf;
      if pins.None? {
        return false;
      }
      for k := 0 to |pins.value|
        invariant asked == old(asked) + k
        invariant forall j :: 0 <= j < k ==> PinHolds(config, daemon, old(asked) + j, pins.value[j])
      {
        var pin := pins.value[k];
        var observed := Observe(pin.id, pin.image);
        if observed != Some((pin.id, pin.view)) {
          assert !PinHolds(config, daemon, old(asked) + k, pins.value[k]);
          return false;
        }
      }
      ok := true;
    }
  }

  // ----- the container that holds the runtime files

  predicate HoldsImage(pins: seq<Pin>, id: nat, image: nat) {
    exists k :: 0 <= k < |pins| && pins[k].id == id && pins[k].image == image
  }

  predicate HoldsFiles(files: seq<Path>, directory: Path) {
    forall k :: 0 <= k < |files| ==> InsideOf(files[k], directory)
  }

  /** The m-th mount of the b-th approved container is one that can hold the runtime files. */
  predicate Serves(config: Config, pins: seq<Pin>, b: nat, m: nat) {
    && b < |config.bindings| && m < |config.bindings[b].mounts|
    && HoldsImage(pins, config.bindings[b].id, config.specImage)
    && !config.bindings[b].mounts[m].kind.Tmpfs? && HoldsFiles(config.runtimeFiles, config.bindings[b].mounts[m].source)
  }

  /** The runtime files have a target exactly if one mount, and no other, can hold them. */
  method RuntimeTarget(config: Config, pins: seq<Pin>) returns (target: Option<(nat, Mount)>)
    ensures target.Some? <==> exists b: nat, m: nat :: Serves(config, pins, b, m) && OnlyOne(config, pins, b, m)
    ensures target.Some? ==> exists b: nat, m: nat :: && Serves(config, pins, b, m) && OnlyOne(config, pins, b, m)
                               && target.value == (config.bindings[b].id, config.bindings[b].mounts[m])
  {
    var matches: seq<(nat, nat)> := [];
    for b := 0 to |config.bindings|
      invariant Found(config, pins, matches, b, 0)
    {
      var mounts := config.bindings[b].mounts;
      for m := 0 to |mounts|
        invariant Found(config, pins, matches, b, m)
      {
        if Serves(config, pins, b, m) {
          matches := matches + [(b, m)];
        }
      }
    }
    hide Serves;
    if |matches| != 1 {
      if |matches| > 1 {
        assert Serves(config, pins, matches[0].0, matches[0].1) && Serves(config, pins, matches[1].0, matches[1].1);
      }
      return None;
    }
    var (b, m) := matches[0];
    assert Serves(config, pins, b, m) && OnlyOne(config, pins, b, m);
    target := Some((config.bindings[b].id, config.bindings[b].mounts[m]));
  }

  ghost predicate OnlyOne(config: Config, pins: seq<Pin>, b: nat, m: nat) {
    forall c: nat, n: nat :: Serves(config, pins, c, n) ==> c == b && n == m
  }

  /** The matches so far are all those before the m-th mount of the b-th container. */
  ghost predicate Found(config: Config, pins: seq<Pin>, matches: seq<(nat, nat)>, b: nat, m: nat) {
    && (forall k :: 0 <= k < |matches| ==> Serves(config, pins, matches[k].0, matches[k].1) && Before(matches[k], b, m))
    && (forall j, k :: 0 <= j < k < |matches| ==> matches[j] != matches[k])
    && (forall c: nat, n: nat :: Serves(config, pins, c, n) && Before((c, n), b, m) ==> (c, n) in matches)
  }

  predicate Before(pair: (nat, nat), b: nat, m: nat) {
    pair.0 < b || (pair.0 == b && pair.1 < m)
  }

  // ----- what equal witnesses prove

  /** The n-th inspection happens at at(n). */
  ghost predicate Ordered(at: nat -> nat) {
    forall n: nat, m: nat :: n <= m ==> at(n) <= at(m)
  }

  /** Every change of a container gives it a new version. */
  ghost predicate Versioned(version: (nat, nat) -> nat) {
    forall id: nat, t: nat, u: nat :: t <= u ==> version(id, t) <= version(id, u)
  }

  /** A witness shows which version was observed. */
  ghost predicate Faithful(daemon: Daemon, at: nat -> nat, version: (nat, nat) -> nat) {
    forall n: nat, r: nat, m: nat, q: nat ::
      daemon(n, r).Some? && daemon(m, q).Some? && WitnessOf(daemon(n, r).value) == WitnessOf(daemon(m, q).value) ==>
        version(daemon(n, r).value.id, at(n)) == version(daemon(m, q).value.id, at(m))
  }

  /** Between being pinned and a successful recheck a container did not change, not even back and forth. */
  lemma UnchangedBetween(config: Config, daemon: Daemon, at: nat -> nat, version: (nat, nat) -> nat,
                         n: nat, m: nat, targets: seq<Target>, pins: seq<Pin>, k: nat, t: nat)
    requires Ordered(at) && Versioned(version) && Faithful(daemon, at, version)
    requires PinsObserved(config, daemon, n, targets, pins) && Unchanged(config, daemon, m, pins) && n <= m
    requires k < |pins| && at(n + k) <= t <= at(m + k)
    ensures version(pins[k].id, t) == version(pins[k].id, at(n + k))
  {
  }

  /** All containers at once: nothing changed from the end of pinning to the start of the recheck. */
  lemma NothingChanged(config: Config, daemon: Daemon, at: nat -> nat, version: (nat, nat) -> nat,
                       n: nat, m: nat, targets: seq<Target>, pins: seq<Pin>)
    requires Ordered(at) && Versioned(version) && Faithful(daemon, at, version)
    requires PinsObserved(config, daemon, n, targets, pins) && Unchanged(config, daemon, m, pins) && n + |pins| <= m
    ensures forall k, t: nat :: 0 <= k < |pins| && at(n + |pins|) <= t <= at(m) ==>
              version(pins[k].id, t) == version(pins[k].id, at(n + |pins|))
  {
    hide PinsObserved, Unchanged, Faithful, Versioned;
    forall k, t: nat | 0 <= k < |pins| && at(n + |pins|) <= t <= at(m)
      ensures version(pins[k].id, t) == version(pins[k].id, at(n + |pins|))
    {
      UnchangedBetween(config, daemon, at, version, n, m, targets, pins, k, t);
      UnchangedBetween(config, daemon, at, version, n, m, targets, pins, k, at(n + |pins|));
    }
  }

  // ----- the quiescent runtime

  /** What must stay the same about the stopped container of the runtime files, and about the files themselves. */
  datatype Evidence = Evidence(id: nat, startedAt: int, finishedAt: int, mount: Mount, files: nat)

  const YEAR_2000 := 946684800

  /** An empty source, as a tmpfs has it, is refused like a shared one. */
  predicate NoWriter(rows: seq<Row>, id: nat, mount: Mount) {
    forall k :: 0 <= k < |rows| && rows[k].id != id && rows[k].running ==>
      forall j :: 0 <= j < |rows[k].mounts| && !rows[k].mounts[j].readOnly ==>
        rows[k].mounts[j].source != [] && !Shares(rows[k].mounts[j], mount)
  }

  predicate Shares(other: Mount, mount: Mount) {
    || InsideOf(other.source, mount.source) || InsideOf(mount.source, other.source)
    || (mount.name.Some? && mount.name != Some("") && other.name == mount.name)
  }

  /** QuiescentRuntime._observe: the pinned container as it was, stopped cleanly, and nobody else writing to its directory. */
  predicate Quiescent(config: Config, pins: seq<Pin>, target: (nat, Mount), row: Row, rows: seq<Row>, now: int) {
    && (exists k :: 0 <= k < |pins| && pins[k].id == target.0 && pins[k].view == WitnessOf(row) && row.id == target.0
                    && forall j :: 0 <= j < k ==> pins[j].id != target.0)
    && Acceptable(config, target.0, config.specImage, row) && !row.running
    && row.finishedAt >= YEAR_2000 && row.startedAt < row.finishedAt <= now
    && multiset(row.mounts)[target.1] == 1 && HoldsFiles(config.runtimeFiles, target.1.source)
    && NoWriter(rows, target.0, target.1)
  }

  /** No other running container can write any path below the directory of the runtime files. */
  lemma DirectoryIsExclusive(config: Config, pins: seq<Pin>, target: (nat, Mount), row: Row, rows: seq<Row>, now: int,
                             k: nat, j: nat, path: Path)
    requires Quiescent(config, pins, target, row, rows, now)
    requires k < |rows| && rows[k].id != target.0 && rows[k].running && j < |rows[k].mounts|
    requires InsideOf(path, target.1.source) && InsideOf(path, rows[k].mounts[j].source)
    ensures rows[k].mounts[j].readOnly
  {
    Overlap(rows[k].mounts[j].source, target.1.source);
    hide Acceptable, WitnessOf;
  }

  lemma TargetsStep(images: seq<Image>, i: nat)
    requires i < |images|
    ensures Targets(images[..i + 1]) == Targets(images[..i]) + ImageTargets(images[i], |images[i].refs|)
  {
    assert images[..i + 1][..i] == images[..i];
  }

  lemma ImageTargetsStep(done: seq<Target>, image: Image, j: nat)
    requires j < |image.refs|
    ensures done + ImageTargets(image, j) + [Target(image.refs[j], image.digest)] == done + ImageTargets(image, j + 1)
  {
  }

  /** Where a reference stands among all targets. */
  lemma TargetAt(images: seq<Image>, i: nat, j: nat)
    requires i < |images| && j < |images[i].refs|
    ensures Targets(images[..i]) + ImageTargets(images[i], j) + [Target(images[i].refs[j], images[i].digest)] <= Targets(images)
  {
    TargetsGrow(images, i + 1);
    assert images[..i + 1][..i] == images[..i];
    assert ImageTargets(images[i], j) + [Target(images[i].refs[j], images[i].digest)] <= ImageTargets(images[i], |images[i].refs|);
  }

  lemma {:induction false} TargetsGrow(images: seq<Image>, n: nat)
    requires n <= |images|
    ensures Targets(images[..n]) <= Targets(images)
    decreases |images|
  {
    if n < |images| {
      TargetsGrow(images[..|images| - 1], n);
      assert images[..|images| - 1][..n] == images[..n];
    } else {
      assert images[..n] == images;
    }
  }

  lemma PinsAppend(config: Config, daemon: Daemon, n: nat, targets: seq<Target>, pins: seq<Pin>, target: Target,
                   id: nat, w: Witness)
    requires PinsObserved(config, daemon, n, targets, pins) && DistinctIds(pins) && !SeenBefore(pins, id)
    requires Observed(config, target.ref, target.image, daemon(n + |pins|, target.ref)) == Some((id, w))
    ensures PinsObserved(config, daemon, n, targets + [target], pins + [Pin(id, target.image, w)])
    ensures DistinctIds(pins + [Pin(id, target.image, w)])
  {
  }

  lemma OnlyThesePins(config: Config, daemon: Daemon, n: nat, targets: seq<Target>, pins: seq<Pin>)
    requires PinsObserved(config, daemon, n, targets, pins)
    ensures forall other: seq<Pin> :: PinsObserved(config, daemon, n, targets, other) ==> other == pins
  {
  }

  /** A target without an acceptable answer, or with an id seen before, cannot be part of any pinning. */
  lemma Unpinnable(config: Config, daemon: Daemon, n: nat, all: seq<Target>, done: seq<Target>, found: seq<Pin>,
                   observed: Option<(nat, Witness)>)
    requires PinsObserved(config, daemon, n, done, found) && |done| < |all| && done <= all
    requires observed == Observed(config, all[|done|].ref, all[|done|].image, daemon(n + |done|, all[|done|].ref))
    requires observed.None? || SeenBefore(found, observed.value.0)
    ensures forall other: seq<Pin> :: PinsObserved(config, daemon, n, all, other) ==> !DistinctIds(other)
  {
  }
}
