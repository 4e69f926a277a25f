/**
 One VM's migration as a machine of guarded steps: the persisted VM status, the
 world it acts on (the source VM with its disks, the Nutanix snapshots and
 images, the target cluster's DataVolumes, pods and VM) and a log of what was
 done. A handler's API calls are separate controller steps, so guest writes,
 pod and DataVolume progress, power changes and the passing of time may fall
 between any two of them.
 */
module Machine {
  import opened Wrappers
  import opened Phases
  import opened Disks

  type Id = nat

  /** Unset is the empty string, both as "not recorded yet" and as an API answer. */
  datatype PowerState = Unset | On | Off | Paused

  datatype PowerCommand = PowerOffCommand(at: nat) | PowerOnCommand(at: nat)

  /** What the plan fixes for one VM. */
  datatype Config = Config(warm: bool, startTarget: bool, maxRounds: int, interval: int)

  datatype RoundLabel = PrecopyLabel(number: nat) | FinalLabel
  datatype PodName = PodName(round: RoundLabel, disk: nat)

  datatype WarmStatus = WarmStatus(
    rounds: nat, cumulativeBytes: int, lastDeltaBytes: int,
    baseSnap: Option<Id>, baseImages: seq<Id>, lastTime: Option<nat>,
    deltaSnap: Option<Id>, deltaImages: seq<Id>, deltaPod: Option<PodName>,
    diskIdx: nat, deltaBytes: int)

  const EMPTY_WARM: WarmStatus := WarmStatus(0, 0, 0, None, [], None, None, [], None, 0, 0)

  /** The persisted status of the VM; DataVolume names are determined by their index. */
  datatype VmStatus = VmStatus(
    phase: Phase, snapshot: Option<Id>, images: seq<Id>, dvNames: nat,
    original: PowerState, warm: Option<WarmStatus>)

  datatype ImageData = ImageData(disk: nat, bytes: seq<Byte>)

  datatype DvPhase = DvRunning | DvSucceeded | DvFailed
  datatype DataVolume = DataVolume(image: Id, phase: DvPhase, bytes: seq<Byte>)

  datatype PodPhase = PodActive | PodSucceeded | PodFailed | PodDeleted
  datatype Pod = Pod(disk: nat, image: Id, regions: seq<Region>, copied: set<int>, phase: PodPhase)

  datatype TargetVm = NoTarget | Halted | Started

  /** Snapshot and image entries are never dropped: deletion requests are in the log. */
  datatype World = World(
    clock: nat, power: PowerState, disks: seq<Disk>, nextId: Id,
    snaps: map<Id, nat>, images: map<Id, ImageData>,
    dvs: seq<DataVolume>, pods: map<PodName, Pod>,
    target: TargetVm, cutover: Option<nat>)

  /** What reading a pod's phase can answer: unknown if it is gone or cannot be read. */
  datatype SeenPod = SeenActive | SeenSucceeded | SeenFailed | SeenUnknown

  /** A pod that was read at a cutover, and the answer. */
  datatype PodRead = PodRead(name: PodName, seen: SeenPod)

  datatype Fetch = Fetch(round: nat, disk: nat, regions: seq<Region>)

  datatype Log = Log(
    history: seq<Phase>,
    deletedSnaps: set<Id>, deletedImages: set<Id>, deletedDvs: nat,
    commands: seq<PowerCommand>, observed: Option<PowerState>, offSeen: bool,
    leftPrecopyAt: Option<nat>, midRound: bool, finalDone: bool, syncTime: int,
    cleaned: bool, failedIn: Option<Phase>,
    roundTimes: seq<nat>, fetches: seq<Fetch>,
    podRead: Option<PodRead>, leftPod: Option<PodName>)

  const EMPTY_LOG: Log :=
    Log([Pending], {}, {}, 0, [], None, false, None, false, false, 0, false, None, [], [], None, None)

  const EMPTY_STATUS: VmStatus := VmStatus(Pending, None, [], 0, Unset, None)

  datatype State = State(cfg: Config, vm: VmStatus, w: World, log: Log)

  /** Moves between phases. */
  datatype LifeStep = Begin | Cancel | Advance | Fail

  /** The single actions of the cold pipeline and of the bulk copy. */
  datatype PipelineStep =
    | StorePower | CommandPowerOff | SeeOff
    | TakeSnapshot | ExportDisk | CreateDataVolume | InitWarm
    | CreateTarget | StartTarget | CleanUp

  /** The single actions of a delta round. */
  datatype DeltaStep =
    | TakeDeltaSnapshot | ExportDeltaDisk
    | SyncDisk(regions: seq<Region>) | SyncDiskFail(regions: seq<Region>)
    | CollectPod | CollectPodFail | FinishRound | FinishFinal
    | ReadPod(seen: SeenPod)

  datatype EnvStep =
    | Tick(d: nat)
    | GuestWrite(disk: nat, offset: nat, value: Byte)
    | OutsidePower(p: PowerState)
    | PowerOnTakesEffect
    | DvSucceeds(k: nat)
    | DvFails(k: nat)
    | PodCopies(name: PodName, offset: nat)
    | PodSucceeds(name: PodName)
    | PodFails(name: PodName)
    | SetCutover(c: Option<nat>)
    | TargetWrite(k: nat, offset: nat, value: Byte)

  datatype Step = Life(l: LifeStep) | Pipeline(p: PipelineStep) | Delta(d: DeltaStep) | Env(e: EnvStep)

  // ----- Start of a run -----

  ghost predicate Init(s: State) {
    && s.vm == EMPTY_STATUS
    && s.w.snaps == map[] && s.w.images == map[] && s.w.dvs == [] && s.w.pods == map[]
    && s.w.target == NoTarget
    && (forall d :: 0 <= d < |s.w.disks| ==> WellFormed(s.w.disks[d]) && QuietSince(s.w.disks[d], s.w.clock))
    && s.log == EMPTY_LOG
  }

  /** A run may begin with any VM that has not been touched, written out. */
  lemma AnyFreshVm(cfg: Config, clock: nat, power: PowerState, disks: seq<Disk>, nextId: Id, cutover: Option<nat>)
    requires forall d :: 0 <= d < |disks| ==> WellFormed(disks[d]) && QuietSince(disks[d], clock)
    ensures Init(State(cfg, VmStatus(Pending, None, [], 0, Unset, None),
                       World(clock, power, disks, nextId, map[], map[], [], map[], NoTarget, cutover),
                       EMPTY_LOG))
  {
  }

  // ----- Environment steps -----

  predicate EnvEnabled(s: State, e: EnvStep) {
    match e
    case Tick(_) => true
    // Only a running (or paused) guest writes.
    case GuestWrite(d, o, _) =>
      s.w.power != Off && d < |s.w.disks| && o < |s.w.disks[d].live| == |s.w.disks[d].stamp|
    // Until the controller has seen the source off, anyone may change its power.
    case OutsidePower(_) => !s.log.offSeen
    // Afterwards only a PowerOn command of the controller can bring it back.
    case PowerOnTakesEffect => s.log.commands != [] && Last(s.log.commands).PowerOnCommand?
    case DvSucceeds(k) =>
      k < |s.w.dvs| && s.w.dvs[k].phase == DvRunning && s.w.dvs[k].image in s.w.images
    case DvFails(k) => k < |s.w.dvs| && s.w.dvs[k].phase == DvRunning
    case PodCopies(name, o) =>
      && name in s.w.pods && s.w.pods[name].phase == PodActive
      && s.w.pods[name].disk < |s.w.dvs| && s.w.pods[name].image in s.w.images
      && o < |s.w.dvs[s.w.pods[name].disk].bytes| == |s.w.images[s.w.pods[name].image].bytes|
      && InRegions(s.w.pods[name].regions, o)
    // A pod succeeds only when every byte of every region it was given is written.
    case PodSucceeds(name) =>
      && name in s.w.pods && s.w.pods[name].phase == PodActive
      && s.w.pods[name].disk < |s.w.dvs|
      && AllCopied(s.w.pods[name].regions, |s.w.dvs[s.w.pods[name].disk].bytes|, s.w.pods[name].copied)
    case PodFails(name) => name in s.w.pods && s.w.pods[name].phase == PodActive
    case SetCutover(_) => true
    // A started target VM writes its own disks.
    case TargetWrite(k, o, _) => s.w.target == Started && k < |s.w.dvs| && o < |s.w.dvs[k].bytes|
  }

  function Last<T>(xs: seq<T>): T
    requires xs != []
  {
    xs[|xs| - 1]
  }

  function EnvApply(s: State, e: EnvStep): World
    requires EnvEnabled(s, e)
  {
    var w := s.w;
    match e
    case Tick(d) => w.(clock := w.clock + d)
    case GuestWrite(d, o, b) => w.(disks := w.disks[d := Write(w.disks[d], o, b, w.clock)])
    case OutsidePower(p) => w.(power := p)
    case PowerOnTakesEffect => w.(power := On)
    case DvSucceeds(k) =>
      w.(dvs := w.dvs[k := w.dvs[k].(phase := DvSucceeded, bytes := w.images[w.dvs[k].image].bytes)])
    case DvFails(k) => w.(dvs := w.dvs[k := w.dvs[k].(phase := DvFailed)])
    case PodCopies(name, o) =>
      var pod := w.pods[name];
      var dv := w.dvs[pod.disk];
      w.(dvs := w.dvs[pod.disk := dv.(bytes := dv.bytes[o := w.images[pod.image].bytes[o]])],
         pods := w.pods[name := pod.(copied := pod.copied + {o})])
    case PodSucceeds(name) => w.(pods := w.pods[name := w.pods[name].(phase := PodSucceeded)])
    case PodFails(name) => w.(pods := w.pods[name := w.pods[name].(phase := PodFailed)])
    case SetCutover(c) => w.(cutover := c)
    case TargetWrite(k, o, b) => w.(dvs := w.dvs[k := w.dvs[k].(bytes := w.dvs[k].bytes[o := b])])
  }

  /** What the environment is free to do at any time, written out. */
  lemma EnvironmentIsFree(s: State, d: nat, o: nat, b: Byte, p: PowerState, k: nat, name: PodName, c: Option<nat>)
    ensures EnvEnabled(s, Tick(k)) && EnvEnabled(s, SetCutover(c))
    ensures !s.log.offSeen ==> EnvEnabled(s, OutsidePower(p))
    ensures s.w.power != Off && d < |s.w.disks| && WellFormed(s.w.disks[d]) && o < |s.w.disks[d].live| ==>
      EnvEnabled(s, GuestWrite(d, o, b))
    ensures k < |s.w.dvs| && s.w.dvs[k].phase == DvRunning ==> EnvEnabled(s, DvFails(k))
    ensures k < |s.w.dvs| && s.w.dvs[k].phase == DvRunning && s.w.dvs[k].image in s.w.images ==>
      EnvEnabled(s, DvSucceeds(k))
    ensures name in s.w.pods && s.w.pods[name].phase == PodActive ==> EnvEnabled(s, PodFails(name))
    ensures s.w.target == Started && k < |s.w.dvs| && o < |s.w.dvs[k].bytes| ==> EnvEnabled(s, TargetWrite(k, o, b))
    ensures s.log.commands != [] && s.log.commands[|s.log.commands| - 1].PowerOnCommand? ==>
      EnvEnabled(s, PowerOnTakesEffect)
  {
  }

  // ----- Controller steps -----

  predicate AllDvsSucceeded(s: State) {
    forall k :: 0 <= k < |s.w.dvs| ==> s.w.dvs[k].phase == DvSucceeded
  }

  predicate CutoverPassed(s: State) {
    s.w.cutover.Some? && s.w.cutover.value < s.w.clock
  }

  /** An answer that reading the pod may give. */
  predicate SeenFits(w: World, name: PodName, seen: SeenPod) {
    match seen
    case SeenActive => name in w.pods && w.pods[name].phase == PodActive
    case SeenSucceeded => name in w.pods && w.pods[name].phase == PodSucceeded
    case SeenFailed => name in w.pods && w.pods[name].phase == PodFailed
    case SeenUnknown => true
  }

  /** The delta pod that the status names, if any, was read, and not as active. */
  predicate PodNotSeenActive(s: State)
    requires s.vm.warm.Some?
  {
    s.vm.warm.value.deltaPod.Some? ==>
      && s.log.podRead.Some? && s.log.podRead.value.name == s.vm.warm.value.deltaPod.value
      && s.log.podRead.value.seen != SeenActive
  }

  /** What must hold when the handler of the current phase reports completion; hooks promise nothing. */
  predicate Done(s: State) {
    && IsActive(s.vm.phase)
    && (s.vm.phase == StorePowerState ==> s.vm.original != Unset || s.log.observed.Some?)
    && (s.vm.phase == PowerOff ==> s.vm.original == Off || s.log.commands != [])
    && (s.vm.phase == WaitForPowerOff ==> s.log.offSeen)
    && (s.vm.phase == CreateSnapshot ==> s.vm.snapshot.Some?)
    && (s.vm.phase == ExportDisks ==> |s.vm.images| >= |s.w.disks|)
    && (s.vm.phase == ImportDisks ==> s.vm.dvNames >= |s.vm.images| && AllDvsSucceeded(s))
    && (s.vm.phase == BulkCopy ==>
          && s.vm.snapshot.Some? && |s.vm.images| >= |s.w.disks|
          && s.vm.dvNames >= |s.vm.images| && s.vm.warm.Some?)
    && (s.vm.phase == WaitBulkCopy ==> AllDvsSucceeded(s))
    && (s.vm.phase == Precopy ==> s.vm.warm.Some? && CutoverPassed(s) && PodNotSeenActive(s))
    && (s.vm.phase == FinalSync ==> s.log.finalDone)
    && (s.vm.phase == CreateVM ==> s.w.target != NoTarget)
    && (s.vm.phase == StartVM ==> !s.cfg.startTarget || s.w.target == Started)
    && (s.vm.phase == Cleanup ==> s.log.cleaned)
  }

  /**
   The handler of the current phase still has a call ahead that may fail. Cleanup
   ignores its errors; the single-action handlers cannot fail after their action.
   */
  predicate CanFail(s: State) {
    && IsActive(s.vm.phase)
    && (s.vm.phase == StorePowerState ==> s.vm.original == Unset && s.log.observed.None?)
    && (s.vm.phase == PowerOff ==> s.vm.original != Off)
    && (s.vm.phase == WaitForPowerOff ==> !s.log.offSeen)
    && (s.vm.phase == CreateSnapshot ==> s.vm.snapshot.None?)
    && (s.vm.phase == FinalSync ==> !s.log.finalDone)
    && (s.vm.phase == CreateVM ==> s.w.target == NoTarget)
    && (s.vm.phase == StartVM ==> s.cfg.startTarget && s.w.target != Started)
    && s.vm.phase != Cleanup
  }

  /** Inside a handler that runs delta rounds, with no delta pod outstanding. */
  predicate DeltaPhase(s: State) {
    && (s.vm.phase == Precopy || (s.vm.phase == FinalSync && !s.log.finalDone))
    && s.vm.warm.Some?
    && s.vm.warm.value.deltaPod.None?
  }

  /** Snapshot taken and every disk exported for the current round. */
  predicate RoundExported(s: State) {
    && DeltaPhase(s)
    && s.vm.warm.value.deltaSnap.Some?
    && |s.vm.warm.value.deltaImages| >= |s.w.disks|
  }

  /** A round, once its snapshot is taken, is never left half exported at the end of a handler. */
  predicate RoundRests(s: State) {
    s.vm.warm.Some? && s.vm.warm.value.deltaSnap.Some? ==> |s.vm.warm.value.deltaImages| == |s.w.disks|
  }

  predicate IntervalElapsed(s: State)
    requires s.vm.warm.Some?
  {
    s.vm.warm.value.lastTime.None? || s.w.clock - s.vm.warm.value.lastTime.value >= s.cfg.interval
  }

  /** The change tracker's answer for the disk the current round is at. */
  predicate CbtAnswer(s: State, regions: seq<Region>) {
    && RoundExported(s)
    && var warm := s.vm.warm.value;
    && warm.diskIdx < |s.w.disks|
    && warm.deltaSnap.value in s.w.snaps
    && warm.baseSnap.Some? && warm.baseSnap.value in s.w.snaps
    && Covers(s.w.disks[warm.diskIdx], regions, s.w.snaps[warm.baseSnap.value], s.w.snaps[warm.deltaSnap.value])
  }

  /** Any list of regions that contains the bytes written between the two snapshots is a possible answer. */
  lemma AnyCoveringAnswer(s: State, regions: seq<Region>, disk: Disk, base: nat, delta: nat)
    requires RoundExported(s)
    requires var warm := s.vm.warm.value;
      && warm.diskIdx < |s.w.disks| && disk == s.w.disks[warm.diskIdx] && WellFormed(disk)
      && warm.baseSnap.Some? && warm.baseSnap.value in s.w.snaps && base == s.w.snaps[warm.baseSnap.value]
      && warm.deltaSnap.value in s.w.snaps && delta == s.w.snaps[warm.deltaSnap.value]
    requires forall o :: 0 <= o < |disk.stamp| && base < disk.stamp[o] <= delta ==>
      exists r :: r in regions && r.offset <= o < r.offset + r.length
    ensures CbtAnswer(s, regions)
  {
    forall o | 0 <= o < |disk.stamp| && base < disk.stamp[o] <= delta
      ensures InRegions(regions, o)
    {
      var r :| r in regions && r.offset <= o < r.offset + r.length;
      assert InRegion(r, o);
    }
  }

  predicate PodCollectable(s: State) {
    && (s.vm.phase == Precopy || s.vm.phase == FinalSync)
    && s.vm.warm.Some?
    && s.vm.warm.value.deltaPod.Some?
    && s.vm.warm.value.deltaPod.value in s.w.pods
    && s.w.pods[s.vm.warm.value.deltaPod.value].phase == PodSucceeded
  }

  predicate LifeEnabled(s: State, l: LifeStep) {
    match l
    case Begin => s.vm.phase == Pending
    case Cancel => !IsTerminal(s.vm.phase)
    case Advance => Done(s)
    case Fail => CanFail(s)
  }

  predicate PipelineEnabled(s: State, p: PipelineStep) {
    match p
    case StorePower => s.vm.phase == StorePowerState && s.vm.original == Unset && s.log.observed.None?
    case CommandPowerOff => s.vm.phase == PowerOff && s.vm.original != Off && s.log.commands == []
    case SeeOff => s.vm.phase == WaitForPowerOff && s.w.power == Off
    case TakeSnapshot => (s.vm.phase == CreateSnapshot || s.vm.phase == BulkCopy) && s.vm.snapshot.None?
    case ExportDisk =>
      && (s.vm.phase == ExportDisks || s.vm.phase == BulkCopy) && s.vm.snapshot.Some?
      && |s.vm.images| < |s.w.disks|
    case CreateDataVolume =>
      && (s.vm.phase == ImportDisks || s.vm.phase == BulkCopy)
      && |s.vm.images| >= |s.w.disks| && s.vm.dvNames < |s.vm.images|
    case InitWarm =>
      && s.vm.phase == BulkCopy && s.vm.snapshot.Some?
      && |s.vm.images| >= |s.w.disks| && s.vm.dvNames >= |s.vm.images|
      && s.vm.warm.None?
    case CreateTarget => s.vm.phase == CreateVM && s.w.target == NoTarget
    case StartTarget => s.vm.phase == StartVM && s.cfg.startTarget && s.w.target == Halted
    case CleanUp => s.vm.phase == Cleanup && !s.log.cleaned
  }

  predicate DeltaEnabled(s: State, d: DeltaStep) {
    match d
    case TakeDeltaSnapshot =>
      && DeltaPhase(s) && s.vm.warm.value.deltaSnap.None?
      && (s.vm.phase == Precopy ==> s.vm.warm.value.rounds < s.cfg.maxRounds && IntervalElapsed(s))
    case ExportDeltaDisk =>
      && DeltaPhase(s) && s.vm.warm.value.deltaSnap.Some?
      && |s.vm.warm.value.deltaImages| < |s.w.disks|
    case SyncDisk(regions) => CbtAnswer(s, regions)
    case SyncDiskFail(regions) => CbtAnswer(s, regions)
    case CollectPod => PodCollectable(s)
    case CollectPodFail => PodCollectable(s)
    case FinishRound => s.vm.phase == Precopy && RoundExported(s) && s.vm.warm.value.diskIdx >= |s.w.disks|
    case FinishFinal => s.vm.phase == FinalSync && RoundExported(s) && s.vm.warm.value.diskIdx >= |s.w.disks|
    case ReadPod(seen) =>
      && s.vm.phase == Precopy && s.vm.warm.Some? && s.vm.warm.value.deltaPod.Some?
      && SeenFits(s.w, s.vm.warm.value.deltaPod.value, seen)
  }

  function SetPhase(s: State, p: Phase): State {
    s.(vm := s.vm.(phase := p), log := s.log.(history := s.log.history + [p]))
  }

  function Elements(ids: seq<Id>): set<Id> {
    set id | id in ids
  }

  function Singleton(id: Option<Id>): set<Id> {
    if id.Some? then {id.value} else {}
  }

  /** Everything the status still names. */
  function HeldSnaps(vm: VmStatus): set<Id> {
    Singleton(vm.snapshot)
    + (if vm.warm.Some? then Singleton(vm.warm.value.baseSnap) + Singleton(vm.warm.value.deltaSnap) else {})
  }

  function HeldImages(vm: VmStatus): set<Id> {
    Elements(vm.images)
    + (if vm.warm.Some? then Elements(vm.warm.value.baseImages) + Elements(vm.warm.value.deltaImages) else {})
  }

  function WithWarm(s: State, warm: WarmStatus): State {
    s.(vm := s.vm.(warm := Some(warm)))
  }

  /** The new snapshot's id is the old nextId; later writes carry a later time. */
  function WithSnapshot(w: World): World {
    w.(snaps := w.snaps[w.nextId := w.clock], nextId := w.nextId + 1, clock := w.clock + 1)
  }

  /** An image is cut from the live disk, not from a snapshot. */
  function WithImage(w: World, disk: nat): World
    requires disk < |w.disks|
  {
    w.(images := w.images[w.nextId := ImageData(disk, w.disks[disk].live)], nextId := w.nextId + 1)
  }

  /** Best-effort cleanup of a failing VM, then the Failed phase. */
  function FailWith(s: State): State {
    var log := s.log;
    var pods :=
      if s.vm.warm.Some? && s.vm.warm.value.deltaPod.Some? && s.vm.warm.value.deltaPod.value in s.w.pods
      then s.w.pods[s.vm.warm.value.deltaPod.value :=
                    s.w.pods[s.vm.warm.value.deltaPod.value].(phase := PodDeleted)]
      else s.w.pods;
    s.(vm := s.vm.(phase := Failed),
       w := s.w.(pods := pods),
       log := log.(history := log.history + [Failed],
                   deletedSnaps := log.deletedSnaps + HeldSnaps(s.vm),
                   deletedImages := log.deletedImages + HeldImages(s.vm),
                   deletedDvs := s.vm.dvNames,
                   commands := if s.vm.original == On then log.commands + [PowerOnCommand(s.w.clock)]
                               else log.commands,
                   failedIn := Some(s.vm.phase)))
  }

  function CurrentLabel(s: State): RoundLabel
    requires s.vm.warm.Some?
  {
    if s.vm.phase == Precopy then PrecopyLabel(s.vm.warm.value.rounds + 1) else FinalLabel
  }

  /** The bytes of one changed-region answer, counted once. */
  function CountFetch(s: State, regions: seq<Region>): State
    requires s.vm.warm.Some?
  {
    var warm := s.vm.warm.value;
    WithWarm(s, warm.(deltaBytes := warm.deltaBytes + TotalLength(regions)))
    .(log := s.log.(fetches := s.log.fetches + [Fetch(warm.rounds, warm.diskIdx, regions)]))
  }

  /** Skip a disk without changes; otherwise start (or adopt) the pod of this round and disk. */
  function LaunchOrSkip(s: State, regions: seq<Region>): State
    requires s.vm.warm.Some?
    requires s.vm.warm.value.diskIdx < |s.vm.warm.value.deltaImages|
  {
    var warm := s.vm.warm.value;
    if regions == [] then NextDisk(s)
    else
      var name := PodName(CurrentLabel(s), warm.diskIdx);
      var pods := if name in s.w.pods then s.w.pods
                  else s.w.pods[name := Pod(warm.diskIdx, warm.deltaImages[warm.diskIdx], regions, {}, PodActive)];
      WithWarm(s, warm.(deltaPod := Some(name))).(w := s.w.(pods := pods))
  }

  /** Request deletion of the collected pod and forget its name. */
  function DropPod(s: State): State
    requires s.vm.warm.Some? && s.vm.warm.value.deltaPod.Some?
    requires s.vm.warm.value.deltaPod.value in s.w.pods
  {
    var warm := s.vm.warm.value;
    var name := warm.deltaPod.value;
    WithWarm(s, warm.(deltaPod := None))
    .(w := s.w.(pods := s.w.pods[name := s.w.pods[name].(phase := PodDeleted)]))
  }

  function NextDisk(s: State): State
    requires s.vm.warm.Some?
  {
    WithWarm(s, s.vm.warm.value.(diskIdx := s.vm.warm.value.diskIdx + 1))
  }

  /** Delete the old base, promote the delta to base, and count the round. */
  function PromoteDelta(s: State): State
    requires s.vm.warm.Some?
  {
    var warm := s.vm.warm.value;
    WithWarm(s, warm.(
      baseSnap := warm.deltaSnap, baseImages := warm.deltaImages,
      rounds := warm.rounds + 1,
      cumulativeBytes := warm.cumulativeBytes + warm.deltaBytes, lastDeltaBytes := warm.deltaBytes,
      lastTime := Some(s.w.clock),
      deltaSnap := None, deltaImages := [], deltaPod := None, diskIdx := 0, deltaBytes := 0))
    .(log := s.log.(
      deletedSnaps := s.log.deletedSnaps + Singleton(warm.baseSnap),
      deletedImages := s.log.deletedImages + Elements(warm.baseImages),
      roundTimes := s.log.roundTimes + [s.w.clock]))
  }

  /** Delete base and delta resources and count the final round. */
  function FinishFinalSync(s: State): State
    requires s.vm.warm.Some?
  {
    var warm := s.vm.warm.value;
    WithWarm(s, warm.(
      cumulativeBytes := warm.cumulativeBytes + warm.deltaBytes, lastDeltaBytes := warm.deltaBytes,
      deltaSnap := None, deltaImages := [], diskIdx := 0, deltaBytes := 0))
    .(log := s.log.(
      deletedSnaps := s.log.deletedSnaps + Singleton(warm.baseSnap) + Singleton(warm.deltaSnap),
      deletedImages := s.log.deletedImages + Elements(warm.baseImages) + Elements(warm.deltaImages),
      finalDone := true,
      syncTime := if warm.deltaSnap.Some? && warm.deltaSnap.value in s.w.snaps
                  then s.w.snaps[warm.deltaSnap.value] else 0))
  }

  function AdvancePhase(s: State): State {
    var s' := SetPhase(s, Successor(s.vm.phase, s.cfg.warm));
    if s.vm.phase == Precopy && s.vm.warm.Some? then
      s'.(log := s'.log.(leftPrecopyAt := s.w.cutover, midRound := s.vm.warm.value.deltaSnap.Some?,
                         leftPod := s.vm.warm.value.deltaPod))
    else s'
  }

  function LifeApply(s: State, l: LifeStep): State {
    match l
    case Begin => SetPhase(s, PreHook)
    case Cancel => SetPhase(s, Cancelled)
    case Advance => AdvancePhase(s)
    case Fail => FailWith(s)
  }

  function PipelineApply(s: State, p: PipelineStep): State
    requires PipelineEnabled(s, p)
  {
    match p
    case StorePower =>
      s.(vm := s.vm.(original := s.w.power), log := s.log.(observed := Some(s.w.power)))
    case CommandPowerOff =>
      s.(log := s.log.(commands := s.log.commands + [PowerOffCommand(s.w.clock)]))
    case SeeOff => s.(log := s.log.(offSeen := true))
    case TakeSnapshot => s.(vm := s.vm.(snapshot := Some(s.w.nextId)), w := WithSnapshot(s.w))
    case ExportDisk =>
      s.(vm := s.vm.(images := s.vm.images + [s.w.nextId]), w := WithImage(s.w, |s.vm.images|))
    case CreateDataVolume =>
      s.(vm := s.vm.(dvNames := s.vm.dvNames + 1),
         w := s.w.(dvs := s.w.dvs + [DataVolume(s.vm.images[s.vm.dvNames], DvRunning, [])]))
    case InitWarm =>
      WithWarm(s, EMPTY_WARM.(baseSnap := s.vm.snapshot, baseImages := s.vm.images))
    case CreateTarget => s.(w := s.w.(target := Halted))
    case StartTarget => s.(w := s.w.(target := Started))
    case CleanUp =>
      s.(log := s.log.(cleaned := true,
                       deletedSnaps := s.log.deletedSnaps + Singleton(s.vm.snapshot),
                       deletedImages := s.log.deletedImages + Elements(s.vm.images)))
  }

  function DeltaApply(s: State, d: DeltaStep): State
    requires DeltaEnabled(s, d)
  {
    match d
    case TakeDeltaSnapshot =>
      WithWarm(s, s.vm.warm.value.(deltaSnap := Some(s.w.nextId))).(w := WithSnapshot(s.w))
    case ExportDeltaDisk =>
      var warm := s.vm.warm.value;
      WithWarm(s, warm.(deltaImages := warm.deltaImages + [s.w.nextId])).(w := WithImage(s.w, |warm.deltaImages|))
    case SyncDisk(regions) => LaunchOrSkip(CountFetch(s, regions), regions)
    case SyncDiskFail(regions) => FailWith(CountFetch(s, regions))
    case CollectPod => NextDisk(DropPod(s))
    case CollectPodFail => FailWith(DropPod(s))
    case FinishRound => PromoteDelta(s)
    case FinishFinal => FinishFinalSync(s)
    case ReadPod(seen) => s.(log := s.log.(podRead := Some(PodRead(s.vm.warm.value.deltaPod.value, seen))))
  }

  // ----- Runs -----

  predicate Enabled(s: State, a: Step) {
    match a
    case Life(l) => LifeEnabled(s, l)
    case Pipeline(p) => PipelineEnabled(s, p)
    case Delta(d) => DeltaEnabled(s, d)
    case Env(e) => EnvEnabled(s, e)
  }

  function Apply(s: State, a: Step): State
    requires Enabled(s, a)
  {
    match a
    case Life(l) => LifeApply(s, l)
    case Pipeline(p) => PipelineApply(s, p)
    case Delta(d) => DeltaApply(s, d)
    case Env(e) => s.(w := EnvApply(s, e))
  }

  /** The steps, each enabled where it is taken, lead from s to t. */
  ghost predicate Run(s: State, steps: seq<Step>, t: State)
    decreases |steps|, 1
  {
    if steps == [] then s == t else RunOn(s, steps, t)
  }

  /** The first step, then the others. */
  ghost predicate RunOn(s: State, steps: seq<Step>, t: State)
    requires steps != []
    decreases |steps|, 0
  {
    Enabled(s, steps[0]) && Run(Apply(s, steps[0]), steps[1..], t)
  }

  ghost predicate Reaches(s: State, t: State) {
    exists steps :: Run(s, steps, t)
  }

  ghost predicate Reachable(t: State) {
    exists s :: Init(s) && Reaches(s, t)
  }

  lemma ReachesSelf(s: State)
    ensures Reaches(s, s)
  {
    assert Run(s, [], s);
  }

  lemma {:induction false} RunAppend(s: State, xs: seq<Step>, t: State, ys: seq<Step>, u: State)
    requires Run(s, xs, t) && Run(t, ys, u)
    ensures Run(s, xs + ys, u)
    decreases |xs|
  {
    if xs == [] {
      assert xs + ys == ys;
    } else {
      assert RunOn(s, xs, t);
      assert (xs + ys)[0] == xs[0];
      assert (xs + ys)[1..] == xs[1..] + ys;
      RunAppend(Apply(s, xs[0]), xs[1..], t, ys, u);
      assert RunOn(s, xs + ys, u);
    }
  }

  lemma ReachesTrans(s: State, t: State, u: State)
    requires Reaches(s, t) && Reaches(t, u)
    ensures Reaches(s, u)
  {
    var xs :| Run(s, xs, t);
    var ys :| Run(t, ys, u);
    RunAppend(s, xs, t, ys, u);
  }

  lemma ReachesStep(s: State, t: State, a: Step)
    requires Reaches(s, t) && Enabled(t, a)
    ensures Reaches(s, Apply(t, a))
  {
    var u := Apply(t, a);
    assert Run(u, [], u);
    assert [a][1..] == [];
    assert RunOn(t, [a], u);
    assert Run(t, [a], u);
    ReachesTrans(s, t, u);
  }

  lemma ReachableOnward(s: State, t: State)
    requires Reachable(s) && Reaches(s, t)
    ensures Reachable(t)
  {
    var i :| Init(i) && Reaches(i, s);
    ReachesTrans(i, s, t);
  }

  lemma StepOn(s: State, a: Step) returns (u: State)
    requires Reachable(s) && Enabled(s, a)
    ensures u == Apply(s, a) && Reaches(s, u) && Reachable(u)
  {
    ReachesSelf(s);
    ReachesStep(s, s, a);
    u := Apply(s, a);
    ReachableOnward(s, u);
  }
}
