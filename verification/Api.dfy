/**
 What the APIs answer to one execution of a phase handler, and the result the
 handler must give: for every entry state, every answer and every read value.
 */
module Api {
  import opened Wrappers
  import opened Phases
  import opened Disks
  import opened Machine

  datatype PhaseResult = Finished | Waiting | Errored

  /** The calls a handler may make. Creating something that exists already is a Good answer. */
  datatype Call =
    | GetPower | SendPowerOff | CreateRecoveryPoint | GetVm | CreateImage(disk: nat)
    | CreateSecrets | CreateVolume(disk: nat) | GetVolume(disk: nat)
    | CreateTargetVm | StartTargetVm
    | GetPod | DiscoverCluster | GetRegions | CreateConfigMap | CreatePod

  datatype Answer = Good | NotFound | Broken

  datatype HookAnswer = HookRunning | HookSucceeded | HookFailed

  /** One execution's answers; the changed regions and how they are cut into pages are part of them. */
  datatype Answers = Answers(answer: Call -> Answer, hook: HookAnswer, regions: seq<Region>, ends: int -> int)

  /** The call is answered with an error. */
  predicate Breaks(api: Answers, c: Call) {
    api.answer(c) != Good
  }

  ghost predicate SomeExportBreaks(api: Answers, from: nat, to: nat) {
    exists i: nat :: from <= i < to && Breaks(api, CreateImage(i))
  }

  ghost predicate SomeVolumeBreaks(api: Answers, from: nat, to: nat) {
    exists i: nat :: from <= i < to && Breaks(api, CreateVolume(i))
  }

  /** What reading the pod tells: nothing, if the read breaks or the pod is gone. */
  function SeenOf(api: Answers, w: World, name: PodName): SeenPod {
    if Breaks(api, GetPod) || name !in w.pods then SeenUnknown
    else match w.pods[name].phase
      case PodActive => SeenActive
      case PodSucceeded => SeenSucceeded
      case PodFailed => SeenFailed
      case PodDeleted => SeenUnknown
  }

  /** The pod exists, is in phase p, and reading it does not break. */
  predicate ReadsAs(api: Answers, w: World, name: PodName, p: PodPhase) {
    api.answer(GetPod) == Good && name in w.pods && w.pods[name].phase == p
  }

  /** A read that does not break tells the phase of a pod that is there. */
  lemma SeenIsFaithful(api: Answers, w: World, name: PodName)
    ensures SeenOf(api, w, name) == SeenActive <==> ReadsAs(api, w, name, PodActive)
    ensures SeenOf(api, w, name) == SeenSucceeded <==> ReadsAs(api, w, name, PodSucceeded)
    ensures SeenOf(api, w, name) == SeenFailed <==> ReadsAs(api, w, name, PodFailed)
    ensures SeenFits(w, name, SeenOf(api, w, name))
  {
  }

  // ----- Polling -----

  /** A DataVolume in phase p may later be in phase q. */
  predicate Later(p: DvPhase, q: DvPhase) {
    p == q || p == DvRunning
  }

  /** The phases read lie between those at the start and those at the end; a volume created meanwhile was running. */
  ghost predicate ReadBetween(before: seq<DataVolume>, seen: seq<DvPhase>, after: seq<DataVolume>) {
    && |before| <= |after| == |seen|
    && forall i :: 0 <= i < |seen| ==>
         Later(if i < |before| then before[i].phase else DvRunning, seen[i]) && Later(seen[i], after[i].phase)
  }

  /** A failed volume or a broken read is an error; a missing or running one means waiting. */
  ghost predicate PollResult(api: Answers, seen: seq<DvPhase>, r: PhaseResult) {
    && (r.Errored? <==> exists i :: 0 <= i < |seen| && BadRead(api, seen, i))
    && (r.Finished? <==> forall i :: 0 <= i < |seen| ==> GoodRead(api, seen, i))
  }

  predicate BadRead(api: Answers, seen: seq<DvPhase>, i: nat)
    requires i < |seen|
  {
    api.answer(GetVolume(i)) == Broken || (api.answer(GetVolume(i)) == Good && seen[i] == DvFailed)
  }

  predicate GoodRead(api: Answers, seen: seq<DvPhase>, i: nat)
    requires i < |seen|
  {
    api.answer(GetVolume(i)) == Good && seen[i] == DvSucceeded
  }

  // ----- Delta rounds -----

  /** Snapshot (if none is set), reading the VM, exports that are missing. */
  ghost predicate PrepareBreaks(s0: State, api: Answers)
    requires s0.vm.warm.Some?
  {
    var warm := s0.vm.warm.value;
    || (warm.deltaSnap.None? && Breaks(api, CreateRecoveryPoint))
    || Breaks(api, GetVm)
    || SomeExportBreaks(api, |warm.deltaImages|, |s0.w.disks|)
  }

  /** Collecting the named pod. */
  ghost predicate CollectResult(s0: State, api: Answers, s: State, r: PhaseResult)
    requires s0.vm.warm.Some? && s0.vm.warm.value.deltaPod.Some?
  {
    var warm := s0.vm.warm.value;
    if ReadsAs(api, s0.w, warm.deltaPod.value, PodFailed) then r.Errored?
    else if ReadsAs(api, s0.w, warm.deltaPod.value, PodSucceeded) then
      if Breaks(api, GetVm) then r.Errored?
      else r.Waiting? && s.vm.warm == Some(warm.(deltaPod := None, diskIdx := warm.diskIdx + 1))
    else r.Waiting? && s.vm == s0.vm
  }

  /** The round was closed: a precopy round is counted, the final one completes its phase. */
  ghost predicate RoundClosed(s0: State, s: State, r: PhaseResult)
    requires s0.vm.warm.Some?
  {
    && s.vm.warm.Some? && s.vm.warm.value.deltaSnap.None?
    && if s0.vm.phase == Precopy then r.Waiting? && s.vm.warm.value.rounds == s0.vm.warm.value.rounds + 1
       else r.Finished?
  }

  /** A round begun or continued; regions is the answer for the current disk. */
  ghost predicate RoundResult(s0: State, api: Answers, regions: seq<Region>, s: State, r: PhaseResult)
    requires s0.vm.warm.Some?
  {
    var warm := s0.vm.warm.value;
    if PrepareBreaks(s0, api) then r.Errored?
    else if warm.diskIdx >= |s0.w.disks| then RoundClosed(s0, s, r)
    else if Breaks(api, DiscoverCluster) || Breaks(api, GetRegions) then r.Errored?
    else RegionsResult(s0, api, regions, s, r)
  }

  /** No changed region: on to the next disk, or the round is closed. Otherwise a pod is started. */
  ghost predicate RegionsResult(s0: State, api: Answers, regions: seq<Region>, s: State, r: PhaseResult)
    requires s0.vm.warm.Some?
  {
    var warm := s0.vm.warm.value;
    if regions == [] && warm.diskIdx + 1 >= |s0.w.disks| then RoundClosed(s0, s, r)
    else if regions == [] then r.Waiting? && s.vm.warm.Some? && s.vm.warm.value.diskIdx == warm.diskIdx + 1
    else if Breaks(api, CreateConfigMap) || Breaks(api, CreatePod) then r.Errored?
    else r.Waiting? && s.vm.warm.Some? && s.vm.warm.value.deltaPod.Some?
  }

  ghost predicate PrecopyResult(s0: State, api: Answers, regions: seq<Region>, s: State, r: PhaseResult) {
    if s0.vm.warm.None? then r.Errored?
    else
      var warm := s0.vm.warm.value;
      if s0.w.cutover.Some? && s0.w.cutover.value < s0.w.clock then
        r == if warm.deltaPod.Some? && ReadsAs(api, s0.w, warm.deltaPod.value, PodActive) then Waiting else Finished
      else if warm.deltaPod.Some? then CollectResult(s0, api, s, r)
      else if warm.rounds >= s0.cfg.maxRounds then r.Waiting? && s.vm == s0.vm
      else if warm.lastTime.Some? && s0.w.clock - warm.lastTime.value < s0.cfg.interval then r.Waiting? && s.vm == s0.vm
      else RoundResult(s0, api, regions, s, r)
  }

  ghost predicate FinalSyncResult(s0: State, api: Answers, regions: seq<Region>, s: State, r: PhaseResult) {
    if s0.vm.warm.None? then r.Errored?
    else if s0.vm.warm.value.deltaPod.Some? then CollectResult(s0, api, s, r)
    else RoundResult(s0, api, regions, s, r)
  }

  // ----- All phases -----

  function OrError(breaks: bool): PhaseResult {
    if breaks then Errored else Finished
  }

  /** What the handler read besides the answers: phases of DataVolumes, changed regions. */
  datatype Reads = Reads(volumes: seq<DvPhase>, regions: seq<Region>)

  /** The result that a handler entered in s0 and left in s must give. */
  ghost predicate Responds(s0: State, api: Answers, got: Reads, s: State, r: PhaseResult) {
    match s0.vm.phase
    case PreHook => HookResult(api, r)
    case PostHook => HookResult(api, r)
    case StorePowerState => StorePowerResult(s0, api, s, r)
    case PowerOff => r == OrError(s0.vm.original != Off && Breaks(api, SendPowerOff))
    case WaitForPowerOff =>
      r == if Breaks(api, GetPower) then Errored else if s0.w.power == Off then Finished else Waiting
    case CreateSnapshot => r == OrError(s0.vm.snapshot.None? && Breaks(api, CreateRecoveryPoint))
    case ExportDisks => ExportResult(s0, api, r)
    case ImportDisks => ImportResult(s0, api, got, s, r)
    case BulkCopy => BulkResult(s0, api, r)
    case WaitBulkCopy => ReadBetween(s0.w.dvs, got.volumes, s.w.dvs) && PollResult(api, got.volumes, r)
    case CreateVM => r == OrError(Breaks(api, GetVm) || Breaks(api, CreateTargetVm))
    case StartVM => r == OrError(s0.cfg.startTarget && (Breaks(api, GetVm) || Breaks(api, StartTargetVm)))
    case Precopy => PrecopyResult(s0, api, got.regions, s, r)
    case FinalSync => FinalSyncResult(s0, api, got.regions, s, r)
    case Cleanup => r.Finished?
    case _ => true
  }

  predicate HookResult(api: Answers, r: PhaseResult) {
    match api.hook
    case HookRunning => r.Waiting?
    case HookSucceeded => r.Finished?
    case HookFailed => r.Errored?
  }

  /** The state recorded is the one read. */
  predicate StorePowerResult(s0: State, api: Answers, s: State, r: PhaseResult) {
    if s0.vm.original != Unset then r.Finished? && s.vm.original == s0.vm.original
    else if Breaks(api, GetPower) then r.Errored?
    else r.Finished? && s.vm.original == s0.w.power
  }

  ghost predicate ExportResult(s0: State, api: Answers, r: PhaseResult) {
    r == OrError(Breaks(api, GetVm) || SomeExportBreaks(api, |s0.vm.images|, |s0.w.disks|))
  }

  /** Creating what is missing, then polling. */
  ghost predicate ImportResult(s0: State, api: Answers, got: Reads, s: State, r: PhaseResult) {
    if Breaks(api, GetVm) || Breaks(api, CreateSecrets) || SomeVolumeBreaks(api, s0.vm.dvNames, |s0.vm.images|)
    then r.Errored?
    else ReadBetween(s0.w.dvs, got.volumes, s.w.dvs) && PollResult(api, got.volumes, r)
  }

  ghost predicate BulkBreaks(s0: State, api: Answers) {
    || (s0.vm.snapshot.None? && Breaks(api, CreateRecoveryPoint))
    || Breaks(api, GetVm) || SomeExportBreaks(api, |s0.vm.images|, |s0.w.disks|)
    || Breaks(api, CreateSecrets)
    || SomeVolumeBreaks(api, s0.vm.dvNames,
                        if |s0.vm.images| < |s0.w.disks| then |s0.w.disks| else |s0.vm.images|)
  }

  ghost predicate BulkResult(s0: State, api: Answers, r: PhaseResult) {
    r == OrError(BulkBreaks(s0, api))
  }
}
