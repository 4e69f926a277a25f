/**
 What every step keeps about the shape of a VM's status: the phase belongs to
 the order in use, ids are known and fresh, and the status fields are as full
 as the phase says. The other invariants build on this one.
 */
module Structure {
  import opened Wrappers
  import opened Phases
  import opened Disks
  import opened Machine

  /** Neither failed nor cancelled. */
  predicate OnTrack(s: State) {
    s.vm.phase != Failed && s.vm.phase != Cancelled
  }

  ghost predicate WorldOk(w: World) {
    && (forall d :: 0 <= d < |w.disks| ==> WellFormed(w.disks[d]) && QuietSince(w.disks[d], w.clock))
    && (forall id :: id in w.snaps ==> id < w.nextId && w.snaps[id] < w.clock)
    && (forall id :: id in w.images ==> id < w.nextId)
  }

  predicate PhaseFits(p: Phase, warm: bool) {
    if warm then p != CreateSnapshot && p != ExportDisks && p != ImportDisks
    else p != BulkCopy && p != WaitBulkCopy && p != Precopy && p != FinalSync
  }

  /** The first export of every disk and its import. */
  ghost predicate BulkOk(s: State) {
    var vm, n := s.vm, |s.w.disks|;
    && (vm.snapshot.Some? ==> vm.snapshot.value in s.w.snaps)
    && (vm.images != [] ==> vm.snapshot.Some?)
    && |vm.images| <= n
    && vm.dvNames == |s.w.dvs| <= |vm.images|
    && (s.w.dvs != [] ==> |vm.images| == n)
    && (!s.cfg.warm && Rank(vm.phase) >= Rank(ExportDisks) ==> vm.snapshot.Some?)
    && (!s.cfg.warm && Rank(vm.phase) >= Rank(ImportDisks) ==> |vm.images| == n)
    && (!s.cfg.warm && Rank(vm.phase) >= Rank(CreateVM) ==> |s.w.dvs| == n && AllDvsSucceeded(s))
    && (s.cfg.warm && Rank(vm.phase) >= Rank(WaitBulkCopy) ==> vm.warm.Some?)
    && (s.cfg.warm && Rank(vm.phase) >= Rank(Precopy) ==> AllDvsSucceeded(s))
    && (vm.warm.Some? ==> s.cfg.warm && Rank(vm.phase) >= Rank(BulkCopy))
    && (vm.warm.Some? ==> vm.snapshot.Some? && |vm.images| == |s.w.dvs| == n)
  }

  /** The delta round in progress, if any. */
  ghost predicate RoundOk(s: State) {
    s.vm.warm.Some? ==>
      var warm, n, r := s.vm.warm.value, |s.w.disks|, Rank(s.vm.phase);
      && warm.baseSnap.Some? && warm.baseSnap.value in s.w.snaps
      && (warm.deltaSnap.Some? ==>
            && warm.deltaSnap.value in s.w.snaps
            && s.w.snaps[warm.baseSnap.value] < s.w.snaps[warm.deltaSnap.value]
            && Rank(Precopy) <= r <= Rank(FinalSync) && !s.log.finalDone)
      && |warm.deltaImages| <= n && warm.diskIdx <= n
      && (warm.deltaImages != [] ==> warm.deltaSnap.Some?)
      && (warm.diskIdx > 0 || warm.deltaPod.Some? ==> warm.deltaSnap.Some? && |warm.deltaImages| == n)
      && (warm.deltaPod.Some? ==> warm.diskIdx < n)
      && (r < Rank(Precopy) ==> warm.baseSnap == s.vm.snapshot)
      && (s.log.finalDone ==> r >= Rank(FinalSync))
      && (r >= Rank(CreateVM) ==> s.log.finalDone)
  }

  /** What the log says about the power of the source and about the target. */
  ghost predicate PowerOk(s: State) {
    && (s.log.observed.Some? ==> s.vm.original == s.log.observed.value)
    && (s.log.observed.None? ==> s.vm.original == Unset && s.log.commands == [])
    && (Rank(s.vm.phase) > Rank(StorePowerState) && OnTrack(s) ==> s.log.observed.Some?)
    && (Rank(s.vm.phase) < Rank(StorePowerState) ==> s.log.observed.None?)
    && (Rank(s.vm.phase) < Rank(WaitForPowerOff) ==> !s.log.offSeen)
    && (Rank(s.vm.phase) > Rank(WaitForPowerOff) && OnTrack(s) ==> s.log.offSeen)
    && (s.w.target != NoTarget ==> s.log.offSeen)
    && (OnTrack(s) && s.w.target != NoTarget ==> Rank(s.vm.phase) >= Rank(CreateVM))
    && (OnTrack(s) && Rank(s.vm.phase) > Rank(CreateVM) ==> s.w.target != NoTarget)
  }

  ghost predicate StructureOk(s: State) {
    && WorldOk(s.w)
    && PhaseFits(s.vm.phase, s.cfg.warm)
    && (OnTrack(s) ==> BulkOk(s) && RoundOk(s))
    && (s.vm.warm.None? && OnTrack(s) ==> !s.log.finalDone)
    && PowerOk(s)
  }

  lemma InitStructure(s: State)
    requires Init(s)
    ensures StructureOk(s)
  {
  }

  // ----- Environment steps -----

  lemma EnvKeepsWorld(s: State, e: EnvStep)
    requires WorldOk(s.w) && EnvEnabled(s, e)
    ensures WorldOk(EnvApply(s, e))
  {
    var w' := EnvApply(s, e);
    match e
    case GuestWrite(d, o, b) =>
      assert QuietSince(Write(s.w.disks[d], o, b, s.w.clock), s.w.clock);
    case Tick(d) =>
      forall k | 0 <= k < |s.w.disks|
        ensures QuietSince(s.w.disks[k], w'.clock)
      {
        assert QuietSince(s.w.disks[k], s.w.clock);
      }
    case _ =>
  }

  lemma EnvKeepsBulk(s: State, e: EnvStep)
    requires BulkOk(s) && EnvEnabled(s, e)
    ensures BulkOk(s.(w := EnvApply(s, e)))
  {
  }

  lemma EnvKeepsRound(s: State, e: EnvStep)
    requires RoundOk(s) && EnvEnabled(s, e)
    ensures RoundOk(s.(w := EnvApply(s, e)))
  {
  }

  lemma EnvKeepsStructure(s: State, e: EnvStep)
    requires StructureOk(s) && EnvEnabled(s, e)
    ensures StructureOk(s.(w := EnvApply(s, e)))
  {
    EnvKeepsWorld(s, e);
    if OnTrack(s) {
      EnvKeepsBulk(s, e);
      EnvKeepsRound(s, e);
    }
    EnvKeepsPowerOk(s, e);
  }

  lemma EnvKeepsPowerOk(s: State, e: EnvStep)
    requires PowerOk(s) && EnvEnabled(s, e)
    ensures PowerOk(s.(w := EnvApply(s, e)))
  {
  }

  // ----- Moves between phases -----

  /** Completing a phase leads further along the order. */
  lemma DoneClimbs(s: State)
    requires PhaseFits(s.vm.phase, s.cfg.warm) && Done(s)
    ensures Rank(Successor(s.vm.phase, s.cfg.warm)) > Rank(s.vm.phase)
    ensures OnTrack(s) && OnTrack(AdvancePhase(s))
  {
  }

  lemma AdvanceKeepsBulk(s: State)
    requires BulkOk(s) && RoundOk(s) && PhaseFits(s.vm.phase, s.cfg.warm) && Done(s)
    ensures BulkOk(AdvancePhase(s)) && PhaseFits(AdvancePhase(s).vm.phase, s.cfg.warm)
  {
    if s.cfg.warm {
      WarmAdvanceKeepsBulk(s);
    } else {
      ColdAdvanceKeepsBulk(s);
    }
  }

  lemma ColdAdvanceKeepsBulk(s: State)
    requires !s.cfg.warm && BulkOk(s) && PhaseFits(s.vm.phase, false) && Done(s)
    ensures BulkOk(AdvancePhase(s)) && PhaseFits(AdvancePhase(s).vm.phase, false)
  {
  }

  lemma WarmAdvanceKeepsBulk(s: State)
    requires s.cfg.warm && BulkOk(s) && PhaseFits(s.vm.phase, true) && Done(s)
    ensures BulkOk(AdvancePhase(s)) && PhaseFits(AdvancePhase(s).vm.phase, true)
  {
  }

  lemma AdvanceKeepsRound(s: State)
    requires BulkOk(s) && RoundOk(s) && PhaseFits(s.vm.phase, s.cfg.warm) && Done(s)
    ensures RoundOk(AdvancePhase(s))
  {
  }

  lemma AdvanceKeepsPower(s: State)
    requires PowerOk(s) && Done(s)
    ensures PowerOk(AdvancePhase(s))
  {
  }

  lemma AdvanceKeepsStructure(s: State)
    requires StructureOk(s) && Done(s)
    ensures StructureOk(AdvancePhase(s))
  {
    AdvanceKeepsBulk(s);
    AdvanceKeepsRound(s);
    AdvanceKeepsPower(s);
  }

  lemma LifeKeepsStructure(s: State, l: LifeStep)
    requires StructureOk(s) && LifeEnabled(s, l)
    ensures StructureOk(LifeApply(s, l))
  {
    match l
    case Begin => BeginKeepsStructure(s);
    case Cancel => CancelKeepsStructure(s);
    case Advance => AdvanceKeepsStructure(s);
    case Fail => FailKeepsStructure(s);
  }

  lemma BeginKeepsStructure(s: State)
    requires StructureOk(s) && s.vm.phase == Pending
    ensures StructureOk(SetPhase(s, PreHook))
  {
  }

  lemma CancelKeepsStructure(s: State)
    requires StructureOk(s) && !IsTerminal(s.vm.phase)
    ensures StructureOk(SetPhase(s, Cancelled))
  {
    CancelKeepsPower(s);
  }

  lemma CancelKeepsPower(s: State)
    requires PowerOk(s) && !IsTerminal(s.vm.phase)
    ensures PowerOk(SetPhase(s, Cancelled))
  {
  }

  /** Failing needs less than the full invariant: the status fields are given up. */
  lemma FailKeepsStructure(s: State)
    requires WorldOk(s.w) && PowerOk(s) && IsActive(s.vm.phase)
    ensures StructureOk(FailWith(s))
  {
  }

  // ----- The pipeline -----

  lemma SnapshotKeepsWorld(w: World)
    requires WorldOk(w)
    ensures WorldOk(WithSnapshot(w))
  {
    forall k | 0 <= k < |w.disks|
      ensures QuietSince(w.disks[k], w.clock + 1)
    {
      assert QuietSince(w.disks[k], w.clock);
    }
  }

  lemma PipelineKeepsWorld(s: State, p: PipelineStep)
    requires WorldOk(s.w) && PipelineEnabled(s, p)
    ensures WorldOk(PipelineApply(s, p).w)
  {
    if p.TakeSnapshot? {
      SnapshotKeepsWorld(s.w);
    }
  }

  lemma PipelineKeepsBulk(s: State, p: PipelineStep)
    requires WorldOk(s.w) && PhaseFits(s.vm.phase, s.cfg.warm) && BulkOk(s) && PipelineEnabled(s, p)
    ensures BulkOk(PipelineApply(s, p))
  {
  }

  lemma PipelineKeepsRound(s: State, p: PipelineStep)
    requires WorldOk(s.w) && BulkOk(s) && RoundOk(s) && PipelineEnabled(s, p)
    requires s.vm.warm.None? ==> !s.log.finalDone
    ensures RoundOk(PipelineApply(s, p))
  {
  }

  lemma PipelineKeepsPowerOk(s: State, p: PipelineStep)
    requires PowerOk(s) && PipelineEnabled(s, p)
    ensures PowerOk(PipelineApply(s, p))
  {
  }

  lemma PipelineKeepsPhase(s: State, p: PipelineStep)
    requires PipelineEnabled(s, p)
    ensures OnTrack(s) && PipelineApply(s, p).cfg == s.cfg
    ensures PipelineApply(s, p).vm.phase == s.vm.phase && PipelineApply(s, p).log.finalDone == s.log.finalDone
    ensures s.vm.warm.Some? || !p.InitWarm? ==> PipelineApply(s, p).vm.warm == s.vm.warm
  {
  }

  lemma PipelineKeepsStructure(s: State, p: PipelineStep)
    requires StructureOk(s) && PipelineEnabled(s, p)
    ensures StructureOk(PipelineApply(s, p))
  {
    PipelineKeepsPhase(s, p);
    PipelineKeepsWorld(s, p);
    PipelineKeepsBulk(s, p);
    PipelineKeepsRound(s, p);
    PipelineKeepsPowerOk(s, p);
  }

  // ----- Delta rounds -----

  lemma LaunchKeepsStructure(s: State, regions: seq<Region>)
    requires StructureOk(s) && CbtAnswer(s, regions)
    ensures StructureOk(LaunchOrSkip(CountFetch(s, regions), regions))
  {
    LaunchKeepsRound(s, regions);
  }

  lemma LaunchKeepsRound(s: State, regions: seq<Region>)
    requires RoundOk(s) && CbtAnswer(s, regions)
    ensures RoundOk(LaunchOrSkip(CountFetch(s, regions), regions))
  {
  }

  lemma CollectKeepsStructure(s: State)
    requires StructureOk(s) && PodCollectable(s)
    ensures StructureOk(NextDisk(DropPod(s)))
  {
  }

  lemma DeltaSnapshotKeepsStructure(s: State)
    requires StructureOk(s) && DeltaEnabled(s, TakeDeltaSnapshot)
    ensures StructureOk(DeltaApply(s, TakeDeltaSnapshot))
  {
    SnapshotKeepsWorld(s.w);
  }

  lemma DeltaExportKeepsStructure(s: State)
    requires StructureOk(s) && DeltaEnabled(s, ExportDeltaDisk)
    ensures StructureOk(DeltaApply(s, ExportDeltaDisk))
  {
  }

  lemma FinishKeepsStructure(s: State)
    requires StructureOk(s) && RoundExported(s)
    ensures s.vm.phase == Precopy ==> StructureOk(PromoteDelta(s))
    ensures s.vm.phase == FinalSync ==> StructureOk(FinishFinalSync(s))
  {
  }

  lemma DeltaKeepsStructure(s: State, d: DeltaStep)
    requires StructureOk(s) && DeltaEnabled(s, d)
    ensures StructureOk(DeltaApply(s, d))
  {
    match d
    case TakeDeltaSnapshot => DeltaSnapshotKeepsStructure(s);
    case ExportDeltaDisk => DeltaExportKeepsStructure(s);
    case SyncDisk(regions) => LaunchKeepsStructure(s, regions);
    case CollectPod => CollectKeepsStructure(s);
    case SyncDiskFail(regions) => FailKeepsStructure(CountFetch(s, regions));
    case CollectPodFail => FailKeepsStructure(DropPod(s));
    case FinishRound => FinishKeepsStructure(s);
    case FinishFinal => FinishKeepsStructure(s);
    case ReadPod(_) => ReadKeepsStructure(s, d);
  }

  lemma ReadKeepsStructure(s: State, d: DeltaStep)
    requires StructureOk(s) && DeltaEnabled(s, d) && d.ReadPod?
    ensures StructureOk(DeltaApply(s, d))
  {
  }

  lemma StepKeepsStructure(s: State, a: Step)
    requires StructureOk(s) && Enabled(s, a)
    ensures StructureOk(Apply(s, a))
  {
    match a
    case Life(l) => LifeKeepsStructure(s, l);
    case Pipeline(p) => PipelineKeepsStructure(s, p);
    case Delta(d) => DeltaKeepsStructure(s, d);
    case Env(e) => EnvKeepsStructure(s, e);
  }
}
