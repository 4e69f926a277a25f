/**
 How Precopy is left. At a cutover the delta pod that the status names is read,
 and an active one is waited for: only a read that failed can let the VM go on
 under a running pod.
 */
module Departure {
  import opened Wrappers
  import opened Phases
  import opened Machine
  import opened Structure

  /** What was read as ended has ended. */
  ghost predicate ReadOk(s: State) {
    s.log.podRead.Some? ==>
      var read := s.log.podRead.value;
      && (read.seen == SeenSucceeded || read.seen == SeenFailed ==>
            read.name in s.w.pods && s.w.pods[read.name].phase != PodActive)
  }

  /** The pod named when Precopy was left is the one read last, and it was not read as active. */
  ghost predicate LeftOk(s: State) {
    && (s.log.leftPod.Some? ==>
          && Rank(s.vm.phase) > Rank(Precopy)
          && s.log.podRead.Some? && s.log.podRead.value.name == s.log.leftPod.value
          && s.log.podRead.value.seen != SeenActive)
    && (s.cfg.warm && OnTrack(s) && Rank(Precopy) < Rank(s.vm.phase) < Rank(FinalSync) && s.vm.warm.Some? ==>
          s.log.leftPod == s.vm.warm.value.deltaPod)
  }

  ghost predicate DepartureOk(s: State) {
    ReadOk(s) && LeftOk(s)
  }

  lemma InitDeparture(s: State)
    requires Init(s)
    ensures DepartureOk(s)
  {
  }

  lemma AdvanceKeepsLeft(s: State)
    requires StructureOk(s) && LeftOk(s) && Done(s)
    ensures LeftOk(AdvancePhase(s))
  {
    DoneClimbs(s);
  }

  lemma LifeKeepsDeparture(s: State, l: LifeStep)
    requires StructureOk(s) && DepartureOk(s) && LifeEnabled(s, l)
    ensures DepartureOk(LifeApply(s, l))
  {
    match l
    case Advance => AdvanceKeepsLeft(s);
    case Fail => FailKeepsDeparture(s);
    case _ =>
  }

  lemma FailKeepsDeparture(s: State)
    requires DepartureOk(s) && IsActive(s.vm.phase)
    ensures DepartureOk(FailWith(s))
  {
  }

  lemma PipelineKeepsDeparture(s: State, p: PipelineStep)
    requires StructureOk(s) && DepartureOk(s) && PipelineEnabled(s, p)
    ensures DepartureOk(PipelineApply(s, p))
  {
    PipelineReadsNoPod(s, p);
    PipelineKeepsPhase(s, p);
  }

  lemma PipelineReadsNoPod(s: State, p: PipelineStep)
    requires PipelineEnabled(s, p)
    ensures var s' := PipelineApply(s, p);
      s'.w.pods == s.w.pods && s'.log.podRead == s.log.podRead && s'.log.leftPod == s.log.leftPod
  {
  }

  lemma DeltaKeepsDeparture(s: State, d: DeltaStep)
    requires StructureOk(s) && DepartureOk(s) && DeltaEnabled(s, d)
    ensures DepartureOk(DeltaApply(s, d))
  {
    match d
    case SyncDisk(regions) => LaunchKeepsRead(s, d);
    case SyncDiskFail(regions) => FailKeepsDeparture(CountFetch(s, regions));
    case CollectPodFail => FailKeepsDeparture(DropPod(s));
    case _ =>
  }

  lemma LaunchKeepsRead(s: State, d: DeltaStep)
    requires d.SyncDisk? && DepartureOk(s) && DeltaEnabled(s, d)
    ensures DepartureOk(DeltaApply(s, d))
  {
  }

  lemma EnvKeepsDeparture(s: State, e: EnvStep)
    requires DepartureOk(s) && EnvEnabled(s, e)
    ensures DepartureOk(s.(w := EnvApply(s, e)))
  {
  }

  lemma StepKeepsDeparture(s: State, a: Step)
    requires StructureOk(s) && DepartureOk(s) && Enabled(s, a)
    ensures DepartureOk(Apply(s, a))
  {
    match a
    case Life(l) => LifeKeepsDeparture(s, l);
    case Pipeline(p) => PipelineKeepsDeparture(s, p);
    case Delta(d) => DeltaKeepsDeparture(s, d);
    case Env(e) => EnvKeepsDeparture(s, e);
  }
}
