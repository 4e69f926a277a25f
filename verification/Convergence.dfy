/**
 Why the target disks end up equal to the source disks. Images are cut from the
 live disk, some time after the snapshot of their round, so a copy is never a
 copy of the snapshot. What every step keeps instead is an agreement up to a
 time: each copy holds the live value of every byte not written since the
 snapshot the copy has been brought up to.
 */
module Convergence {
  import opened Wrappers
  import opened Phases
  import opened Disks
  import opened Machine
  import opened Structure
  import opened Power

  /** The snapshot time that DataVolume k has been brought up to. */
  ghost function SyncedTo(s: State, k: nat): int
    requires OnTrack(s) && BulkOk(s) && RoundOk(s) && k < |s.w.dvs|
  {
    if s.vm.warm.None? then s.w.snaps[s.vm.snapshot.value]
    else
      var warm := s.vm.warm.value;
      if s.log.finalDone then s.log.syncTime
      else if warm.deltaSnap.Some? && k < warm.diskIdx then s.w.snaps[warm.deltaSnap.value]
      else s.w.snaps[warm.baseSnap.value]
  }

  /** Images cut for the disks in order, each agreeing with its disk up to the round's snapshot. */
  ghost predicate ImagesFresh(w: World, ids: seq<Id>, t: int) {
    forall k :: 0 <= k < |ids| ==>
      && ids[k] in w.images
      && w.images[ids[k]].disk == k < |w.disks|
      && Agrees(w.disks[k], w.images[ids[k]].bytes, t)
  }

  ghost predicate BulkImagesOk(s: State) {
    s.vm.snapshot.Some? && s.vm.snapshot.value in s.w.snaps ==>
      ImagesFresh(s.w, s.vm.images, s.w.snaps[s.vm.snapshot.value])
  }

  ghost predicate DeltaImagesOk(s: State) {
    s.vm.warm.Some? && s.vm.warm.value.deltaSnap.Some? && s.vm.warm.value.deltaSnap.value in s.w.snaps ==>
      ImagesFresh(s.w, s.vm.warm.value.deltaImages, s.w.snaps[s.vm.warm.value.deltaSnap.value])
  }

  /** The round invariant: disks before diskIdx are at the delta snapshot, the others at the base. */
  ghost predicate VolumesOk(s: State)
    requires OnTrack(s) && BulkOk(s) && RoundOk(s)
  {
    forall k :: 0 <= k < |s.w.dvs| ==>
      && s.w.dvs[k].image == s.vm.images[k]
      && (s.w.dvs[k].phase == DvSucceeded && s.w.target != Started ==>
            Agrees(s.w.disks[k], s.w.dvs[k].bytes, SyncedTo(s, k)))
  }

  /** The pod named by the status writes the disk the round is at, from this round's image. */
  ghost predicate CurrentPodOk(s: State)
    requires OnTrack(s) && BulkOk(s) && RoundOk(s)
  {
    s.vm.warm.Some? && s.vm.warm.value.deltaPod.Some? ==>
      var warm := s.vm.warm.value;
      && warm.deltaPod.value in s.w.pods
      && var pod := s.w.pods[warm.deltaPod.value];
      var base, delta := s.w.snaps[warm.baseSnap.value], s.w.snaps[warm.deltaSnap.value];
      && pod.disk == warm.diskIdx == warm.deltaPod.value.disk
      && pod.image == warm.deltaImages[warm.diskIdx]
      && pod.phase != PodDeleted
      && Covers(s.w.disks[pod.disk], pod.regions, base, delta)
      && CopiedAgree(s.w.disks[pod.disk], s.w.dvs[pod.disk].bytes, pod.copied, delta)
      && (pod.phase == PodSucceeded ==> AllCopied(pod.regions, |s.w.dvs[pod.disk].bytes|, pod.copied))
  }

  /** Pod names in use: never one that a later round or disk will ask for. */
  ghost predicate NameUsed(s: State, name: PodName) {
    && s.vm.warm.Some?
    && var warm := s.vm.warm.value;
    match name.round
    case PrecopyLabel(r) =>
      || r <= warm.rounds
      || (r == warm.rounds + 1 && (name.disk < warm.diskIdx || warm.deltaPod == Some(name)
                                   || s.log.finalDone))
    case FinalLabel =>
      && s.cfg.warm && Rank(s.vm.phase) >= Rank(FinalSync)
      && (name.disk < warm.diskIdx || warm.deltaPod == Some(name) || s.log.finalDone)
  }

  /** At most one pod is not deleted, the one the status names; the others' names are spent; ended VMs leave none. */
  ghost predicate PodsOk(s: State) {
    && (OnTrack(s) ==> forall name :: name in s.w.pods ==> NameUsed(s, name))
    && OthersDeleted(s)
    && (s.vm.phase == Completed || s.vm.phase == Failed ==> AllPodsDeleted(s))
  }

  /** Deletion was requested of every pod but the one the status names. */
  ghost predicate OthersDeleted(s: State) {
    forall name :: name in s.w.pods && s.w.pods[name].phase != PodDeleted ==>
      s.vm.warm.Some? && s.vm.warm.value.deltaPod == Some(name)
  }

  ghost predicate AllPodsDeleted(s: State) {
    forall name :: name in s.w.pods ==> s.w.pods[name].phase == PodDeleted
  }

  ghost predicate AllQuietSince(s: State, t: int) {
    forall d :: 0 <= d < |s.w.disks| ==> QuietSince(s.w.disks[d], t)
  }

  /** A snapshot taken after the source was seen off is not followed by any write. */
  ghost predicate QuietOk(s: State) {
    && (!s.cfg.warm && s.vm.snapshot.Some? && s.vm.snapshot.value in s.w.snaps ==>
          s.log.offSeen && AllQuietSince(s, s.w.snaps[s.vm.snapshot.value]))
    && (s.cfg.warm && !s.log.midRound && Rank(s.vm.phase) > Rank(Precopy)
        && s.vm.warm.Some? && s.vm.warm.value.deltaSnap.Some? && s.vm.warm.value.deltaSnap.value in s.w.snaps ==>
          s.vm.phase == FinalSync && AllQuietSince(s, s.w.snaps[s.vm.warm.value.deltaSnap.value]))
    && (s.log.finalDone && !s.log.midRound ==> s.cfg.warm && s.log.offSeen && AllQuietSince(s, s.log.syncTime))
    && (s.log.finalDone ==> s.log.syncTime < s.w.clock)
    && (s.log.midRound ==> s.cfg.warm && Rank(s.vm.phase) > Rank(Precopy))
  }

  ghost predicate ConvergenceOk(s: State) {
    StructureOk(s) && OnTrack(s) ==>
      BulkImagesOk(s) && DeltaImagesOk(s) && VolumesOk(s) && CurrentPodOk(s) && QuietOk(s)
  }

  lemma InitConvergence(s: State)
    requires Init(s)
    ensures ConvergenceOk(s) && PodsOk(s)
  {
  }

  // ----- Delta pods -----

  lemma PipelineKeepsPods(s: State, p: PipelineStep)
    requires StructureOk(s) && PodsOk(s) && PipelineEnabled(s, p)
    ensures PodsOk(PipelineApply(s, p))
  {
    if p.InitWarm? {
      assert s.w.pods.Keys == {};
    }
  }

  lemma LifeKeepsPods(s: State, l: LifeStep)
    requires StructureOk(s) && PodsOk(s) && LifeEnabled(s, l)
    ensures PodsOk(LifeApply(s, l))
  {
    match l
    case Advance => AdvanceKeepsPods(s);
    case Fail => FailKeepsPods(s);
    case _ =>
  }

  /** A name stays used as the VM climbs. */
  lemma NameStaysUsed(s: State, s': State, name: PodName)
    requires NameUsed(s, name) && s'.vm.warm == s.vm.warm && s'.cfg == s.cfg && s'.log.finalDone == s.log.finalDone
    requires Rank(s'.vm.phase) >= Rank(s.vm.phase)
    ensures NameUsed(s', name)
  {
  }

  lemma AdvanceKeepsPods(s: State)
    requires StructureOk(s) && PodsOk(s) && Done(s)
    ensures PodsOk(AdvancePhase(s))
  {
    var s' := AdvancePhase(s);
    DoneClimbs(s);
    forall name | name in s.w.pods
      ensures NameUsed(s', name)
    {
      NameStaysUsed(s, s', name);
    }
  }

  lemma EnvKeepsPods(s: State, e: EnvStep)
    requires StructureOk(s) && PodsOk(s) && EnvEnabled(s, e)
    ensures PodsOk(s.(w := EnvApply(s, e)))
  {
    var s' := s.(w := EnvApply(s, e));
    if OnTrack(s) {
      forall name | name in s'.w.pods
        ensures NameUsed(s', name)
      {
        assert name in s.w.pods && NameUsed(s, name);
      }
    }
  }

  lemma LaunchKeepsPods(s: State, regions: seq<Region>)
    requires StructureOk(s) && PodsOk(s) && CbtAnswer(s, regions)
    ensures PodsOk(LaunchOrSkip(CountFetch(s, regions), regions))
  {
    var s' := LaunchOrSkip(CountFetch(s, regions), regions);
    forall name | name in s'.w.pods
      ensures NameUsed(s', name)
    {
      if name in s.w.pods {
        assert NameUsed(s, name);
      }
    }
  }

  lemma CollectKeepsPods(s: State)
    requires StructureOk(s) && PodsOk(s) && PodCollectable(s)
    requires OnTrack(s) ==> s.vm.warm.value.deltaPod.value.disk == s.vm.warm.value.diskIdx
    ensures PodsOk(NextDisk(DropPod(s)))
  {
    var s' := NextDisk(DropPod(s));
    if OnTrack(s) {
      forall name | name in s'.w.pods
        ensures NameUsed(s', name)
      {
        assert name in s.w.pods && NameUsed(s, name);
      }
    }
  }

  /** Closing a round spends its names. */
  lemma CloseKeepsPods(s: State, d: DeltaStep)
    requires d.FinishRound? || d.FinishFinal?
    requires StructureOk(s) && PodsOk(s) && DeltaEnabled(s, d)
    ensures PodsOk(DeltaApply(s, d))
  {
    var s' := DeltaApply(s, d);
    forall name | name in s'.w.pods
      ensures NameUsed(s', name)
    {
      assert NameUsed(s, name);
    }
  }

  /** Opening one, or reading a pod, does not touch pods. */
  lemma OpenKeepsPods(s: State, d: DeltaStep)
    requires d.TakeDeltaSnapshot? || d.ExportDeltaDisk? || d.ReadPod?
    requires PodsOk(s) && DeltaEnabled(s, d)
    ensures PodsOk(DeltaApply(s, d))
  {
    var s' := DeltaApply(s, d);
    forall name | name in s'.w.pods
      ensures NameUsed(s', name)
    {
      assert NameUsed(s, name);
    }
  }

  /** A failing VM deletes the one pod that may be active. */
  lemma FailKeepsPods(s: State)
    requires OthersDeleted(s)
    ensures PodsOk(FailWith(s))
  {
  }

  lemma DeltaKeepsPods(s: State, d: DeltaStep)
    requires StructureOk(s) && PodsOk(s) && DeltaEnabled(s, d) && (OnTrack(s) ==> CurrentPodOk(s))
    ensures PodsOk(DeltaApply(s, d))
  {
    match d
    case TakeDeltaSnapshot => OpenKeepsPods(s, d);
    case ExportDeltaDisk => OpenKeepsPods(s, d);
    case SyncDisk(regions) => LaunchKeepsPods(s, regions);
    case CollectPod => CollectKeepsPods(s);
    case SyncDiskFail(regions) => FailKeepsPods(CountFetch(s, regions));
    case CollectPodFail => FailKeepsPods(DropPod(s));
    case FinishRound => CloseKeepsPods(s, d);
    case FinishFinal => CloseKeepsPods(s, d);
    case ReadPod(_) => OpenKeepsPods(s, d);
  }

  // ----- Environment steps -----

  lemma WriteKeepsImages(w: World, ids: seq<Id>, t: int, d: nat, o: nat, b: Byte)
    requires ImagesFresh(w, ids, t) && t < w.clock
    requires d < |w.disks| && o < |w.disks[d].live| == |w.disks[d].stamp|
    ensures ImagesFresh(w.(disks := w.disks[d := Write(w.disks[d], o, b, w.clock)]), ids, t)
  {
    forall k | 0 <= k < |ids| && ids[k] in w.images
      ensures k < |w.disks|
      ensures Agrees(w.disks[d := Write(w.disks[d], o, b, w.clock)][k], w.images[ids[k]].bytes, t)
    {
      if k == d {
        WriteKeepsAgreement(w.disks[d], w.images[ids[k]].bytes, t, o, b, w.clock);
      }
    }
  }

  lemma WriteKeepsVolumes(s: State, e: EnvStep)
    requires e.GuestWrite? && EnvEnabled(s, e) && StructureOk(s) && OnTrack(s)
    requires VolumesOk(s) && CurrentPodOk(s) && (s.log.finalDone ==> s.log.syncTime < s.w.clock)
    ensures StructureOk(s.(w := EnvApply(s, e)))
    ensures VolumesOk(s.(w := EnvApply(s, e))) && CurrentPodOk(s.(w := EnvApply(s, e)))
  {
    EnvKeepsStructure(s, e);
    var s' := s.(w := EnvApply(s, e));
    var d := e.disk;
    forall k | 0 <= k < |s.w.dvs|
      ensures s.w.dvs[k].phase == DvSucceeded && s.w.target != Started ==>
        Agrees(s'.w.disks[k], s.w.dvs[k].bytes, SyncedTo(s', k))
    {
      assert SyncedTo(s', k) == SyncedTo(s, k) < s.w.clock;
      if k == d && s.w.dvs[k].phase == DvSucceeded && s.w.target != Started {
        WriteKeepsAgreement(s.w.disks[d], s.w.dvs[k].bytes, SyncedTo(s, k), e.offset, e.value, s.w.clock);
      }
    }
    if s.vm.warm.Some? && s.vm.warm.value.deltaPod.Some? {
      var warm := s.vm.warm.value;
      var pod := s.w.pods[warm.deltaPod.value];
      var base, delta := s.w.snaps[warm.baseSnap.value], s.w.snaps[warm.deltaSnap.value];
      if pod.disk == d {
        WriteKeepsCoverage(s.w.disks[d], pod.regions, base, delta, e.offset, e.value, s.w.clock);
        WriteKeepsCopied(s.w.disks[d], s.w.dvs[d].bytes, pod.copied, delta, e.offset, e.value, s.w.clock);
      }
    }
  }

  lemma WriteKeepsConvergence(s: State, e: EnvStep)
    requires e.GuestWrite? && EnvEnabled(s, e) && StructureOk(s) && OnTrack(s) && CopiesOk(s)
    requires ConvergenceOk(s)
    ensures ConvergenceOk(s.(w := EnvApply(s, e)))
  {
    WriteKeepsVolumes(s, e);
    if s.vm.snapshot.Some? {
      WriteKeepsImages(s.w, s.vm.images, s.w.snaps[s.vm.snapshot.value], e.disk, e.offset, e.value);
    }
    if s.vm.warm.Some? && s.vm.warm.value.deltaSnap.Some? {
      WriteKeepsImages(s.w, s.vm.warm.value.deltaImages, s.w.snaps[s.vm.warm.value.deltaSnap.value],
                       e.disk, e.offset, e.value);
    }
    assert !s.log.offSeen;
  }

  lemma ImportKeepsConvergence(s: State, e: EnvStep)
    requires e.DvSucceeds? && EnvEnabled(s, e) && StructureOk(s) && OnTrack(s)
    requires ConvergenceOk(s)
    ensures ConvergenceOk(s.(w := EnvApply(s, e)))
  {
    EnvKeepsStructure(s, e);
    var s' := s.(w := EnvApply(s, e));
    forall k | 0 <= k < |s'.w.dvs|
      ensures s'.w.dvs[k].phase == DvSucceeded && s.w.target != Started ==>
        Agrees(s'.w.disks[k], s'.w.dvs[k].bytes, SyncedTo(s', k))
    {
      assert SyncedTo(s', k) == SyncedTo(s, k);
    }
  }

  lemma CopyKeepsConvergence(s: State, e: EnvStep)
    requires e.PodCopies? && EnvEnabled(s, e) && StructureOk(s) && OnTrack(s)
    requires ConvergenceOk(s) && PodsOk(s)
    ensures ConvergenceOk(s.(w := EnvApply(s, e)))
  {
    EnvKeepsStructure(s, e);
    var s' := s.(w := EnvApply(s, e));
    var warm := s.vm.warm.value;
    var pod := s.w.pods[e.name];
    var base, delta := s.w.snaps[warm.baseSnap.value], s.w.snaps[warm.deltaSnap.value];
    assert SyncedTo(s, pod.disk) == base;
    CopyByteKeepsAgreement(s.w.disks[pod.disk], s.w.dvs[pod.disk].bytes, s.w.images[pod.image].bytes,
                           pod.copied, base, delta, e.offset);
    forall k | 0 <= k < |s'.w.dvs|
      ensures s'.w.dvs[k].phase == DvSucceeded && s.w.target != Started ==>
        Agrees(s'.w.disks[k], s'.w.dvs[k].bytes, SyncedTo(s', k))
    {
      assert SyncedTo(s', k) == SyncedTo(s, k);
    }
  }

  /** Steps that write no source byte keep the source quiet. */
  lemma EnvKeepsQuiet(s: State, e: EnvStep)
    requires !e.GuestWrite? && EnvEnabled(s, e) && QuietOk(s)
    ensures QuietOk(s.(w := EnvApply(s, e)))
  {
  }

  /** Images, volumes and the running pod do not depend on the rest of the state. */
  lemma SameDataKeeps(s: State, s': State)
    requires StructureOk(s) && OnTrack(s) && StructureOk(s') && OnTrack(s')
    requires s'.vm == s.vm.(phase := s'.vm.phase, original := s'.vm.original)
    requires s'.w.disks == s.w.disks && s'.w.snaps == s.w.snaps && s'.w.images == s.w.images
    requires s'.w.dvs == s.w.dvs && s'.w.pods == s.w.pods && (s.w.target == Started ==> s'.w.target == Started)
    requires s'.log.finalDone == s.log.finalDone && s'.log.syncTime == s.log.syncTime
    requires BulkImagesOk(s) && DeltaImagesOk(s) && VolumesOk(s) && CurrentPodOk(s)
    ensures BulkImagesOk(s') && DeltaImagesOk(s') && VolumesOk(s') && CurrentPodOk(s')
  {
    forall k | 0 <= k < |s'.w.dvs|
      ensures SyncedTo(s', k) == SyncedTo(s, k)
    {
    }
  }

  /** Steps that only change the phase of the DataVolume at k, or a byte of a started target. */
  lemma VolumeStatusKeepsConvergence(s: State, e: EnvStep)
    requires e.DvFails? || e.TargetWrite?
    requires EnvEnabled(s, e) && StructureOk(s) && OnTrack(s) && ConvergenceOk(s)
    ensures ConvergenceOk(s.(w := EnvApply(s, e)))
  {
    EnvKeepsStructure(s, e);
    EnvKeepsQuiet(s, e);
    var s' := s.(w := EnvApply(s, e));
    forall k | 0 <= k < |s'.w.dvs|
      ensures SyncedTo(s', k) == SyncedTo(s, k)
    {
    }
  }

  lemma PodStatusKeepsConvergence(s: State, e: EnvStep)
    requires e.PodSucceeds? || e.PodFails?
    requires EnvEnabled(s, e) && StructureOk(s) && OnTrack(s) && ConvergenceOk(s)
    ensures ConvergenceOk(s.(w := EnvApply(s, e)))
  {
    EnvKeepsStructure(s, e);
    EnvKeepsQuiet(s, e);
    var s' := s.(w := EnvApply(s, e));
    PodStatusKeepsPod(s, s', e.name);
    forall k | 0 <= k < |s'.w.dvs|
      ensures SyncedTo(s', k) == SyncedTo(s, k)
    {
    }
  }

  lemma PodStatusKeepsPod(s: State, s': State, name: PodName)
    requires StructureOk(s) && OnTrack(s) && CurrentPodOk(s) && name in s.w.pods && name in s'.w.pods
    requires s' == s.(w := s.w.(pods := s.w.pods[name := s.w.pods[name].(phase := s'.w.pods[name].phase)]))
    requires s'.w.pods[name].phase == PodFailed ||
             (s'.w.pods[name].phase == PodSucceeded && s.w.pods[name].disk < |s.w.dvs| &&
              AllCopied(s.w.pods[name].regions, |s.w.dvs[s.w.pods[name].disk].bytes|, s.w.pods[name].copied))
    requires BulkOk(s') && RoundOk(s')
    ensures CurrentPodOk(s')
  {
  }

  /** Steps that move no byte and touch no object. */
  lemma QuietEnvKeepsConvergence(s: State, e: EnvStep)
    requires e.Tick? || e.OutsidePower? || e.PowerOnTakesEffect? || e.SetCutover?
    requires EnvEnabled(s, e) && StructureOk(s) && OnTrack(s) && ConvergenceOk(s)
    ensures ConvergenceOk(s.(w := EnvApply(s, e)))
  {
    EnvKeepsStructure(s, e);
    EnvKeepsQuiet(s, e);
    SameDataKeeps(s, s.(w := EnvApply(s, e)));
  }

  lemma EnvKeepsConvergence(s: State, e: EnvStep)
    requires StructureOk(s) && CopiesOk(s) && ConvergenceOk(s) && PodsOk(s) && EnvEnabled(s, e)
    ensures ConvergenceOk(s.(w := EnvApply(s, e)))
  {
    if OnTrack(s) {
      if e.GuestWrite? {
        WriteKeepsConvergence(s, e);
      } else if e.DvSucceeds? {
        ImportKeepsConvergence(s, e);
      } else if e.PodCopies? {
        CopyKeepsConvergence(s, e);
      } else if e.DvFails? || e.TargetWrite? {
        VolumeStatusKeepsConvergence(s, e);
      } else if e.PodSucceeds? || e.PodFails? {
        PodStatusKeepsConvergence(s, e);
      } else {
        QuietEnvKeepsConvergence(s, e);
      }
    }
  }

  // ----- Controller steps -----

  lemma AdvanceKeepsQuiet(s: State)
    requires StructureOk(s) && QuietOk(s) && Done(s)
    ensures QuietOk(AdvancePhase(s))
  {
  }

  lemma LifeKeepsConvergence(s: State, l: LifeStep)
    requires StructureOk(s) && ConvergenceOk(s) && LifeEnabled(s, l)
    ensures ConvergenceOk(LifeApply(s, l))
  {
    match l
    case Begin => BeginKeepsConvergence(s);
    case Advance => AdvanceKeepsConvergence(s);
    case _ =>
  }

  lemma BeginKeepsConvergence(s: State)
    requires StructureOk(s) && ConvergenceOk(s) && s.vm.phase == Pending
    ensures ConvergenceOk(SetPhase(s, PreHook))
  {
    BeginKeepsStructure(s);
    SameDataKeeps(s, SetPhase(s, PreHook));
  }

  lemma AdvanceKeepsConvergence(s: State)
    requires StructureOk(s) && ConvergenceOk(s) && Done(s)
    ensures ConvergenceOk(AdvancePhase(s))
  {
    DoneClimbs(s);
    AdvanceKeepsStructure(s);
    AdvanceKeepsQuiet(s);
    SameDataKeeps(s, AdvancePhase(s));
  }

  /** A freshly cut image agrees with its disk up to any time. */
  lemma ExportIsFresh(w: World, ids: seq<Id>, t: int)
    requires ImagesFresh(w, ids, t) && WorldOk(w) && |ids| < |w.disks|
    ensures ImagesFresh(WithImage(w, |ids|), ids + [w.nextId], t)
  {
  }

  lemma ExportKeepsOthers(w: World, ids: seq<Id>, t: int, d: nat)
    requires ImagesFresh(w, ids, t) && WorldOk(w) && d < |w.disks|
    ensures ImagesFresh(WithImage(w, d), ids, t)
  {
  }

  lemma PipelineKeepsQuiet(s: State, p: PipelineStep)
    requires StructureOk(s) && CopiesOk(s) && QuietOk(s) && PipelineEnabled(s, p)
    ensures QuietOk(PipelineApply(s, p))
  {
    if p.TakeSnapshot? {
      FirstSnapshotQuiet(s);
    } else {
      PipelineQuietFrame(s, p);
      SameQuiet(s, PipelineApply(s, p));
    }
  }

  /** Nothing that quietness depends on differs, except that more may be known to be off. */
  ghost predicate QuietFrame(s: State, s': State) {
    && s'.cfg == s.cfg && s'.vm.phase == s.vm.phase && s'.vm.snapshot == s.vm.snapshot
    && s'.w.snaps == s.w.snaps && s'.w.disks == s.w.disks && s'.w.clock == s.w.clock
    && s'.log.finalDone == s.log.finalDone && s'.log.syncTime == s.log.syncTime
    && s'.log.midRound == s.log.midRound && (s.log.offSeen ==> s'.log.offSeen)
    && (s'.vm.warm == s.vm.warm || (s'.vm.warm.Some? && s'.vm.warm.value.deltaSnap.None?))
  }

  lemma PipelineQuietFrame(s: State, p: PipelineStep)
    requires PipelineEnabled(s, p) && !p.TakeSnapshot?
    ensures QuietFrame(s, PipelineApply(s, p))
  {
  }

  lemma SameQuiet(s: State, s': State)
    requires QuietFrame(s, s') && QuietOk(s)
    ensures QuietOk(s')
  {
  }

  /** The first snapshot of a cold VM is taken after the source was seen off. */
  lemma FirstSnapshotQuiet(s: State)
    requires StructureOk(s) && CopiesOk(s) && QuietOk(s) && PipelineEnabled(s, TakeSnapshot)
    ensures QuietOk(PipelineApply(s, TakeSnapshot))
  {
    assert s.vm.warm.None? && !s.log.finalDone;
  }

  /** The first snapshot: nothing is exported yet. */
  lemma FirstSnapshotKeepsConvergence(s: State)
    requires StructureOk(s) && CopiesOk(s) && ConvergenceOk(s) && PipelineEnabled(s, TakeSnapshot)
    ensures ConvergenceOk(PipelineApply(s, TakeSnapshot))
  {
    PipelineKeepsStructure(s, TakeSnapshot);
    PipelineKeepsQuiet(s, TakeSnapshot);
    assert s.vm.images == [] && s.w.dvs == [] && s.vm.warm.None?;
  }

  lemma FirstExportKeepsConvergence(s: State)
    requires StructureOk(s) && CopiesOk(s) && ConvergenceOk(s) && PipelineEnabled(s, ExportDisk)
    ensures ConvergenceOk(PipelineApply(s, ExportDisk))
  {
    PipelineKeepsStructure(s, ExportDisk);
    PipelineKeepsQuiet(s, ExportDisk);
    assert s.w.dvs == [] && s.vm.warm.None?;
    ExportIsFresh(s.w, s.vm.images, s.w.snaps[s.vm.snapshot.value]);
  }

  /** A new DataVolume has not succeeded; the warm status starts at the bulk snapshot. */
  lemma ImportBeginsConvergence(s: State, p: PipelineStep)
    requires p == CreateDataVolume || p == InitWarm
    requires StructureOk(s) && CopiesOk(s) && ConvergenceOk(s) && PipelineEnabled(s, p)
    ensures ConvergenceOk(PipelineApply(s, p))
  {
    PipelineKeepsStructure(s, p);
    PipelineKeepsQuiet(s, p);
    var s' := PipelineApply(s, p);
    forall k | 0 <= k < |s.w.dvs|
      ensures SyncedTo(s', k) == SyncedTo(s, k)
    {
    }
  }

  lemma PipelineKeepsConvergence(s: State, p: PipelineStep)
    requires StructureOk(s) && CopiesOk(s) && ConvergenceOk(s) && PipelineEnabled(s, p)
    ensures ConvergenceOk(PipelineApply(s, p))
  {
    match p
    case TakeSnapshot => FirstSnapshotKeepsConvergence(s);
    case ExportDisk => FirstExportKeepsConvergence(s);
    case CreateDataVolume => ImportBeginsConvergence(s, p);
    case InitWarm => ImportBeginsConvergence(s, p);
    case _ => OtherPipelineKeepsConvergence(s, p);
  }

  predicate TouchesNoData(p: PipelineStep) {
    p == StorePower || p == CommandPowerOff || p == SeeOff || p == CreateTarget || p == StartTarget || p == CleanUp
  }

  /** What the other steps leave alone. */
  lemma PipelineFrame(s: State, p: PipelineStep)
    requires TouchesNoData(p) && PipelineEnabled(s, p)
    ensures OnTrack(s)
    ensures var s' := PipelineApply(s, p);
      && s'.vm == s.vm.(original := s'.vm.original) && s'.cfg == s.cfg
      && s'.w == s.w.(target := s'.w.target) && (s.w.target == Started ==> s'.w.target == Started)
      && s'.log.finalDone == s.log.finalDone && s'.log.syncTime == s.log.syncTime
  {
  }

  lemma OtherPipelineKeepsConvergence(s: State, p: PipelineStep)
    requires TouchesNoData(p)
    requires StructureOk(s) && CopiesOk(s) && ConvergenceOk(s) && PipelineEnabled(s, p)
    ensures ConvergenceOk(PipelineApply(s, p))
  {
    var s' := PipelineApply(s, p);
    PipelineFrame(s, p);
    PipelineKeepsStructure(s, p);
    PipelineKeepsQuiet(s, p);
    SameDataKeeps(s, s');
  }

  lemma DeltaSnapshotKeepsConvergence(s: State)
    requires StructureOk(s) && CopiesOk(s) && ConvergenceOk(s) && DeltaEnabled(s, TakeDeltaSnapshot)
    ensures ConvergenceOk(DeltaApply(s, TakeDeltaSnapshot))
  {
    var s' := DeltaApply(s, TakeDeltaSnapshot);
    DeltaSnapshotKeepsStructure(s);
    forall k | 0 <= k < |s.w.dvs|
      ensures SyncedTo(s', k) == SyncedTo(s, k)
    {
    }
  }

  lemma DeltaExportKeepsConvergence(s: State)
    requires StructureOk(s) && ConvergenceOk(s) && DeltaEnabled(s, ExportDeltaDisk)
    ensures ConvergenceOk(DeltaApply(s, ExportDeltaDisk))
  {
    var s' := DeltaApply(s, ExportDeltaDisk);
    DeltaExportKeepsStructure(s);
    var warm := s.vm.warm.value;
    ExportIsFresh(s.w, warm.deltaImages, s.w.snaps[warm.deltaSnap.value]);
    ExportKeepsOthers(s.w, s.vm.images, s.w.snaps[s.vm.snapshot.value], |warm.deltaImages|);
    forall k | 0 <= k < |s.w.dvs|
      ensures SyncedTo(s', k) == SyncedTo(s, k)
    {
    }
  }

  lemma SyncKeepsConvergence(s: State, regions: seq<Region>)
    requires StructureOk(s) && CopiesOk(s) && ConvergenceOk(s) && PodsOk(s) && CbtAnswer(s, regions)
    ensures ConvergenceOk(LaunchOrSkip(CountFetch(s, regions), regions))
  {
    if regions == [] {
      SkipKeepsConvergence(s);
    } else {
      LaunchKeepsConvergence(s, regions);
    }
  }

  /** An empty answer: the disk is already at the delta snapshot. */
  lemma SkipKeepsConvergence(s: State)
    requires StructureOk(s) && ConvergenceOk(s) && CbtAnswer(s, [])
    ensures ConvergenceOk(LaunchOrSkip(CountFetch(s, []), []))
  {
    var s' := LaunchOrSkip(CountFetch(s, []), []);
    LaunchKeepsStructure(s, []);
    var warm := s.vm.warm.value;
    var i := warm.diskIdx;
    assert SyncedTo(s, i) == s.w.snaps[warm.baseSnap.value];
    NothingToCopy(s.w.disks[i], s.w.dvs[i].bytes, s.w.snaps[warm.baseSnap.value], s.w.snaps[warm.deltaSnap.value]);
    forall k | 0 <= k < |s.w.dvs| && k != i
      ensures SyncedTo(s', k) == SyncedTo(s, k)
    {
    }
  }

  lemma LaunchKeepsConvergence(s: State, regions: seq<Region>)
    requires StructureOk(s) && ConvergenceOk(s) && PodsOk(s) && CbtAnswer(s, regions) && regions != []
    ensures ConvergenceOk(LaunchOrSkip(CountFetch(s, regions), regions))
  {
    var s' := LaunchOrSkip(CountFetch(s, regions), regions);
    LaunchKeepsStructure(s, regions);
    NewPodIsNew(s);
    var warm := s.vm.warm.value;
    assert SyncedTo(s, warm.diskIdx) == s.w.snaps[warm.baseSnap.value];
    assert CopiedAgree(s.w.disks[warm.diskIdx], s.w.dvs[warm.diskIdx].bytes, {}, s.w.snaps[warm.deltaSnap.value]);
    forall k | 0 <= k < |s.w.dvs|
      ensures SyncedTo(s', k) == SyncedTo(s, k)
    {
    }
  }

  /** The name of the next delta pod was never used, so "already exists" cannot adopt a stale pod. */
  lemma NewPodIsNew(s: State)
    requires StructureOk(s) && PodsOk(s) && RoundExported(s)
    ensures PodName(CurrentLabel(s), s.vm.warm.value.diskIdx) !in s.w.pods
  {
    var name := PodName(CurrentLabel(s), s.vm.warm.value.diskIdx);
    assert !NameUsed(s, name);
  }

  lemma CollectKeepsConvergence(s: State)
    requires StructureOk(s) && CopiesOk(s) && ConvergenceOk(s) && PodCollectable(s)
    ensures ConvergenceOk(NextDisk(DropPod(s)))
  {
    if OnTrack(s) {
      var s' := NextDisk(DropPod(s));
      CollectKeepsStructure(s);
      var warm := s.vm.warm.value;
      var i := warm.diskIdx;
      var pod := s.w.pods[warm.deltaPod.value];
      assert SyncedTo(s, i) == s.w.snaps[warm.baseSnap.value];
      CopyCompletes(s.w.disks[i], s.w.dvs[i].bytes, pod.regions, pod.copied,
                    s.w.snaps[warm.baseSnap.value], s.w.snaps[warm.deltaSnap.value]);
      forall k | 0 <= k < |s.w.dvs| && k != i
        ensures SyncedTo(s', k) == SyncedTo(s, k)
      {
      }
    }
  }

  lemma FinishKeepsConvergence(s: State, d: DeltaStep)
    requires d.FinishRound? || d.FinishFinal?
    requires StructureOk(s) && CopiesOk(s) && ConvergenceOk(s) && DeltaEnabled(s, d)
    ensures ConvergenceOk(DeltaApply(s, d))
  {
    var s' := DeltaApply(s, d);
    DeltaKeepsStructure(s, d);
    forall k | 0 <= k < |s.w.dvs|
      ensures SyncedTo(s', k) == SyncedTo(s, k) == s.w.snaps[s.vm.warm.value.deltaSnap.value]
    {
    }
  }

  lemma ReadKeepsConvergence(s: State, d: DeltaStep)
    requires d.ReadPod? && StructureOk(s) && ConvergenceOk(s) && DeltaEnabled(s, d)
    ensures ConvergenceOk(DeltaApply(s, d))
  {
    var s' := DeltaApply(s, d);
    ReadKeepsStructure(s, d);
    SameDataKeeps(s, s');
    SameQuiet(s, s');
  }

  lemma DeltaKeepsConvergence(s: State, d: DeltaStep)
    requires StructureOk(s) && CopiesOk(s) && ConvergenceOk(s) && PodsOk(s) && DeltaEnabled(s, d)
    ensures ConvergenceOk(DeltaApply(s, d))
  {
    if d.TakeDeltaSnapshot? {
      DeltaSnapshotKeepsConvergence(s);
    } else if d.ExportDeltaDisk? {
      DeltaExportKeepsConvergence(s);
    } else if d.SyncDisk? {
      SyncKeepsConvergence(s, d.regions);
    } else if d.CollectPod? {
      CollectKeepsConvergence(s);
    } else if d.FinishRound? || d.FinishFinal? {
      FinishKeepsConvergence(s, d);
    } else if d.ReadPod? {
      ReadKeepsConvergence(s, d);
    }
  }

  lemma StepKeepsPods(s: State, a: Step)
    requires StructureOk(s) && ConvergenceOk(s) && PodsOk(s) && Enabled(s, a)
    ensures PodsOk(Apply(s, a))
  {
    match a
    case Life(l) => LifeKeepsPods(s, l);
    case Pipeline(p) => PipelineKeepsPods(s, p);
    case Delta(d) => DeltaKeepsPods(s, d);
    case Env(e) => EnvKeepsPods(s, e);
  }

  lemma StepKeepsConvergence(s: State, a: Step)
    requires StructureOk(s) && CopiesOk(s) && ConvergenceOk(s) && PodsOk(s) && Enabled(s, a)
    ensures ConvergenceOk(Apply(s, a))
  {
    match a
    case Life(l) => LifeKeepsConvergence(s, l);
    case Pipeline(p) => PipelineKeepsConvergence(s, p);
    case Delta(d) => DeltaKeepsConvergence(s, d);
    case Env(e) => EnvKeepsConvergence(s, e);
  }
}
