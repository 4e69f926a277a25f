/**
 The ledger of temporary Nutanix resources: every snapshot and image that was
 created and not yet requested for deletion is named by the VM status, finished
 VMs leave nothing behind, nothing else is ever deleted, and nothing is deleted
 while a delta round, a pod or a DataVolume still needs it.
 */
module Ledger {
  import opened Wrappers
  import opened Phases
  import opened Disks
  import opened Machine
  import opened Structure
  import opened Convergence

  ghost function OutstandingSnaps(s: State): set<Id> {
    s.w.snaps.Keys - s.log.deletedSnaps
  }

  ghost function OutstandingImages(s: State): set<Id> {
    s.w.images.Keys - s.log.deletedImages
  }

  /** Only created things are held or deleted, and what is not deleted is held. */
  ghost predicate BooksOk(s: State) {
    && HeldSnaps(s.vm) <= s.w.snaps.Keys && HeldImages(s.vm) <= s.w.images.Keys
    && s.log.deletedSnaps <= s.w.snaps.Keys && s.log.deletedImages <= s.w.images.Keys
    && OutstandingSnaps(s) <= HeldSnaps(s.vm)
    && OutstandingImages(s) <= HeldImages(s.vm)
  }

  /** Of a warm VM only the base and the round in progress are outstanding, and nothing after the final sync. */
  ghost predicate GenerationsOk(s: State) {
    OnTrack(s) && s.vm.warm.Some? ==>
      var warm := s.vm.warm.value;
      if s.log.finalDone then OutstandingSnaps(s) == {} && OutstandingImages(s) == {}
      else
        && OutstandingSnaps(s) <= Singleton(warm.baseSnap) + Singleton(warm.deltaSnap)
        && OutstandingImages(s) <= Elements(warm.baseImages) + Elements(warm.deltaImages)
  }

  /** After cleanup nothing is outstanding. */
  ghost predicate ClosingOk(s: State) {
    && (s.log.cleaned && OnTrack(s) ==> Rank(s.vm.phase) >= Rank(Cleanup))
    && (s.vm.phase == Completed ==> s.log.cleaned)
    && ((s.log.cleaned && OnTrack(s)) || s.vm.phase == Failed ==>
          OutstandingSnaps(s) == {} && OutstandingImages(s) == {})
    && (s.vm.phase == Failed ==> s.log.deletedDvs == s.vm.dvNames)
    && (s.vm.phase != Failed ==> s.log.deletedDvs == 0)
  }

  /** Nothing is deleted before the first delta round closes, or before cleanup. */
  ghost predicate FirstUseOk(s: State) {
    OnTrack(s) && (s.vm.warm.None? || Rank(s.vm.phase) < Rank(Precopy)) && !s.log.cleaned ==>
      s.log.deletedSnaps == {} && s.log.deletedImages == {}
  }

  /** Nothing that a delta round still needs is deleted. */
  ghost predicate RoundUseOk(s: State) {
    OnTrack(s) && s.vm.warm.Some? && !s.log.finalDone ==>
      var warm := s.vm.warm.value;
      && !s.log.cleaned
      && Singleton(warm.baseSnap) !! s.log.deletedSnaps
      && Singleton(warm.deltaSnap) !! s.log.deletedSnaps
      && Elements(warm.baseImages) !! s.log.deletedImages
      && Elements(warm.deltaImages) !! s.log.deletedImages
      && Elements(warm.baseImages) !! Elements(warm.deltaImages)
  }

  /** Nothing that an import or a pod still reads is deleted. */
  ghost predicate ReadersOk(s: State) {
    s.vm.phase != Failed ==>
      && (forall k :: 0 <= k < |s.w.dvs| && s.w.dvs[k].phase == DvRunning ==>
            s.w.dvs[k].image !in s.log.deletedImages)
      && (forall name :: name in s.w.pods && s.w.pods[name].phase == PodActive ==>
            s.w.pods[name].image !in s.log.deletedImages)
  }

  ghost predicate InUseOk(s: State) {
    FirstUseOk(s) && RoundUseOk(s) && ReadersOk(s)
  }

  ghost predicate LedgerOk(s: State) {
    BooksOk(s) && GenerationsOk(s) && ClosingOk(s) && InUseOk(s)
  }

  lemma InitLedger(s: State)
    requires Init(s)
    ensures LedgerOk(s)
  {
  }

  lemma ElementsAppend(ids: seq<Id>, id: Id)
    ensures Elements(ids + [id]) == Elements(ids) + {id}
  {
  }

  lemma EnvKeepsLedger(s: State, e: EnvStep)
    requires LedgerOk(s) && EnvEnabled(s, e)
    ensures LedgerOk(s.(w := EnvApply(s, e)))
  {
  }

  lemma FailKeepsLedger(s: State)
    requires BooksOk(s)
    ensures LedgerOk(FailWith(s))
  {
  }

  lemma AdvanceKeepsClosing(s: State)
    requires ClosingOk(s) && Done(s)
    ensures ClosingOk(AdvancePhase(s))
  {
  }

  lemma AdvanceKeepsInUse(s: State)
    requires StructureOk(s) && InUseOk(s) && Done(s)
    ensures InUseOk(AdvancePhase(s))
  {
    DoneClimbs(s);
    AdvanceKeepsFirstUse(s);
  }

  /** Nothing is deleted before the first delta round. */
  lemma AdvanceKeepsFirstUse(s: State)
    requires StructureOk(s) && FirstUseOk(s) && RoundUseOk(s) && Done(s)
    ensures FirstUseOk(AdvancePhase(s))
  {
  }

  lemma LifeKeepsLedger(s: State, l: LifeStep)
    requires StructureOk(s) && LedgerOk(s) && LifeEnabled(s, l)
    ensures LedgerOk(LifeApply(s, l))
  {
    match l
    case Advance => AdvanceKeepsLedger(s);
    case Fail => FailKeepsLedger(s);
    case Begin => LeaveKeepsLedger(s, PreHook);
    case Cancel => LeaveKeepsLedger(s, Cancelled);
  }

  lemma AdvanceKeepsLedger(s: State)
    requires StructureOk(s) && LedgerOk(s) && Done(s)
    ensures LedgerOk(AdvancePhase(s))
  {
    DoneClimbs(s);
    AdvanceKeepsClosing(s);
    AdvanceKeepsInUse(s);
    PhaseKeepsBooks(s, AdvancePhase(s));
  }

  /** The books do not depend on the phase. */
  lemma PhaseKeepsBooks(s: State, s': State)
    requires BooksOk(s) && GenerationsOk(s) && OnTrack(s) && s'.vm == s.vm.(phase := s'.vm.phase) && s'.w == s.w
    requires s'.log.deletedSnaps == s.log.deletedSnaps && s'.log.deletedImages == s.log.deletedImages
    requires s'.log.finalDone == s.log.finalDone
    ensures BooksOk(s') && GenerationsOk(s')
  {
  }

  lemma LeaveKeepsLedger(s: State, q: Phase)
    requires LedgerOk(s) && !IsTerminal(s.vm.phase) && (q == Cancelled || (q == PreHook && s.vm.phase == Pending))
    ensures LedgerOk(SetPhase(s, q))
  {
  }

  lemma PipelineKeepsBooks(s: State, p: PipelineStep)
    requires StructureOk(s) && BooksOk(s) && PipelineEnabled(s, p)
    ensures BooksOk(PipelineApply(s, p))
  {
    if p.ExportDisk? {
      ElementsAppend(s.vm.images, s.w.nextId);
    }
  }

  lemma PipelineKeepsClosing(s: State, p: PipelineStep)
    requires StructureOk(s) && BooksOk(s) && GenerationsOk(s) && ClosingOk(s) && PipelineEnabled(s, p)
    ensures ClosingOk(PipelineApply(s, p))
  {
    if p.CleanUp? {
      CleanUpCloses(s);
    } else {
      PipelineDeletesNothing(s, p);
      PipelineKeepsOpenBooks(s, PipelineApply(s, p));
    }
  }

  /** The last cleanup requests deletion of all that is outstanding. */
  lemma CleanUpCloses(s: State)
    requires StructureOk(s) && BooksOk(s) && GenerationsOk(s) && ClosingOk(s) && PipelineEnabled(s, CleanUp)
    ensures ClosingOk(PipelineApply(s, CleanUp))
  {
    var s' := PipelineApply(s, CleanUp);
    if s.vm.warm.Some? {
      assert s.log.finalDone;
    } else {
      assert HeldSnaps(s.vm) == Singleton(s.vm.snapshot) && HeldImages(s.vm) == Elements(s.vm.images);
    }
    assert OutstandingSnaps(s') == {} && OutstandingImages(s') == {};
  }

  /** The other steps delete nothing; they create only before the final sync is done. */
  ghost predicate DeletesNothing(s: State, s': State) {
    && s'.vm.phase == s.vm.phase && s'.cfg == s.cfg && s'.log.cleaned == s.log.cleaned
    && s'.log.deletedSnaps == s.log.deletedSnaps && s'.log.deletedImages == s.log.deletedImages
    && s'.log.deletedDvs == s.log.deletedDvs && s'.log.finalDone == s.log.finalDone
    && !IsTerminal(s.vm.phase)
    && (s.log.finalDone || s.log.cleaned ==> s'.vm == s.vm && s'.w.snaps == s.w.snaps && s'.w.images == s.w.images)
  }

  lemma PipelineDeletesNothing(s: State, p: PipelineStep)
    requires StructureOk(s) && ClosingOk(s) && PipelineEnabled(s, p) && !p.CleanUp?
    ensures DeletesNothing(s, PipelineApply(s, p))
  {
  }

  lemma PipelineKeepsOpenBooks(s: State, s': State)
    requires ClosingOk(s) && DeletesNothing(s, s')
    ensures ClosingOk(s')
  {
  }

  lemma PipelineKeepsInUse(s: State, p: PipelineStep)
    requires StructureOk(s) && InUseOk(s) && ClosingOk(s) && PodsOk(s) && PipelineEnabled(s, p)
    ensures InUseOk(PipelineApply(s, p))
  {
    PipelineKeepsFirstUse(s, p);
    PipelineKeepsRoundUse(s, p);
    PipelineKeepsReaders(s, p);
  }

  lemma PipelineKeepsFirstUse(s: State, p: PipelineStep)
    requires StructureOk(s) && FirstUseOk(s) && PipelineEnabled(s, p)
    ensures FirstUseOk(PipelineApply(s, p))
  {
  }

  lemma PipelineKeepsRoundUse(s: State, p: PipelineStep)
    requires StructureOk(s) && FirstUseOk(s) && RoundUseOk(s) && ClosingOk(s) && PipelineEnabled(s, p)
    ensures RoundUseOk(PipelineApply(s, p))
  {
    if p.InitWarm? {
      FirstRoundUse(s);
    } else if p.CleanUp? {
      assert s.vm.warm.Some? ==> s.log.finalDone;
    }
  }

  lemma FirstRoundUse(s: State)
    requires StructureOk(s) && ClosingOk(s) && FirstUseOk(s) && PipelineEnabled(s, InitWarm)
    ensures RoundUseOk(PipelineApply(s, InitWarm))
  {
    assert !s.log.cleaned;
    assert Elements([]) == {};
  }

  lemma PipelineKeepsReaders(s: State, p: PipelineStep)
    requires StructureOk(s) && ClosingOk(s) && InUseOk(s) && PodsOk(s) && PipelineEnabled(s, p)
    ensures ReadersOk(PipelineApply(s, p))
  {
    if p.CleanUp? {
      CleanUpHasNoReaders(s);
    } else if p.CreateDataVolume? {
      assert s.log.deletedImages == {} by { NoneDeletedInBulk(s); }
    }
  }

  lemma NoneDeletedInBulk(s: State)
    requires StructureOk(s) && ClosingOk(s) && FirstUseOk(s) && PipelineEnabled(s, CreateDataVolume)
    ensures s.log.deletedImages == {}
  {
  }

  /** By the time of the last cleanup nothing is importing and no pod runs. */
  lemma CleanUpHasNoReaders(s: State)
    requires StructureOk(s) && PodsOk(s) && PipelineEnabled(s, CleanUp)
    ensures ReadersOk(PipelineApply(s, CleanUp))
  {
    assert s.vm.warm.Some? ==> s.vm.warm.value.deltaPod.None?;
    assert AllDvsSucceeded(s);
  }

  lemma PipelineKeepsGenerations(s: State, p: PipelineStep)
    requires StructureOk(s) && BooksOk(s) && GenerationsOk(s) && PipelineEnabled(s, p)
    ensures GenerationsOk(PipelineApply(s, p))
  {
    if p.InitWarm? {
      FirstGeneration(s);
    } else if s.vm.warm.Some? {
      WarmCreatesNothing(s, p);
    }
  }

  lemma FirstGeneration(s: State)
    requires StructureOk(s) && BooksOk(s) && PipelineEnabled(s, InitWarm)
    ensures GenerationsOk(PipelineApply(s, InitWarm))
  {
    assert HeldSnaps(s.vm) == Singleton(s.vm.snapshot) && HeldImages(s.vm) == Elements(s.vm.images);
  }

  lemma WarmCreatesNothing(s: State, p: PipelineStep)
    requires StructureOk(s) && PipelineEnabled(s, p) && s.vm.warm.Some?
    ensures var s' := PipelineApply(s, p);
      && s'.vm.warm == s.vm.warm && s'.w.snaps == s.w.snaps && s'.w.images == s.w.images
      && s.log.deletedSnaps <= s'.log.deletedSnaps && s.log.deletedImages <= s'.log.deletedImages
      && s'.log.finalDone == s.log.finalDone && s'.vm.phase == s.vm.phase
  {
  }

  lemma PipelineKeepsLedger(s: State, p: PipelineStep)
    requires StructureOk(s) && PodsOk(s) && LedgerOk(s) && PipelineEnabled(s, p)
    ensures LedgerOk(PipelineApply(s, p))
  {
    PipelineKeepsBooks(s, p);
    PipelineKeepsGenerations(s, p);
    PipelineKeepsClosing(s, p);
    PipelineKeepsInUse(s, p);
  }

  lemma DeltaSnapshotKeepsLedger(s: State)
    requires StructureOk(s) && LedgerOk(s) && DeltaEnabled(s, TakeDeltaSnapshot)
    ensures LedgerOk(DeltaApply(s, TakeDeltaSnapshot))
  {
    var s' := DeltaApply(s, TakeDeltaSnapshot);
    assert s.w.nextId !in s.w.snaps;
    assert HeldSnaps(s'.vm) == HeldSnaps(s.vm) + {s.w.nextId} && HeldImages(s'.vm) == HeldImages(s.vm);
    assert OutstandingSnaps(s') == OutstandingSnaps(s) + {s.w.nextId};
  }

  lemma DeltaImageKeepsLedger(s: State)
    requires StructureOk(s) && LedgerOk(s) && DeltaEnabled(s, ExportDeltaDisk)
    ensures LedgerOk(DeltaApply(s, ExportDeltaDisk))
  {
    var s' := DeltaApply(s, ExportDeltaDisk);
    ElementsAppend(s.vm.warm.value.deltaImages, s.w.nextId);
    assert s.w.nextId !in s.w.images;
    assert s'.w.images.Keys == s.w.images.Keys + {s.w.nextId};
    assert HeldImages(s'.vm) == HeldImages(s.vm) + {s.w.nextId};
    assert OutstandingImages(s') == OutstandingImages(s) + {s.w.nextId};
    assert s.w.nextId !in Elements(s.vm.warm.value.baseImages);
  }

  lemma LaunchKeepsLedger(s: State, regions: seq<Region>)
    requires StructureOk(s) && LedgerOk(s) && CbtAnswer(s, regions)
    ensures LedgerOk(LaunchOrSkip(CountFetch(s, regions), regions))
  {
    var s' := LaunchOrSkip(CountFetch(s, regions), regions);
    assert HeldSnaps(s'.vm) == HeldSnaps(s.vm) && HeldImages(s'.vm) == HeldImages(s.vm);
    var warm := s.vm.warm.value;
    assert warm.deltaImages[warm.diskIdx] in Elements(warm.deltaImages);
  }

  lemma CollectKeepsLedger(s: State)
    requires StructureOk(s) && LedgerOk(s) && PodCollectable(s)
    ensures LedgerOk(NextDisk(DropPod(s)))
  {
    var s' := NextDisk(DropPod(s));
    assert HeldSnaps(s'.vm) == HeldSnaps(s.vm) && HeldImages(s'.vm) == HeldImages(s.vm);
  }

  lemma PromoteKeepsLedger(s: State)
    requires StructureOk(s) && PodsOk(s) && LedgerOk(s) && DeltaEnabled(s, FinishRound)
    ensures LedgerOk(PromoteDelta(s))
  {
    var s' := PromoteDelta(s);
    assert OutstandingSnaps(s') == OutstandingSnaps(s) - Singleton(s.vm.warm.value.baseSnap);
    assert OutstandingImages(s') == OutstandingImages(s) - Elements(s.vm.warm.value.baseImages);
  }

  lemma FinalKeepsLedger(s: State)
    requires StructureOk(s) && PodsOk(s) && LedgerOk(s) && DeltaEnabled(s, FinishFinal)
    ensures LedgerOk(FinishFinalSync(s))
  {
    var s', warm := FinishFinalSync(s), s.vm.warm.value;
    assert OutstandingSnaps(s') == OutstandingSnaps(s) - Singleton(warm.baseSnap) - Singleton(warm.deltaSnap);
    assert OutstandingImages(s') == OutstandingImages(s) - Elements(warm.baseImages) - Elements(warm.deltaImages);
    assert HeldImages(s.vm) == Elements(s.vm.images) + Elements(warm.baseImages) + Elements(warm.deltaImages);
    assert Elements([]) == {};
  }

  lemma ReadKeepsLedger(s: State, d: DeltaStep)
    requires LedgerOk(s) && DeltaEnabled(s, d) && d.ReadPod?
    ensures LedgerOk(DeltaApply(s, d))
  {
  }

  lemma DeltaKeepsLedger(s: State, d: DeltaStep)
    requires StructureOk(s) && PodsOk(s) && LedgerOk(s) && DeltaEnabled(s, d)
    ensures LedgerOk(DeltaApply(s, d))
  {
    match d
    case TakeDeltaSnapshot => DeltaSnapshotKeepsLedger(s);
    case ExportDeltaDisk => DeltaImageKeepsLedger(s);
    case SyncDisk(regions) => LaunchKeepsLedger(s, regions);
    case CollectPod => CollectKeepsLedger(s);
    case SyncDiskFail(regions) => FailKeepsLedger(CountFetch(s, regions));
    case CollectPodFail => FailKeepsLedger(DropPod(s));
    case FinishRound => PromoteKeepsLedger(s);
    case FinishFinal => FinalKeepsLedger(s);
    case ReadPod(_) => ReadKeepsLedger(s, d);
  }

  lemma StepKeepsLedger(s: State, a: Step)
    requires StructureOk(s) && PodsOk(s) && LedgerOk(s) && Enabled(s, a)
    ensures LedgerOk(Apply(s, a))
  {
    match a
    case Life(l) => LifeKeepsLedger(s, l);
    case Pipeline(p) => PipelineKeepsLedger(s, p);
    case Delta(d) => DeltaKeepsLedger(s, d);
    case Env(e) => EnvKeepsLedger(s, e);
  }

  lemma NothingOutstanding(s: State)
    requires OutstandingSnaps(s) == {} && OutstandingImages(s) == {}
    ensures s.w.snaps.Keys <= s.log.deletedSnaps && s.w.images.Keys <= s.log.deletedImages
  {
    assert forall id :: id in s.w.snaps.Keys && id !in s.log.deletedSnaps ==> id in OutstandingSnaps(s);
    assert forall id :: id in s.w.images.Keys && id !in s.log.deletedImages ==> id in OutstandingImages(s);
  }

  lemma FinishedBooksBalance(s: State)
    requires BooksOk(s) && ClosingOk(s) && (s.vm.phase == Completed || s.vm.phase == Failed)
    ensures s.log.deletedSnaps == s.w.snaps.Keys && s.log.deletedImages == s.w.images.Keys
  {
    NothingOutstanding(s);
  }
}
