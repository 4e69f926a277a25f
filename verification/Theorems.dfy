/**
 The guarantees over whole runs of one VM: for any guest writes, any answers of
 the APIs, any pod and DataVolume progress, any edits of the cutover time and
 any cancellation, in any order the machine allows.
 */
module Theorems {
  import opened Wrappers
  import opened Phases
  import opened Disks
  import opened Machine
  import opened Structure
  import opened Power
  import opened Convergence
  import opened Ledger
  import opened Rounds
  import opened Departure

  ghost predicate Inv(s: State) {
    && StructureOk(s) && CommandsOk(s) && CopiesOk(s)
    && ConvergenceOk(s) && PodsOk(s) && LedgerOk(s) && CourseOk(s) && DepartureOk(s)
  }

  lemma StepKeepsInv(s: State, a: Step)
    requires Inv(s) && Enabled(s, a)
    ensures Inv(Apply(s, a))
  {
    StepKeepsStructure(s, a);
    StepKeepsPower(s, a);
    StepKeepsConvergence(s, a);
    StepKeepsPods(s, a);
    StepKeepsLedger(s, a);
    StepKeepsCourse(s, a);
    StepKeepsDeparture(s, a);
  }

  lemma {:induction false} RunKeepsInv(s: State, steps: seq<Step>, t: State)
    requires Inv(s) && Run(s, steps, t)
    ensures Inv(t)
    decreases |steps|
  {
    if steps != [] {
      assert RunOn(s, steps, t);
      StepKeepsInv(s, steps[0]);
      RunKeepsInv(Apply(s, steps[0]), steps[1..], t);
    }
  }

  lemma ReachesKeepsInv(s: State, t: State)
    requires Inv(s) && Reaches(s, t)
    ensures Inv(t)
  {
    var steps :| Run(s, steps, t);
    RunKeepsInv(s, steps, t);
  }

  lemma ReachableInv(t: State)
    requires Reachable(t)
    ensures Inv(t)
  {
    var s :| Init(s) && Reaches(s, t);
    InitStructure(s);
    InitPower(s);
    InitConvergence(s);
    InitLedger(s);
    InitCourse(s);
    InitDeparture(s);
    ReachesKeepsInv(s, t);
  }

  // ----- Convergence -----

  /** The time up to which the target disks are known to agree when the target VM is built. */
  ghost function SyncTime(s: State): int {
    if s.cfg.warm then s.log.syncTime
    else if s.vm.snapshot.Some? && s.vm.snapshot.value in s.w.snaps then s.w.snaps[s.vm.snapshot.value]
    else -1
  }

  /**
   From CreateVM until the target is started and writes to its own disks, every
   target disk has the live value of every byte not written since the snapshot of
   the last round; and unless Precopy was left in the middle of a round, that is
   every byte of every disk.
   */
  lemma TargetEqualsSource(t: State)
    requires Reachable(t) && OnTrack(t) && Rank(t.vm.phase) >= Rank(CreateVM) && t.w.target != Started
    ensures |t.w.dvs| == |t.w.disks|
    ensures forall d :: 0 <= d < |t.w.disks| ==> Agrees(t.w.disks[d], t.w.dvs[d].bytes, SyncTime(t))
    ensures !t.log.midRound ==> forall d :: 0 <= d < |t.w.disks| ==> t.w.dvs[d].bytes == t.w.disks[d].live
  {
    assert StructureOk(t) && ConvergenceOk(t) by { ReachableInv(t); }
    forall d | 0 <= d < |t.w.disks|
      ensures Agrees(t.w.disks[d], t.w.dvs[d].bytes, SyncTime(t))
      ensures !t.log.midRound ==> t.w.dvs[d].bytes == t.w.disks[d].live
    {
      BuiltDiskAgrees(t, d);
    }
  }

  lemma BuiltDiskAgrees(t: State, d: nat)
    requires StructureOk(t) && OnTrack(t) && VolumesOk(t) && QuietOk(t)
    requires Rank(t.vm.phase) >= Rank(CreateVM) && t.w.target != Started && d < |t.w.disks|
    ensures |t.w.dvs| == |t.w.disks| && Agrees(t.w.disks[d], t.w.dvs[d].bytes, SyncTime(t))
    ensures !t.log.midRound ==> t.w.dvs[d].bytes == t.w.disks[d].live
  {
    assert SyncedTo(t, d) == SyncTime(t);
    if !t.log.midRound {
      QuietAgreementIsEquality(t.w.disks[d], t.w.dvs[d].bytes, SyncTime(t));
    }
  }

  /**
   The round invariant, in every reachable state of a delta round: disks the
   round is past agree up to the delta snapshot, the others (also one with a
   half-finished pod) up to the base snapshot.
   */
  lemma RoundInvariant(t: State)
    requires Reachable(t) && (t.vm.phase == Precopy || t.vm.phase == FinalSync) && !t.log.finalDone
    ensures t.vm.warm.Some? && |t.w.dvs| == |t.w.disks|
    ensures var warm := t.vm.warm.value;
      && warm.baseSnap.Some? && warm.baseSnap.value in t.w.snaps
      && (warm.deltaSnap.Some? ==> warm.deltaSnap.value in t.w.snaps)
      && forall d :: 0 <= d < |t.w.disks| ==>
           Agrees(t.w.disks[d], t.w.dvs[d].bytes,
                  if warm.deltaSnap.Some? && d < warm.diskIdx then t.w.snaps[warm.deltaSnap.value]
                  else t.w.snaps[warm.baseSnap.value])
  {
    assert StructureOk(t) && ConvergenceOk(t) by { ReachableInv(t); }
    var warm := t.vm.warm.value;
    forall d | 0 <= d < |t.w.disks|
      ensures Agrees(t.w.disks[d], t.w.dvs[d].bytes,
                     if warm.deltaSnap.Some? && d < warm.diskIdx then t.w.snaps[warm.deltaSnap.value]
                     else t.w.snaps[warm.baseSnap.value])
    {
      assert SyncedTo(t, d) == if warm.deltaSnap.Some? && d < warm.diskIdx then t.w.snaps[warm.deltaSnap.value]
                               else t.w.snaps[warm.baseSnap.value];
    }
  }

  // ----- Resource ledger -----

  /**
   Snapshots and images created and not yet requested for deletion are named by
   the status, of a warm VM in the course of its rounds only as the base or as the
   round in progress, and there are none after the final sync; a Completed or Failed
   VM has requested deletion of exactly what was created; a failed one also of all
   its DataVolumes, and only a failed one.
   */
  lemma LedgerTheorem(t: State)
    requires Reachable(t)
    ensures t.log.deletedSnaps <= t.w.snaps.Keys && t.log.deletedImages <= t.w.images.Keys
    ensures t.w.snaps.Keys - t.log.deletedSnaps <= HeldSnaps(t.vm)
    ensures t.w.images.Keys - t.log.deletedImages <= HeldImages(t.vm)
    ensures OnTrack(t) && t.vm.warm.Some? && !t.log.finalDone ==>
      var warm := t.vm.warm.value;
      && t.w.snaps.Keys - t.log.deletedSnaps <= Singleton(warm.baseSnap) + Singleton(warm.deltaSnap)
      && t.w.images.Keys - t.log.deletedImages <= Elements(warm.baseImages) + Elements(warm.deltaImages)
    ensures OnTrack(t) && t.vm.warm.Some? && t.log.finalDone ==>
      t.w.snaps.Keys <= t.log.deletedSnaps && t.w.images.Keys <= t.log.deletedImages
    ensures t.vm.phase == Completed || t.vm.phase == Failed ==>
              t.log.deletedSnaps == t.w.snaps.Keys && t.log.deletedImages == t.w.images.Keys
    ensures t.log.deletedDvs == if t.vm.phase == Failed then t.vm.dvNames else 0
  {
    assert LedgerOk(t) by { ReachableInv(t); }
    if OnTrack(t) && t.vm.warm.Some? && t.log.finalDone {
      NothingOutstanding(t);
    }
    if t.vm.phase == Completed || t.vm.phase == Failed {
      FinishedBooksBalance(t);
    }
  }

  /**
   Nothing is used after its deletion was requested: neither snapshot of a
   change query, nor the image behind an importing DataVolume or an active pod
   of a VM that has not failed. At most one pod is active, the one the status
   names, and none from CreateVM on.
   */
  lemma NoUseAfterDelete(t: State, regions: seq<Region>)
    requires Reachable(t)
    ensures Enabled(t, Delta(SyncDisk(regions))) ==>
      && t.vm.warm.value.baseSnap.value !in t.log.deletedSnaps
      && t.vm.warm.value.deltaSnap.value !in t.log.deletedSnaps
      && t.vm.warm.value.deltaImages[t.vm.warm.value.diskIdx] !in t.log.deletedImages
    ensures t.vm.phase != Failed ==> forall k :: 0 <= k < |t.w.dvs| && t.w.dvs[k].phase == DvRunning ==>
      t.w.dvs[k].image !in t.log.deletedImages
    ensures t.vm.phase != Failed ==> forall name :: name in t.w.pods && t.w.pods[name].phase == PodActive ==>
      t.w.pods[name].image !in t.log.deletedImages
    ensures forall a, b :: a in t.w.pods && b in t.w.pods && t.w.pods[a].phase == t.w.pods[b].phase == PodActive ==>
      a == b
    ensures OnTrack(t) && Rank(t.vm.phase) >= Rank(CreateVM) ==>
      forall name :: name in t.w.pods ==> t.w.pods[name].phase != PodActive
  {
    assert StructureOk(t) && PodsOk(t) && InUseOk(t) by { ReachableInv(t); }
    if Enabled(t, Delta(SyncDisk(regions))) {
      QueryUsesNothingDeleted(t, regions);
    }
  }

  lemma QueryUsesNothingDeleted(t: State, regions: seq<Region>)
    requires RoundUseOk(t) && CbtAnswer(t, regions) && !t.log.finalDone
    ensures var warm := t.vm.warm.value;
      && warm.baseSnap.value !in t.log.deletedSnaps && warm.deltaSnap.value !in t.log.deletedSnaps
      && warm.deltaImages[warm.diskIdx] !in t.log.deletedImages
  {
    var warm := t.vm.warm.value;
    assert warm.baseSnap.value in Singleton(warm.baseSnap);
    assert warm.deltaSnap.value in Singleton(warm.deltaSnap);
    assert warm.deltaImages[warm.diskIdx] in Elements(warm.deltaImages);
  }

  /**
   Deletion was requested of every delta pod but the one the status names, and of
   every one once the VM is Completed or Failed, or on track from CreateVM on.
   */
  lemma PodLedger(t: State)
    requires Reachable(t)
    ensures forall name :: name in t.w.pods && t.w.pods[name].phase != PodDeleted ==>
      t.vm.warm.Some? && t.vm.warm.value.deltaPod == Some(name)
    ensures t.vm.phase == Completed || t.vm.phase == Failed || (OnTrack(t) && Rank(t.vm.phase) >= Rank(CreateVM)) ==>
      forall name :: name in t.w.pods ==> t.w.pods[name].phase == PodDeleted
  {
    assert StructureOk(t) && PodsOk(t) by { ReachableInv(t); }
  }

  // ----- Leaving Precopy -----

  /**
   In every state past Precopy, the pod that was named when Precopy was left had
   been read, and not as active; so if it is still active, that read had failed.
   */
  lemma LeavesNoActivePod(t: State)
    requires Reachable(t) && t.cfg.warm && OnTrack(t) && Rank(Precopy) < Rank(t.vm.phase)
    ensures t.log.leftPod.Some? ==>
      && t.log.podRead.Some? && t.log.podRead.value.name == t.log.leftPod.value
      && t.log.podRead.value.seen != SeenActive
      && (t.log.leftPod.value in t.w.pods && t.w.pods[t.log.leftPod.value].phase == PodActive ==>
            t.log.podRead.value.seen == SeenUnknown)
    ensures Rank(t.vm.phase) < Rank(FinalSync) && t.vm.warm.Some? ==> t.log.leftPod == t.vm.warm.value.deltaPod
  {
    assert DepartureOk(t) by { ReachableInv(t); }
  }

  // ----- Power -----

  /**
   OriginalPowerState is the state seen before the first PowerOff; a source that
   was OFF never receives a power command; a Failed VM that was ON has exactly
   one PowerOn, after its last PowerOff; no other VM ever has one. A VM that got past
   PowerOff had exactly one PowerOff, unless it was OFF.
   */
  lemma PowerRestored(t: State)
    requires Reachable(t)
    ensures t.log.commands != [] ==> t.log.observed == Some(t.vm.original)
    ensures t.vm.original == Off ==> t.log.commands == []
    ensures t.vm.phase == Failed && t.vm.original == On ==>
      && t.log.commands != [] && Last(t.log.commands).PowerOnCommand?
      && OnlyPowerOffs(t.log.commands[..|t.log.commands| - 1])
    ensures !(t.vm.phase == Failed && t.vm.original == On) ==> OnlyPowerOffs(t.log.commands)
    ensures OnTrack(t) && Rank(t.vm.phase) > Rank(PowerOff) ==>
      |t.log.commands| == if t.vm.original == Off then 0 else 1
  {
    ReachableInv(t);
  }

  /**
   The target is only ever started after the source was seen off, and both can
   be on only for a VM that failed in PostHook, was ON and was to be started.
   */
  lemma TwoLiveCopies(t: State)
    requires Reachable(t)
    ensures t.w.target == Started ==> t.log.offSeen
    ensures t.w.target == Started && t.w.power != Off ==>
      && t.vm.phase == Failed && t.log.failedIn == Some(PostHook)
      && t.vm.original == On && t.cfg.startTarget
  {
    ReachableInv(t);
  }

  /** Once past StartVM, the target runs exactly if it is to be started. */
  lemma TargetRuns(t: State)
    requires Reachable(t) && OnTrack(t) && Rank(t.vm.phase) > Rank(StartVM)
    ensures t.w.target == if t.cfg.startTarget then Started else Halted
  {
    assert PowerOk(t) && CopiesOk(t) by { ReachableInv(t); }
  }

  // ----- Course -----

  /** The phase history is a prefix of the plan's order, then possibly Failed or Cancelled. */
  lemma HistoryFollowsOrder(t: State, order: seq<Phase>)
    requires Reachable(t) && order == Order(t.cfg.warm)
    ensures t.log.history != [] && Last(t.log.history) == t.vm.phase
    ensures if t.vm.phase == Failed || t.vm.phase == Cancelled
            then IsPrefix(t.log.history[..|t.log.history| - 1], order)
            else IsPrefix(t.log.history, order)
  {
    ReachableInv(t);
    HistoryIsPrefix(t, order);
  }

  lemma EndedTakesNoStep(s: State, a: Step)
    requires IsTerminal(s.vm.phase) && Enabled(s, a)
    ensures a.Env?
  {
  }

  /** Once Completed, Failed or Cancelled, the controller never touches the VM again. */
  lemma {:induction false} TerminalIsAbsorbing(s: State, steps: seq<Step>, t: State)
    requires IsTerminal(s.vm.phase) && Run(s, steps, t)
    ensures t.vm == s.vm && t.log == s.log
    decreases |steps|
  {
    if steps != [] {
      assert RunOn(s, steps, t);
      EndedTakesNoStep(s, steps[0]);
      TerminalIsAbsorbing(Apply(s, steps[0]), steps[1..], t);
    }
  }

  /**
   A warm VM gets no PowerOff before the cutover time it left Precopy for; it
   does at most the configured number of rounds; and successive rounds complete
   at least the interval apart.
   */
  lemma PrecopyDiscipline(t: State)
    requires Reachable(t)
    ensures t.cfg.warm ==> forall i :: 0 <= i < |t.log.commands| && t.log.commands[i].PowerOffCommand? ==>
      t.log.leftPrecopyAt.Some? && t.log.leftPrecopyAt.value < t.log.commands[i].at
    ensures t.vm.warm.Some? ==>
      && t.vm.warm.value.rounds == |t.log.roundTimes|
      && (t.vm.warm.value.rounds == 0 || t.vm.warm.value.rounds <= t.cfg.maxRounds)
    ensures forall i, j :: 0 <= i < j < |t.log.roundTimes| && j == i + 1 ==>
      t.log.roundTimes[j] - t.log.roundTimes[i] >= t.cfg.interval
  {
    ReachableInv(t);
  }

  /**
   CumulativeBytes plus DeltaBytes is the total length of all regions ever
   fetched, and no disk is fetched twice in a round. DeltaBytes is what the round in
   progress fetched, LastDeltaBytes what the round completed last fetched.
   */
  lemma BytesConserved(t: State)
    requires Reachable(t)
    ensures t.vm.warm.Some? ==>
      t.vm.warm.value.cumulativeBytes + t.vm.warm.value.deltaBytes == FetchedBytes(t.log.fetches)
    ensures t.vm.warm.Some? && !t.log.finalDone ==>
      && t.vm.warm.value.deltaBytes == RoundBytes(t.log.fetches, t.vm.warm.value.rounds)
      && t.vm.warm.value.lastDeltaBytes ==
         if t.vm.warm.value.rounds == 0 then 0 else RoundBytes(t.log.fetches, t.vm.warm.value.rounds - 1)
    ensures t.vm.warm.Some? && t.log.finalDone ==>
      && t.vm.warm.value.deltaBytes == 0
      && t.vm.warm.value.lastDeltaBytes == RoundBytes(t.log.fetches, t.vm.warm.value.rounds)
    ensures t.vm.warm.None? ==> t.log.fetches == []
    ensures forall i, j :: 0 <= i < j < |t.log.fetches| ==>
      t.log.fetches[i].round != t.log.fetches[j].round || t.log.fetches[i].disk != t.log.fetches[j].disk
  {
    ReachableInv(t);
  }
}
