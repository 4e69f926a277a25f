/**
 Cutover in the middle of a precopy round. FinalSync takes a snapshot of its own
 only when no delta snapshot is set, so what Precopy leaves behind decides
 whether the target can still miss writes made before the power-off.
 */
module Cutover {
  import opened Wrappers
  import opened Phases
  import opened Disks
  import opened Machine
  import opened Structure
  import opened Power
  import opened Convergence
  import opened Theorems

  /** A cutover that Precopy acts on. Handlers are entered and left with the round's exports complete. */
  ghost predicate AtCutover(t: State) {
    t.vm.phase == Precopy && Done(t) && RoundRests(t)
  }

  /** The delta pod that the status names has failed. */
  ghost predicate PodHasFailed(s: State) {
    && s.vm.warm.Some? && s.vm.warm.value.deltaPod.Some? && s.vm.warm.value.deltaPod.value in s.w.pods
    && s.w.pods[s.vm.warm.value.deltaPod.value].phase == PodFailed
  }

  ghost predicate NoBytes(s: State) {
    forall d :: 0 <= d < |s.w.disks| ==> s.w.disks[d].live == []
  }

  ghost predicate Converged(s: State) {
    && |s.w.dvs| == |s.w.disks|
    && forall d :: 0 <= d < |s.w.disks| ==> s.w.dvs[d].bytes == s.w.disks[d].live
  }

  /** A target VM is being built or is built and not yet started. */
  ghost predicate Built(s: State) {
    OnTrack(s) && Rank(s.vm.phase) >= Rank(CreateVM) && s.w.target != Started
  }

  /** Every way of going on that gets to build the target builds it from equal disks. */
  ghost predicate AlwaysConverges(s: State) {
    forall u :: Reaches(s, u) && Built(u) ==> Converged(u)
  }

  // ----- FinalSync can finish a round that Precopy left open -----

  /** A round left open, with the first byte of disk d's target among v and g. */
  ghost predicate RoundOpen(s: State, d: nat, v: Byte, g: Byte) {
    && s.vm.phase == FinalSync && !s.log.finalDone && s.vm.warm.Some?
    && var warm := s.vm.warm.value;
    && warm.deltaSnap.Some? && |warm.deltaImages| == |s.w.disks|
    && d < |s.w.disks| == |s.w.dvs| && |s.w.dvs[d].bytes| > 0
    && warm.deltaImages[d] in s.w.images && |s.w.images[warm.deltaImages[d]].bytes| > 0
    && s.w.images[warm.deltaImages[d]].bytes[0] == g
    && (s.w.dvs[d].bytes[0] == v || s.w.dvs[d].bytes[0] == g)
  }

  ghost predicate Finishing(s: State, d: nat, v: Byte, g: Byte) {
    Reachable(s) && RoundOpen(s, d, v, g)
  }

  /** What finishing it leads to. */
  ghost predicate FinishedWith(u: State, s: State, d: nat, v: Byte, g: Byte) {
    && u.vm.phase == CreateVM && u.w.disks == s.w.disks && u.w.target == s.w.target && d < |u.w.dvs|
    && |u.w.dvs[d].bytes| > 0 && (u.w.dvs[d].bytes[0] == v || u.w.dvs[d].bytes[0] == g)
  }

  ghost predicate PodOpen(s: State) {
    && s.vm.warm.Some? && s.vm.warm.value.deltaPod.Some? && s.vm.warm.value.deltaPod.value in s.w.pods
    && s.w.pods[s.vm.warm.value.deltaPod.value].phase == PodActive
  }

  /** The open pod has copied its regions below offset o. */
  ghost predicate CopiedBelow(s: State, o: nat)
    requires PodOpen(s)
  {
    var pod := s.w.pods[s.vm.warm.value.deltaPod.value];
    forall x :: 0 <= x < o && InRegions(pod.regions, x) ==> x in pod.copied
  }

  /** The open pod writes the current disk from the round's image, which has the disk's size. */
  ghost predicate PodFits(s: State)
    requires PodOpen(s)
  {
    var warm := s.vm.warm.value;
    var pod := s.w.pods[warm.deltaPod.value];
    && pod.disk == warm.diskIdx < |s.w.dvs| && pod.disk < |warm.deltaImages|
    && pod.image == warm.deltaImages[pod.disk] && pod.image in s.w.images
    && |s.w.dvs[pod.disk].bytes| == |s.w.images[pod.image].bytes|
  }

  lemma OpenPodFits(s: State, d: nat, v: Byte, g: Byte)
    requires Finishing(s, d, v, g) && PodOpen(s)
    ensures PodFits(s)
  {
    ReachableInv(s);
    var warm := s.vm.warm.value;
    var pod := s.w.pods[warm.deltaPod.value];
    assert CurrentPodOk(s) && DeltaImagesOk(s) && VolumesOk(s);
    assert Agrees(s.w.disks[warm.diskIdx], s.w.images[pod.image].bytes, s.w.snaps[warm.deltaSnap.value]);
  }

  lemma CopyKeepsOpen(s: State, o: nat, d: nat, v: Byte, g: Byte)
    requires RoundOpen(s, d, v, g) && PodOpen(s) && PodFits(s)
    requires EnvEnabled(s, PodCopies(s.vm.warm.value.deltaPod.value, o))
    ensures RoundOpen(s.(w := EnvApply(s, PodCopies(s.vm.warm.value.deltaPod.value, o))), d, v, g)
  {
  }

  /** u is a later state of the same round, with the same disks. */
  ghost predicate SameRound(s: State, u: State) {
    && u.vm == s.vm && u.w.disks == s.w.disks && u.w.target == s.w.target && |u.w.dvs| == |s.w.dvs|
    && forall k :: 0 <= k < |s.w.dvs| ==> |u.w.dvs[k].bytes| == |s.w.dvs[k].bytes|
  }

  lemma CopyOne(s: State, o: nat, d: nat, v: Byte, g: Byte) returns (u: State)
    requires Finishing(s, d, v, g) && PodOpen(s) && PodFits(s)
    requires o < |s.w.dvs[s.vm.warm.value.diskIdx].bytes| && CopiedBelow(s, o)
    ensures Reaches(s, u) && Finishing(u, d, v, g) && SameRound(s, u) && PodOpen(u) && PodFits(u)
    ensures CopiedBelow(u, o + 1)
  {
    var name := s.vm.warm.value.deltaPod.value;
    if InRegions(s.w.pods[name].regions, o) {
      CopyKeepsOpen(s, o, d, v, g);
      u := StepOn(s, Env(PodCopies(name, o)));
    } else {
      ReachesSelf(s);
      u := s;
    }
  }

  lemma {:induction false} CopyRest(s: State, o: nat, d: nat, v: Byte, g: Byte) returns (u: State)
    requires Finishing(s, d, v, g) && PodOpen(s) && PodFits(s)
    requires o <= |s.w.dvs[s.vm.warm.value.diskIdx].bytes| && CopiedBelow(s, o)
    ensures Reaches(s, u) && Finishing(u, d, v, g) && SameRound(s, u) && PodCollectable(u)
    decreases |s.w.dvs[s.vm.warm.value.diskIdx].bytes| - o
  {
    if o == |s.w.dvs[s.vm.warm.value.diskIdx].bytes| {
      u := StepOn(s, Env(PodSucceeds(s.vm.warm.value.deltaPod.value)));
    } else {
      var t := CopyOne(s, o, d, v, g);
      u := CopyRest(t, o + 1, d, v, g);
      ReachesTrans(s, t, u);
    }
  }

  lemma CollectOne(s: State, d: nat, v: Byte, g: Byte) returns (u: State)
    requires Finishing(s, d, v, g) && PodCollectable(s)
    ensures Reaches(s, u) && Finishing(u, d, v, g) && u.w.disks == s.w.disks && u.w.target == s.w.target
    ensures u.vm.warm.value.deltaPod.None? && u.vm.warm.value.diskIdx == s.vm.warm.value.diskIdx + 1
  {
    u := StepOn(s, Delta(CollectPod));
  }

  /** The whole disk is always a correct answer. */
  lemma WholeDiskAnswers(s: State, d: nat, v: Byte, g: Byte) returns (whole: seq<Region>)
    requires Finishing(s, d, v, g) && s.vm.warm.value.deltaPod.None? && s.vm.warm.value.diskIdx < |s.w.disks|
    ensures whole != [] && CbtAnswer(s, whole)
    ensures PodName(CurrentLabel(s), s.vm.warm.value.diskIdx) !in s.w.pods
  {
    ReachableInv(s);
    NewPodIsNew(s);
    var disk := s.w.disks[s.vm.warm.value.diskIdx];
    whole := [Region(0, |disk.live|)];
    forall o | 0 <= o < |disk.live|
      ensures InRegions(whole, o)
    {
      assert whole[0] in whole && InRegion(whole[0], o);
    }
  }

  /** Query the next disk and start its pod. */
  lemma LaunchOne(s: State, d: nat, v: Byte, g: Byte) returns (u: State)
    requires Finishing(s, d, v, g) && s.vm.warm.value.deltaPod.None? && s.vm.warm.value.diskIdx < |s.w.disks|
    ensures Reaches(s, u) && Finishing(u, d, v, g) && PodOpen(u) && u.w.disks == s.w.disks && u.w.target == s.w.target
    ensures u.vm.warm.value.diskIdx == s.vm.warm.value.diskIdx
  {
    var whole := WholeDiskAnswers(s, d, v, g);
    u := StepOn(s, Delta(SyncDisk(whole)));
  }

  lemma CloseSync(s: State, d: nat, v: Byte, g: Byte) returns (u: State)
    requires Finishing(s, d, v, g) && s.vm.warm.value.deltaPod.None? && s.vm.warm.value.diskIdx >= |s.w.disks|
    requires s.cfg.warm
    ensures Reaches(s, u) && FinishedWith(u, s, d, v, g)
  {
    var t := StepOn(s, Delta(FinishFinal));
    u := StepOn(t, Life(Advance));
    ReachesTrans(s, t, u);
  }

  /** The pod of the current disk is brought to its end and collected. */
  lemma FinishPod(s: State, d: nat, v: Byte, g: Byte) returns (u: State)
    requires Finishing(s, d, v, g) && (PodOpen(s) || PodCollectable(s))
    ensures Reaches(s, u) && Finishing(u, d, v, g) && u.w.disks == s.w.disks && u.w.target == s.w.target
    ensures u.vm.warm.value.deltaPod.None? && u.vm.warm.value.diskIdx == s.vm.warm.value.diskIdx + 1
  {
    var c := s;
    ReachesSelf(s);
    if PodOpen(s) {
      OpenPodFits(s, d, v, g);
      assert CopiedBelow(s, 0);
      c := CopyRest(s, 0, d, v, g);
    }
    u := CollectOne(c, d, v, g);
    ReachesTrans(s, c, u);
  }

  /** From any open round, FinalSync can be brought to its end without touching the source disks. */
  lemma {:induction false} FinishSync(s: State, d: nat, v: Byte, g: Byte) returns (u: State)
    requires Finishing(s, d, v, g) && s.cfg.warm
    requires s.vm.warm.value.deltaPod.Some? ==> PodOpen(s) || PodCollectable(s)
    ensures Reaches(s, u) && FinishedWith(u, s, d, v, g)
    decreases |s.w.disks| - s.vm.warm.value.diskIdx
  {
    if s.vm.warm.value.deltaPod.None? && s.vm.warm.value.diskIdx >= |s.w.disks| {
      u := CloseSync(s, d, v, g);
    } else {
      var t := s;
      ReachesSelf(s);
      if s.vm.warm.value.deltaPod.None? {
        t := LaunchOne(s, d, v, g);
      }
      DiskIsNext(t, d, v, g);
      var n := FinishPod(t, d, v, g);
      ReachesTrans(s, t, n);
      ConfigStays(s, n);
      u := FinishSync(n, d, v, g);
      ReachesTrans(s, n, u);
    }
  }

  lemma DiskIsNext(s: State, d: nat, v: Byte, g: Byte)
    requires Finishing(s, d, v, g) && s.vm.warm.value.deltaPod.Some?
    ensures s.vm.warm.value.diskIdx < |s.w.disks|
  {
    ReachableInv(s);
  }

  // ----- From leaving Precopy to FinalSync, with one last guest write -----

  /** One more guest write; a source that is off is switched on for it. */
  lemma WriteOnce(t: State, d: nat, b: Byte) returns (s: State)
    requires Reachable(t) && !t.log.offSeen
    requires d < |t.w.disks| && |t.w.disks[d].stamp| == |t.w.disks[d].live| > 0
    ensures Reaches(t, s) && Reachable(s) && s.cfg == t.cfg && s.vm == t.vm && s.log == t.log
    ensures s.w == t.w.(power := s.w.power, disks := t.w.disks[d := Write(t.w.disks[d], 0, b, t.w.clock)])
  {
    var m := StepOn(t, Env(OutsidePower(On)));
    s := StepOn(m, Env(GuestWrite(d, 0, b)));
    ReachesTrans(t, m, s);
  }

  lemma CommandedOff(t: State) returns (s: State)
    requires Reachable(t) && t.vm.phase == PowerOff && t.log.commands == []
    ensures Reaches(t, s) && Reachable(s) && s.vm == t.vm.(phase := WaitForPowerOff) && s.w == t.w && s.cfg == t.cfg
    ensures s.log == t.log.(commands := s.log.commands, history := s.log.history)
  {
    var m := t;
    ReachesSelf(t);
    if t.vm.original != Off {
      m := StepOn(t, Pipeline(CommandPowerOff));
    }
    s := StepOn(m, Life(Advance));
    ReachesTrans(t, m, s);
  }

  lemma SeenOff(t: State) returns (s: State)
    requires Reachable(t) && t.vm.phase == WaitForPowerOff && !t.log.offSeen
    ensures Reaches(t, s) && Reachable(s) && s.cfg == t.cfg && s.w == t.w.(power := Off)
    ensures s.vm == t.vm.(phase := if t.cfg.warm then FinalSync else CreateSnapshot)
    ensures s.log == t.log.(offSeen := true, history := s.log.history)
  {
    var m := StepOn(t, Env(OutsidePower(Off)));
    var n := StepOn(m, Pipeline(SeeOff));
    ReachesTrans(t, m, n);
    s := StepOn(n, Life(Advance));
    ReachesTrans(t, n, s);
  }

  lemma OtherByte(v: Byte, g: Byte) returns (b: Byte)
    ensures b != v && b != g
  {
    b := if v != 0 && g != 0 then 0 else if v != 1 && g != 1 then 1 else 2;
  }

  /** What is known of a state in Precopy in the middle of a round. */
  lemma MidRoundFacts(t: State, d: nat)
    requires Reachable(t) && AtCutover(t) && t.vm.warm.value.deltaSnap.Some? && d < |t.w.disks|
    ensures t.cfg.warm && !t.log.offSeen && !t.log.finalDone && t.log.commands == [] && t.w.target == NoTarget
    ensures |t.w.dvs| == |t.w.disks| && |t.w.dvs[d].bytes| == |t.w.disks[d].live| == |t.w.disks[d].stamp|
    ensures t.vm.warm.value.deltaImages[d] in t.w.images
    ensures |t.w.images[t.vm.warm.value.deltaImages[d]].bytes| == |t.w.disks[d].live|
    ensures t.vm.warm.value.deltaPod.Some? ==> PodOpen(t) || PodCollectable(t) || PodHasFailed(t)
  {
    assert StructureOk(t) && ConvergenceOk(t) && RestoreOk(t) by { ReachableInv(t); }
    assert DeltaImagesOk(t) && VolumesOk(t) && CurrentPodOk(t);
    assert Agrees(t.w.disks[d], t.w.dvs[d].bytes, SyncedTo(t, d));
  }

  /** Left in the middle of a round, some continuation builds the target from a stale disk. */
  lemma MidRoundDiverges(t: State, d: nat) returns (u: State)
    requires Reachable(t) && AtCutover(t) && t.vm.warm.value.deltaSnap.Some? && !PodHasFailed(t)
    requires d < |t.w.disks| && |t.w.disks[d].live| > 0
    ensures Reaches(AdvancePhase(t), u) && u.vm.phase == CreateVM && u.w.target == NoTarget && !Converged(u)
  {
    MidRoundFacts(t, d);
    var warm := t.vm.warm.value;
    var v, g := t.w.dvs[d].bytes[0], t.w.images[warm.deltaImages[d]].bytes[0];
    var b := OtherByte(v, g);
    var s0 := StepOn(t, Life(Advance));
    var s := WriteAndSwitchOff(s0, d, b);
    assert RoundOpen(s, d, v, g);
    u := FinishSync(s, d, v, g);
    ReachesTrans(s0, s, u);
    assert u.w.disks[d].live[0] == b;
  }

  lemma WriteAndSwitchOff(t: State, d: nat, b: Byte) returns (s: State)
    requires Reachable(t) && t.vm.phase == PowerOff && !t.log.offSeen && t.log.commands == [] && t.cfg.warm
    requires d < |t.w.disks| && |t.w.disks[d].stamp| == |t.w.disks[d].live| > 0
    ensures Reaches(t, s) && Reachable(s) && s.cfg == t.cfg && s.vm == t.vm.(phase := FinalSync)
    ensures s.log.finalDone == t.log.finalDone
    ensures s.w == t.w.(power := Off, disks := t.w.disks[d := Write(t.w.disks[d], 0, b, t.w.clock)])
  {
    var s1 := WriteOnce(t, d, b);
    var s2 := CommandedOff(s1);
    ReachesTrans(t, s1, s2);
    s := SeenOff(s2);
    ReachesTrans(t, s2, s);
  }

  // ----- With a failed pod FinalSync never completes -----

  ghost predicate StuckOnPod(s: State) {
    OnTrack(s) ==>
      && s.cfg.warm && (s.vm.phase == PowerOff || s.vm.phase == WaitForPowerOff || s.vm.phase == FinalSync)
      && !s.log.finalDone && PodHasFailed(s)
  }

  lemma StepKeepsStuck(s: State, a: Step)
    requires StuckOnPod(s) && Enabled(s, a)
    ensures StuckOnPod(Apply(s, a))
  {
    match a
    case Life(l) => LifeKeepsStuck(s, l);
    case Pipeline(p) => PipelineKeepsStuck(s, p);
    case Delta(_) =>
    case Env(e) => EnvKeepsStuck(s, e);
  }

  lemma LifeKeepsStuck(s: State, l: LifeStep)
    requires StuckOnPod(s) && LifeEnabled(s, l)
    ensures StuckOnPod(LifeApply(s, l))
  {
  }

  lemma PipelineKeepsStuck(s: State, p: PipelineStep)
    requires StuckOnPod(s) && PipelineEnabled(s, p)
    ensures StuckOnPod(PipelineApply(s, p))
  {
  }

  lemma EnvKeepsStuck(s: State, e: EnvStep)
    requires StuckOnPod(s) && EnvEnabled(s, e)
    ensures StuckOnPod(s.(w := EnvApply(s, e)))
  {
  }

  lemma {:induction false} RunKeepsStuck(s: State, steps: seq<Step>, u: State)
    requires StuckOnPod(s) && Run(s, steps, u)
    ensures StuckOnPod(u)
    decreases |steps|
  {
    if steps != [] {
      assert RunOn(s, steps, u);
      StepKeepsStuck(s, steps[0]);
      RunKeepsStuck(Apply(s, steps[0]), steps[1..], u);
    }
  }

  lemma FailedPodNeverBuilds(t: State, u: State)
    requires Reachable(t) && AtCutover(t) && PodHasFailed(t) && Reaches(AdvancePhase(t), u)
    ensures !Built(u)
  {
    assert t.cfg.warm && !t.log.finalDone by { ReachableInv(t); }
    var s := AdvancePhase(t);
    assert StuckOnPod(s);
    var steps :| Run(s, steps, u);
    RunKeepsStuck(s, steps, u);
  }

  // ----- What no step changes -----

  lemma StepKeepsSizes(s: State, a: Step)
    requires Enabled(s, a)
    ensures Apply(s, a).cfg == s.cfg && |Apply(s, a).w.disks| == |s.w.disks|
    ensures forall d :: 0 <= d < |s.w.disks| ==> |Apply(s, a).w.disks[d].live| == |s.w.disks[d].live|
  {
    match a
    case Life(l) => LifeKeepsDisks(s, l);
    case Pipeline(p) => PipelineKeepsDisks(s, p);
    case Delta(d) => DeltaKeepsDisks(s, d);
    case Env(_) =>
  }

  lemma LifeKeepsDisks(s: State, l: LifeStep)
    requires LifeEnabled(s, l)
    ensures LifeApply(s, l).cfg == s.cfg && LifeApply(s, l).w.disks == s.w.disks
  {
  }

  lemma PipelineKeepsDisks(s: State, p: PipelineStep)
    requires PipelineEnabled(s, p)
    ensures PipelineApply(s, p).cfg == s.cfg && PipelineApply(s, p).w.disks == s.w.disks
  {
  }

  lemma DeltaKeepsDisks(s: State, d: DeltaStep)
    requires DeltaEnabled(s, d)
    ensures DeltaApply(s, d).cfg == s.cfg && DeltaApply(s, d).w.disks == s.w.disks
  {
  }

  lemma {:induction false} RunKeepsSizes(s: State, steps: seq<Step>, u: State)
    requires Run(s, steps, u)
    ensures u.cfg == s.cfg && |u.w.disks| == |s.w.disks|
    ensures forall d :: 0 <= d < |s.w.disks| ==> |u.w.disks[d].live| == |s.w.disks[d].live|
    decreases |steps|
  {
    if steps != [] {
      assert RunOn(s, steps, u);
      StepKeepsSizes(s, steps[0]);
      RunKeepsSizes(Apply(s, steps[0]), steps[1..], u);
    }
  }

  lemma ConfigStays(s: State, u: State)
    requires Reaches(s, u)
    ensures u.cfg == s.cfg
  {
    var steps :| Run(s, steps, u);
    RunKeepsSizes(s, steps, u);
  }

  /** Empty disks have nothing to miss. */
  lemma EmptyDisksConverge(s: State, u: State)
    requires NoBytes(s) && Reaches(s, u) && Reachable(u) && Built(u)
    ensures Converged(u)
  {
    var steps :| Run(s, steps, u);
    RunKeepsSizes(s, steps, u);
    TargetEqualsSource(u);
  }

  /** Leaving Precopy decides midRound for the rest of the run. */
  lemma {:induction false} MidRoundIsSettled(s: State, steps: seq<Step>, u: State)
    requires Run(s, steps, u) && Rank(s.vm.phase) > Rank(Precopy)
    ensures u.log.midRound == s.log.midRound && Rank(u.vm.phase) > Rank(Precopy)
    decreases |steps|
  {
    if steps != [] {
      assert RunOn(s, steps, u);
      StepSettles(s, steps[0]);
      MidRoundIsSettled(Apply(s, steps[0]), steps[1..], u);
    }
  }

  lemma StepSettles(s: State, a: Step)
    requires Enabled(s, a) && Rank(s.vm.phase) > Rank(Precopy)
    ensures Apply(s, a).log.midRound == s.log.midRound && Rank(Apply(s, a).vm.phase) > Rank(Precopy)
  {
    match a
    case Life(l) => LifeSettles(s, l);
    case Pipeline(p) => PipelineSettles(s, p);
    case Delta(d) => DeltaSettles(s, d);
    case Env(_) =>
  }

  lemma LifeSettles(s: State, l: LifeStep)
    requires LifeEnabled(s, l) && Rank(s.vm.phase) > Rank(Precopy)
    ensures LifeApply(s, l).log.midRound == s.log.midRound && Rank(LifeApply(s, l).vm.phase) > Rank(Precopy)
  {
  }

  lemma PipelineSettles(s: State, p: PipelineStep)
    requires PipelineEnabled(s, p)
    ensures PipelineApply(s, p).log.midRound == s.log.midRound && PipelineApply(s, p).vm.phase == s.vm.phase
  {
  }

  lemma DeltaSettles(s: State, d: DeltaStep)
    requires DeltaEnabled(s, d) && Rank(s.vm.phase) > Rank(Precopy)
    ensures DeltaApply(s, d).log.midRound == s.log.midRound && Rank(DeltaApply(s, d).vm.phase) > Rank(Precopy)
  {
  }

  /** Left between rounds, the target is only ever built from equal disks. */
  lemma BetweenRoundsConverges(t: State, u: State)
    requires Reachable(u) && AtCutover(t) && t.vm.warm.value.deltaSnap.None? && t.cfg.warm
    requires Reaches(AdvancePhase(t), u) && Built(u)
    ensures Converged(u)
  {
    var s := AdvancePhase(t);
    assert s.vm.phase == PowerOff && !s.log.midRound;
    var steps :| Run(s, steps, u);
    MidRoundIsSettled(s, steps, u);
    TargetEqualsSource(u);
  }

  // ----- The verdict -----

  /**
   The exact condition, for every reachable cutover: the target equals the source
   in every continuation if and only if no delta snapshot is set when Precopy is
   left, or the pod of the open round has failed (then no continuation builds a
   target), or there is no byte to miss.
   */
  lemma CutoverIsSafeIffBetweenRounds(t: State)
    requires Reachable(t) && AtCutover(t)
    ensures AlwaysConverges(AdvancePhase(t)) <==>
            t.vm.warm.value.deltaSnap.None? || PodHasFailed(t) || NoBytes(t)
  {
    var s0 := StepOn(t, Life(Advance));
    if t.vm.warm.value.deltaSnap.None? || PodHasFailed(t) || NoBytes(t) {
      forall u | Reaches(s0, u) && Built(u)
        ensures Converged(u)
      {
        SafeCutoverConverges(t, u);
      }
    } else {
      var d :| 0 <= d < |t.w.disks| && t.w.disks[d].live != [];
      var u := MidRoundDiverges(t, d);
      assert Built(u);
    }
  }

  lemma SafeCutoverConverges(t: State, u: State)
    requires Reachable(t) && AtCutover(t) && Reaches(AdvancePhase(t), u) && Built(u)
    requires t.vm.warm.value.deltaSnap.None? || PodHasFailed(t) || NoBytes(t)
    ensures Converged(u)
  {
    var s := StepOn(t, Life(Advance));
    ReachableOnward(s, u);
    if PodHasFailed(t) {
      FailedPodNeverBuilds(t, u);
    } else if NoBytes(t) {
      EmptyDisksConverge(s, u);
    } else {
      assert t.cfg.warm by { ReachableInv(t); }
      BetweenRoundsConverges(t, u);
    }
  }
}
