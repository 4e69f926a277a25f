/**
 Runs that do happen: a target built from a stale disk after a mid-round
 cutover, both copies on after a failed PostHook, and what a lost status write
 does to the ledger and to the restoration of power.
 */
module Witnesses {
  import opened Wrappers
  import opened Phases
  import opened Disks
  import opened Machine
  import opened Structure
  import opened Power
  import opened Convergence
  import opened Theorems
  import opened Cutover

  // ----- A stale target -----

  /** A fresh VM that is on, with the given disks. */
  function Fresh(cfg: Config, disks: seq<Disk>): State {
    State(cfg,
          EMPTY_STATUS,
          World(0, On, disks, 0, map[], map[], [], map[], NoTarget, None),
          EMPTY_LOG)
  }

  lemma Go(s: State, t: State, a: Step) returns (u: State)
    requires Reaches(s, t) && Enabled(t, a)
    ensures u == Apply(t, a) && Reaches(s, u)
  {
    ReachesStep(s, t, a);
    u := Apply(t, a);
  }

  lemma RunToStored(s: State) returns (t: State)
    requires Reachable(s) && s.vm.phase == Pending && s.vm.original == Unset && s.log.observed.None?
    ensures Reachable(t) && t.cfg == s.cfg && t.w == s.w
    ensures t.vm == s.vm.(phase := if s.cfg.warm then BulkCopy else PowerOff, original := s.w.power)
    ensures t.log == s.log.(observed := Some(s.w.power), history := t.log.history)
  {
    t := StepOn(s, Life(Begin));
    t := StepOn(t, Life(Advance));
    t := StorePowerAndGo(t);
  }

  lemma StorePowerAndGo(s: State) returns (t: State)
    requires Reachable(s) && s.vm.phase == StorePowerState && s.vm.original == Unset && s.log.observed.None?
    ensures Reachable(t) && t.cfg == s.cfg && t.w == s.w
    ensures t.vm == s.vm.(phase := if s.cfg.warm then BulkCopy else PowerOff, original := s.w.power)
    ensures t.log == s.log.(observed := Some(s.w.power), history := t.log.history)
  {
    t := StepOn(s, Pipeline(StorePower));
    t := StepOn(t, Life(Advance));
  }

  /** One disk of one byte, exported. */
  lemma RunToExported(s: State) returns (t: State)
    requires Reachable(s) && s.vm == VmStatus(BulkCopy, None, [], 0, On, None)
    requires s.w == World(0, On, [Disk([0], [0])], 0, map[], map[], [], map[], NoTarget, None)
    ensures Reachable(t) && t.cfg == s.cfg && t.log == s.log
    ensures t.vm == VmStatus(BulkCopy, Some(0), [1], 1, On, None)
    ensures t.w == World(1, On, s.w.disks, 2, map[0 := 0], map[1 := ImageData(0, [0])],
                         [DataVolume(1, DvRunning, [])], map[], NoTarget, None)
  {
    t := StepOn(s, Pipeline(TakeSnapshot));
    t := StepOn(t, Pipeline(ExportDisk));
    t := StepOn(t, Pipeline(CreateDataVolume));
  }

  /** The same disk, with its import begun. */
  lemma RunToWaitBulk(s: State) returns (t: State)
    requires Reachable(s) && s.vm == VmStatus(BulkCopy, Some(0), [1], 1, On, None) && s.cfg.warm && |s.w.disks| == 1
    ensures Reachable(t) && t.cfg == s.cfg && t.log == s.log.(history := t.log.history) && t.w == s.w
    ensures t.vm == VmStatus(WaitBulkCopy, Some(0), [1], 1, On,
                             Some(EMPTY_WARM.(baseSnap := Some(0), baseImages := [1])))
  {
    t := StepOn(s, Pipeline(InitWarm));
    t := StepOn(t, Life(Advance));
  }

  /** The same disk, imported. */
  lemma RunToPrecopy(s: State) returns (t: State)
    requires Reachable(s) && s.vm.phase == WaitBulkCopy && s.cfg.warm
    requires s.w.dvs == [DataVolume(1, DvRunning, [])] && s.w.images == map[1 := ImageData(0, [0])]
    ensures Reachable(t) && t.cfg == s.cfg && t.log == s.log.(history := t.log.history)
    ensures t.vm == s.vm.(phase := Precopy) && t.w == s.w.(dvs := [DataVolume(1, DvSucceeded, [0])])
  {
    t := StepOn(s, Env(DvSucceeds(0)));
    t := StepOn(t, Life(Advance));
  }

  lemma RunToExportedRound(s: State) returns (t: State)
    requires Reachable(s) && s.vm.phase == Precopy
    requires s.vm.warm == Some(EMPTY_WARM.(baseSnap := Some(0), baseImages := [1]))
    requires s.w.nextId == 2 && s.w.clock == 1 && s.w.snaps == map[0 := 0] && s.w.disks == [Disk([0], [0])]
    requires s.cfg.maxRounds > 0 && !s.log.finalDone
    ensures Reachable(t) && t.vm.phase == Precopy && t.w.disks == s.w.disks && t.w.pods == s.w.pods && !t.log.finalDone
    ensures t.vm.warm == Some(s.vm.warm.value.(deltaSnap := Some(2), deltaImages := [3]))
    ensures t.w.snaps == map[0 := 0, 2 := 1]
  {
    t := StepOn(s, Delta(TakeDeltaSnapshot));
    assert t.w.snaps == map[0 := 0, 2 := 1] && t.w.nextId == 3;
    var m := t;
    t := StepOn(m, Delta(ExportDeltaDisk));
    assert [] + [m.w.nextId] == [3];
    assert t.vm.warm == Some(m.vm.warm.value.(deltaImages := [3]));
  }

  lemma RunToPodStarted(s: State) returns (t: State)
    requires Reachable(s) && s.vm.phase == Precopy && s.w.disks == [Disk([0], [0])] && !s.log.finalDone
    requires s.vm.warm ==
      Some(EMPTY_WARM.(baseSnap := Some(0), baseImages := [1], deltaSnap := Some(2), deltaImages := [3]))
    requires s.w.snaps == map[0 := 0, 2 := 1] && s.w.pods == map[]
    ensures Reachable(t) && t.vm.phase == Precopy && t.w.disks == s.w.disks && PodOpen(t)
    ensures t.vm.warm.value.deltaSnap.Some? && t.vm.warm.value.deltaImages == [3]
  {
    t := StepOn(s, Delta(SyncDisk([Region(0, 1)])));
  }

  lemma RunToCutover(s: State) returns (t: State)
    requires Reachable(s) && s.vm.phase == Precopy && s.vm.warm.Some? && RoundRests(s)
    requires s.vm.warm.value.deltaPod.Some?
    ensures Reachable(t) && AtCutover(t) && t.vm == s.vm && t.w.disks == s.w.disks && t.w.pods == s.w.pods
  {
    t := ReadFails(s);
    t := StepOn(t, Env(Tick(1)));
    t := CutoverNow(t);
  }

  /** Reading the pod fails. */
  lemma ReadFails(s: State) returns (t: State)
    requires Reachable(s) && s.vm.phase == Precopy && s.vm.warm.Some? && s.vm.warm.value.deltaPod.Some?
    ensures Reachable(t) && t.vm == s.vm && t.w == s.w && PodNotSeenActive(t)
  {
    t := StepOn(s, Delta(ReadPod(SeenUnknown)));
  }

  lemma CutoverNow(s: State) returns (t: State)
    requires Reachable(s) && s.w.clock > 0
    ensures Reachable(t) && CutoverPassed(t) && t.vm == s.vm && t.w == s.w.(cutover := Some(0)) && t.log == s.log
  {
    t := StepOn(s, Env(SetCutover(Some(0))));
  }

  lemma FreshIsReachable(cfg: Config, disks: seq<Disk>)
    requires forall d :: 0 <= d < |disks| ==> WellFormed(disks[d]) && QuietSince(disks[d], 0)
    ensures Reachable(Fresh(cfg, disks))
  {
    assert Init(Fresh(cfg, disks));
    ReachesSelf(Fresh(cfg, disks));
  }

  /** A run whose target VM is created from a disk that differs from its source. */
  lemma StaleTargetHappens() returns (u: State)
    ensures Reachable(u) && u.vm.phase == CreateVM && u.log.midRound && !Converged(u)
  {
    FreshIsReachable(Config(true, true, 1, 0), [Disk([0], [0])]);
    var s := RunToStored(Fresh(Config(true, true, 1, 0), [Disk([0], [0])]));
    s := RunToExported(s);
    s := RunToWaitBulk(s);
    s := RunToPrecopy(s);
    s := RunToExportedRound(s);
    s := RunToPodStarted(s);
    s := RunToCutover(s);
    u := MidRoundDiverges(s, 0);
    var left := StepOn(s, Life(Advance));
    ReachableOnward(left, u);
    if !u.log.midRound {
      TargetEqualsSource(u);
    }
  }

  // ----- Two live copies -----

  ghost predicate BothOn(s: State) {
    s.w.target == Started && s.w.power == On
  }

  lemma StepKeepsStarted(s: State, a: Step)
    requires Enabled(s, a) && Rank(s.vm.phase) >= Rank(PostHook) && s.log.observed.Some?
    ensures Rank(Apply(s, a).vm.phase) >= Rank(PostHook) && Apply(s, a).log.observed.Some?
    ensures Apply(s, a).w.target == s.w.target && Apply(s, a).vm.original == s.vm.original
  {
    match a
    case Life(l) => LifeKeepsStarted(s, l);
    case Pipeline(p) => PipelineKeepsStarted(s, p);
    case Delta(d) => assert false;
    case Env(_) =>
  }

  lemma PipelineKeepsStarted(s: State, p: PipelineStep)
    requires PipelineEnabled(s, p) && Rank(s.vm.phase) >= Rank(PostHook) && s.log.observed.Some?
    ensures Rank(PipelineApply(s, p).vm.phase) >= Rank(PostHook) && PipelineApply(s, p).log.observed.Some?
    ensures PipelineApply(s, p).w.target == s.w.target && PipelineApply(s, p).vm.original == s.vm.original
  {
  }

  lemma LifeKeepsStarted(s: State, l: LifeStep)
    requires LifeEnabled(s, l) && Rank(s.vm.phase) >= Rank(PostHook) && s.log.observed.Some?
    ensures Rank(LifeApply(s, l).vm.phase) >= Rank(PostHook) && LifeApply(s, l).log.observed.Some?
    ensures LifeApply(s, l).w.target == s.w.target && LifeApply(s, l).vm.original == s.vm.original
  {
    if l.Advance? {
      SuccessorClimbsOn(s.vm.phase, s.cfg.warm);
    }
  }

  lemma SuccessorClimbsOn(p: Phase, warm: bool)
    requires Rank(p) >= Rank(PostHook)
    ensures Rank(Successor(p, warm)) >= Rank(PostHook)
  {
  }

  lemma {:induction false} RunKeepsStarted(s: State, steps: seq<Step>, t: State)
    requires Run(s, steps, t) && Rank(s.vm.phase) >= Rank(PostHook) && s.log.observed.Some?
    ensures t.w.target == s.w.target && t.vm.original == s.vm.original
    decreases |steps|
  {
    if steps != [] {
      assert RunOn(s, steps, t);
      StepKeepsStarted(s, steps[0]);
      RunKeepsStarted(Apply(s, steps[0]), steps[1..], t);
    }
  }

  lemma FailPostHook(s: State) returns (u: State)
    requires s.vm.phase == PostHook && s.vm.original == On && s.w.target == Started
    ensures Reaches(s, u) && BothOn(u)
  {
    ReachesSelf(s);
    u := Go(s, s, Life(Fail));
    u := Go(s, u, Env(PowerOnTakesEffect));
  }

  /** From PostHook, both copies can come to be on exactly when the source was ON and the target is started. */
  lemma BothOnIffFailedPostHook(s: State)
    requires Reachable(s) && s.vm.phase == PostHook
    ensures (exists u :: Reaches(s, u) && BothOn(u)) <==> (s.vm.original == On && s.w.target == Started)
  {
    assert s.log.observed.Some? by { ReachableInv(s); }
    if s.vm.original == On && s.w.target == Started {
      var u := FailPostHook(s);
    }
    forall u | Reaches(s, u) && BothOn(u)
      ensures s.vm.original == On && s.w.target == Started
    {
      var steps :| Run(s, steps, u);
      RunKeepsStarted(s, steps, u);
      ReachableOnward(s, u);
      TwoLiveCopies(u);
    }
  }

  lemma RunToSeenOff(s: State) returns (t: State)
    requires Reachable(s) && s.vm.phase == PowerOff && s.log.commands == [] && !s.cfg.warm && !s.log.offSeen
    ensures Reachable(t) && t.cfg == s.cfg && t.vm == s.vm.(phase := CreateSnapshot) && t.w == s.w.(power := Off)
  {
    var m := CommandedOff(s);
    t := SeenOff(m);
  }

  /** A VM without data disks has nothing to export or import. */
  lemma RunToCreateVM(s: State) returns (t: State)
    requires Reachable(s) && s.vm.phase == CreateSnapshot && !s.cfg.warm && s.vm.snapshot.None? && s.vm.images == []
    requires s.w.disks == [] && s.w.dvs == [] && s.vm.dvNames == 0
    ensures Reachable(t) && t.cfg == s.cfg && t.vm.phase == CreateVM && t.vm.original == s.vm.original
    ensures t.w.target == s.w.target
  {
    t := StepOn(s, Pipeline(TakeSnapshot));
    t := StepOn(t, Life(Advance));
    t := NothingToCopyAround(t);
  }

  lemma NothingToCopyAround(s: State) returns (t: State)
    requires Reachable(s) && s.vm.phase == ExportDisks && !s.cfg.warm && s.vm.images == []
    requires s.w.disks == [] && s.w.dvs == [] && s.vm.dvNames == 0
    ensures Reachable(t) && t.cfg == s.cfg && t.vm == s.vm.(phase := CreateVM) && t.w == s.w
  {
    t := StepOn(s, Life(Advance));
    t := StepOn(t, Life(Advance));
  }

  lemma RunToPostHook(s: State) returns (t: State)
    requires Reachable(s) && s.vm.phase == CreateVM && s.cfg.startTarget && s.w.target == NoTarget
    ensures Reachable(t) && t.vm.phase == PostHook && t.vm.original == s.vm.original && t.w.target == Started
  {
    t := StepOn(s, Pipeline(CreateTarget));
    t := StepOn(t, Life(Advance));
    t := StartAndGo(t);
  }

  lemma StartAndGo(s: State) returns (t: State)
    requires Reachable(s) && s.vm.phase == StartVM && s.cfg.startTarget && s.w.target == Halted
    ensures Reachable(t) && t.vm.phase == PostHook && t.vm.original == s.vm.original && t.w.target == Started
  {
    t := StepOn(s, Pipeline(StartTarget));
    t := StepOn(t, Life(Advance));
  }

  /** The exception does occur. */
  lemma BothOnHappens() returns (u: State)
    ensures Reachable(u) && BothOn(u)
  {
    FreshIsReachable(Config(false, true, 0, 0), []);
    var s := RunToStored(Fresh(Config(false, true, 0, 0), []));
    s := RunToSeenOff(s);
    s := RunToCreateVM(s);
    s := RunToPostHook(s);
    BothOnIffFailedPostHook(s);
    u :| Reaches(s, u) && BothOn(u);
    ReachableOnward(s, u);
  }

  // ----- A lost status write -----

  /**
   The pass from `before` to `after` ends with its status update refused: the
   world keeps what was done, the controller starts over from the old status.
   */
  function LoseStatus(before: State, after: State): State {
    State(before.cfg, before.vm, after.w,
          before.log.(commands := after.log.commands,
                      deletedSnaps := after.log.deletedSnaps, deletedImages := after.log.deletedImages,
                      deletedDvs := after.log.deletedDvs))
  }

  /** A snapshot that no status names. */
  ghost predicate OrphanSnap(s: State, id: Id) {
    id in s.w.snaps && id < s.w.nextId && id !in HeldSnaps(s.vm) && id !in s.log.deletedSnaps
  }

  ghost predicate OrphanImage(s: State, id: Id) {
    id in s.w.images && id < s.w.nextId && id !in HeldImages(s.vm) && id !in s.log.deletedImages
  }

  lemma StepKeepsOrphanSnap(s: State, a: Step, id: Id)
    requires OrphanSnap(s, id) && Enabled(s, a)
    ensures OrphanSnap(Apply(s, a), id)
  {
    match a
    case Life(l) => LifeKeepsOrphans(s, l, id);
    case Pipeline(p) => PipelineKeepsOrphanSnap(s, p, id);
    case Delta(d) => DeltaKeepsOrphanSnap(s, d, id);
    case Env(_) =>
  }

  lemma StepKeepsOrphanImage(s: State, a: Step, id: Id)
    requires OrphanImage(s, id) && Enabled(s, a)
    ensures OrphanImage(Apply(s, a), id)
  {
    match a
    case Life(l) => LifeKeepsOrphans(s, l, id);
    case Pipeline(p) => PipelineKeepsOrphanImage(s, p, id);
    case Delta(d) => DeltaKeepsOrphanImage(s, d, id);
    case Env(_) =>
  }

  lemma LifeKeepsOrphans(s: State, l: LifeStep, id: Id)
    requires LifeEnabled(s, l)
    ensures OrphanSnap(s, id) ==> OrphanSnap(LifeApply(s, l), id)
    ensures OrphanImage(s, id) ==> OrphanImage(LifeApply(s, l), id)
  {
  }

  lemma PipelineKeepsOrphanSnap(s: State, p: PipelineStep, id: Id)
    requires OrphanSnap(s, id) && PipelineEnabled(s, p)
    ensures OrphanSnap(PipelineApply(s, p), id)
  {
  }

  lemma DeltaKeepsOrphanSnap(s: State, d: DeltaStep, id: Id)
    requires OrphanSnap(s, id) && DeltaEnabled(s, d)
    ensures OrphanSnap(DeltaApply(s, d), id)
  {
  }

  lemma PipelineKeepsOrphanImage(s: State, p: PipelineStep, id: Id)
    requires OrphanImage(s, id) && PipelineEnabled(s, p)
    ensures OrphanImage(PipelineApply(s, p), id)
  {
  }

  lemma DeltaKeepsOrphanImage(s: State, d: DeltaStep, id: Id)
    requires OrphanImage(s, id) && DeltaEnabled(s, d)
    ensures OrphanImage(DeltaApply(s, d), id)
  {
  }

  lemma {:induction false} RunKeepsOrphans(s: State, steps: seq<Step>, t: State, id: Id)
    requires Run(s, steps, t)
    ensures OrphanSnap(s, id) ==> OrphanSnap(t, id)
    ensures OrphanImage(s, id) ==> OrphanImage(t, id)
    decreases |steps|
  {
    if steps != [] {
      assert RunOn(s, steps, t);
      if OrphanSnap(s, id) {
        StepKeepsOrphanSnap(s, steps[0], id);
      }
      if OrphanImage(s, id) {
        StepKeepsOrphanImage(s, steps[0], id);
      }
      RunKeepsOrphans(Apply(s, steps[0]), steps[1..], t, id);
    }
  }

  /** What the old status does not name and nobody asked to delete is an orphan once the new status is lost. */
  lemma LosingStatusOrphans(s: State, t: State, id: Id)
    requires Reachable(s) && Reachable(t)
    ensures id in t.w.snaps && id !in s.w.snaps && id !in t.log.deletedSnaps ==> OrphanSnap(LoseStatus(s, t), id)
    ensures id in t.w.images && id !in s.w.images && id !in t.log.deletedImages ==> OrphanImage(LoseStatus(s, t), id)
  {
    assert WorldOk(t.w) by { ReachableInv(t); }
    assert HeldSnaps(s.vm) <= s.w.snaps.Keys && HeldImages(s.vm) <= s.w.images.Keys by { ReachableInv(s); }
  }

  /**
   Losing the status of any pass leaks all it created and did not itself request
   for deletion: no continuation ever requests the deletion of those snapshots and
   images.
   */
  lemma LostStatusLeaks(s: State, t: State, v: State, id: Id)
    requires Reachable(s) && Reaches(s, t) && Reaches(LoseStatus(s, t), v)
    ensures id in t.w.snaps && id !in s.w.snaps && id !in t.log.deletedSnaps ==>
      id in v.w.snaps && id !in v.log.deletedSnaps
    ensures id in t.w.images && id !in s.w.images && id !in t.log.deletedImages ==>
      id in v.w.images && id !in v.log.deletedImages
  {
    ReachableOnward(s, t);
    LosingStatusOrphans(s, t, id);
    var u := LoseStatus(s, t);
    var steps :| Run(u, steps, v);
    RunKeepsOrphans(u, steps, v, id);
  }

  lemma RunToOff(s: State) returns (p: State)
    requires s.vm.phase == StorePowerState && !s.cfg.warm && s.w.power == On
    requires s.vm.original == Unset && s.log.observed.None? && s.log.commands == [] && !s.log.offSeen
    ensures Reaches(s, p) && p.vm.original == On && p.w.power == Off
    ensures p.log.commands != [] && OnlyPowerOffs(p.log.commands)
  {
    ReachesSelf(s);
    p := Go(s, s, Pipeline(StorePower));
    p := Go(s, p, Life(Advance));
    p := Go(s, p, Pipeline(CommandPowerOff));
    p := Go(s, p, Env(OutsidePower(Off)));
  }

  lemma RunToFailed(s: State) returns (t: State)
    requires s.vm.phase == StorePowerState && !s.cfg.warm && s.w.power == Off
    requires s.vm.original == Unset && s.log.observed.None? && !s.log.offSeen
    ensures Reaches(s, t) && t.vm.phase == Failed && t.w.power == Off && t.log.commands == s.log.commands
  {
    ReachesSelf(s);
    t := Go(s, s, Pipeline(StorePower));
    t := Go(s, t, Life(Advance));
    var m := t;
    t := FailWaiting(m);
    ReachesTrans(s, m, t);
  }

  /** A source that was off needs no command; then the wait for it fails. */
  lemma FailWaiting(s: State) returns (t: State)
    requires s.vm.phase == PowerOff && s.vm.original == Off && !s.log.offSeen
    ensures Reaches(s, t) && t.vm.phase == Failed && t.w.power == s.w.power && t.log.commands == s.log.commands
  {
    ReachesSelf(s);
    t := Go(s, s, Life(Advance));
    t := Go(s, t, Life(Fail));
  }

  /**
   Losing the status of the pass that recorded ON and powered the source off:
   the next pass records OFF, and a failure then leaves the source off for good.
   */
  lemma LostStatusLosesPower(s: State) returns (p: State, t: State)
    requires s.vm.phase == StorePowerState && !s.cfg.warm && s.w.power == On
    requires s.vm.original == Unset && s.log.observed.None? && s.log.commands == [] && !s.log.offSeen
    ensures Reaches(s, p) && p.vm.original == On && p.w.power == Off
    ensures Reaches(LoseStatus(s, p), t) && t.vm.phase == Failed && t.w.power == Off
    ensures t.log.commands == p.log.commands && t.log.commands != [] && OnlyPowerOffs(t.log.commands)
  {
    p := RunToOff(s);
    t := RunToFailed(LoseStatus(s, p));
  }
}
