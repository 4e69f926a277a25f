/**
 The controller's phase handlers on one VM, in the form the controller has them:
 a status record updated in place, early returns, loops that skip what is
 already recorded. Whatever happens around them, every execution of a handler is
 a run of the machine, and a handler that reports completion has done its work.
 */
module Controller {
  import opened Wrappers
  import opened Phases
  import opened Disks
  import opened Machine
  import opened Structure
  import opened Power
  import opened Ledger
  import opened Theorems
  import opened Api
  import opened CbtPaging

  /** Where a handler may be entered: its single action is still to be done. */
  predicate AtRest(s: State) {
    && (!IsTerminal(s.vm.phase) ==> RoundRests(s))
    && match s.vm.phase
       case StorePowerState => s.log.observed.None?
       case PowerOff => s.log.commands == []
       case WaitForPowerOff => !s.log.offSeen
       case BulkCopy => s.vm.warm.None?
       case FinalSync => !s.log.finalDone
       case CreateVM => s.w.target == NoTarget
       case StartVM => s.w.target == Halted
       case Cleanup => !s.log.cleaned
       case _ => true
  }

  /** What the handlers use of the invariant. */
  ghost predicate Ready(s: State) {
    && AtRest(s)
    && (forall d :: 0 <= d < |s.w.disks| ==> WellFormed(s.w.disks[d]))
    && s.vm.dvNames == |s.w.dvs|
    && (s.vm.phase == ExportDisks ==> s.vm.snapshot.Some?)
    && (s.vm.phase == ImportDisks ==> |s.vm.images| >= |s.w.disks|)
    && (s.vm.warm.Some? ==>
          var warm := s.vm.warm.value;
          && warm.baseSnap.Some? && warm.baseSnap.value in s.w.snaps
          && (warm.deltaSnap.Some? ==> warm.deltaSnap.value in s.w.snaps && s.w.snaps[warm.deltaSnap.value] < s.w.clock)
          && (warm.deltaSnap.None? ==> warm.deltaImages == []))
    && (s.vm.phase == Precopy ==> !s.log.finalDone)
  }

  /** A delta round may start or go on. */
  predicate CanRound(s: State) {
    && DeltaPhase(s) && !s.log.finalDone
    && (s.vm.phase == Precopy ==> s.vm.warm.value.rounds < s.cfg.maxRounds && IntervalElapsed(s))
    && (forall d :: 0 <= d < |s.w.disks| ==> WellFormed(s.w.disks[d]))
    && var warm := s.vm.warm.value;
    && warm.baseSnap.Some? && warm.baseSnap.value in s.w.snaps
    && (warm.deltaSnap.Some? ==> warm.deltaSnap.value in s.w.snaps && s.w.snaps[warm.deltaSnap.value] < s.w.clock)
    && |warm.deltaImages| <= |s.w.disks|
  }

  /** No byte was written with a time before the clock. */
  ghost predicate StampsKept(w: World, w': World) {
    forall d, o :: 0 <= d < |w.disks| && d < |w'.disks| && 0 <= o < |w'.disks[d].stamp| ==>
      (o < |w.disks[d].stamp| && w'.disks[d].stamp[o] == w.disks[d].stamp[o]) || w'.disks[d].stamp[o] >= w.clock
  }

  /** A pod that has ended stays as it is. */
  ghost predicate PodsSettled(w: World, w': World) {
    forall name :: name in w.pods && w.pods[name].phase != PodActive ==>
      name in w'.pods && w'.pods[name].phase == w.pods[name].phase
  }

  lemma KeepsTrans(w: World, m: World, w': World)
    requires EnvKeeps(w, m) && StampsKept(w, m) && PodsSettled(w, m)
    requires EnvKeeps(m, w') && StampsKept(m, w') && PodsSettled(m, w')
    ensures EnvKeeps(w, w') && StampsKept(w, w') && PodsSettled(w, w')
  {
  }

  /** A changed-region answer is not invalidated by anything that happens after the delta snapshot. */
  lemma AnswerStands(s: State, w': World, regions: seq<Region>)
    requires CbtAnswer(s, regions) && EnvKeeps(s.w, w') && StampsKept(s.w, w')
    requires s.w.snaps[s.vm.warm.value.deltaSnap.value] < s.w.clock
    requires forall d :: 0 <= d < |s.w.disks| ==> WellFormed(s.w.disks[d])
    ensures CbtAnswer(s.(w := w'), regions)
  {
    var i := s.vm.warm.value.diskIdx;
    assert WellFormed(w'.disks[i]);
  }

  lemma InvMakesReady(s: State)
    requires Inv(s) && AtRest(s) && IsActive(s.vm.phase)
    ensures Ready(s)
  {
  }

  lemma AdvanceRests(s: State)
    requires StructureOk(s) && RestoreOk(s) && CopiesOk(s) && ClosingOk(s) && Done(s) && RoundRests(s)
    ensures AtRest(AdvancePhase(s))
  {
    if s.cfg.warm {
      WarmAdvanceRests(s);
    } else {
      ColdAdvanceRests(s);
    }
  }

  lemma WarmAdvanceRests(s: State)
    requires s.cfg.warm && StructureOk(s) && RestoreOk(s) && CopiesOk(s) && ClosingOk(s) && Done(s) && RoundRests(s)
    ensures AtRest(AdvancePhase(s))
  {
  }

  lemma ColdAdvanceRests(s: State)
    requires !s.cfg.warm && StructureOk(s) && RestoreOk(s) && CopiesOk(s) && ClosingOk(s) && Done(s) && RoundRests(s)
    ensures AtRest(AdvancePhase(s))
  {
  }

  /** What no environment step undoes. */
  ghost predicate EnvKeeps(w: World, w': World) {
    && w'.nextId == w.nextId && w'.snaps == w.snaps && w'.images == w.images && w'.target == w.target
    && w'.clock >= w.clock
    && |w'.disks| == |w.disks|
    && ((forall d :: 0 <= d < |w.disks| ==> WellFormed(w.disks[d])) ==>
          forall d :: 0 <= d < |w'.disks| ==> WellFormed(w'.disks[d]))
    && |w'.dvs| == |w.dvs|
    && (forall k :: 0 <= k < |w.dvs| ==> Later(w.dvs[k].phase, w'.dvs[k].phase))
    && w'.pods.Keys == w.pods.Keys
  }

  /** The part of it that the exports keep as well. */
  ghost predicate EnvKeepsShape(w: World, w': World) {
    && |w'.disks| == |w.disks| && |w'.dvs| == |w.dvs| && w'.target == w.target
  }

  lemma EnvStepKeeps(s: State, e: EnvStep)
    requires EnvEnabled(s, e)
    ensures EnvKeeps(s.w, EnvApply(s, e)) && StampsKept(s.w, EnvApply(s, e)) && PodsSettled(s.w, EnvApply(s, e))
  {
  }

  /** The volumes of before, possibly further along, then new ones that were created running. */
  ghost predicate VolumesAged(before: seq<DataVolume>, after: seq<DataVolume>) {
    && |before| <= |after|
    && forall i :: 0 <= i < |before| ==> Later(before[i].phase, after[i].phase)
  }

  /** The reads so far, of the first volumes. */
  ghost predicate ReadSoFar(before: seq<DataVolume>, seen: seq<DvPhase>, now: seq<DataVolume>) {
    && |seen| <= |before| == |now|
    && (forall i :: 0 <= i < |now| ==> Later(before[i].phase, now[i].phase))
    && forall i :: 0 <= i < |seen| ==> Later(before[i].phase, seen[i]) && Later(seen[i], now[i].phase)
  }

  /** Volumes that were not read count as they are. */
  function ReadRest(seen: seq<DvPhase>, now: seq<DataVolume>): (r: seq<DvPhase>)
    requires |seen| <= |now|
    ensures |r| == |now| && forall i :: 0 <= i < |now| ==> r[i] == if i < |seen| then seen[i] else now[i].phase
  {
    seq(|now|, i requires 0 <= i < |now| => if i < |seen| then seen[i] else now[i].phase)
  }

  lemma ReadLater(first: seq<DataVolume>, before: seq<DataVolume>, seen: seq<DvPhase>, after: seq<DataVolume>)
    requires VolumesAged(first, before) && ReadBetween(before, seen, after) && |before| == |after|
    ensures ReadBetween(first, seen, after)
  {
  }

  /** No read so far was bad, and whether all were good. */
  ghost predicate Polled(api: Answers, seen: seq<DvPhase>, allGood: bool) {
    && (forall k :: 0 <= k < |seen| ==> !BadRead(api, seen, k))
    && (allGood <==> forall k :: 0 <= k < |seen| ==> GoodRead(api, seen, k))
  }

  lemma PollNext(api: Answers, seen: seq<DvPhase>, allGood: bool, p: DvPhase)
    requires Polled(api, seen, allGood) && !BadRead(api, seen + [p], |seen|)
    ensures Polled(api, seen + [p], allGood && GoodRead(api, seen + [p], |seen|))
  {
    forall k | 0 <= k < |seen|
      ensures BadRead(api, seen + [p], k) <==> BadRead(api, seen, k)
      ensures GoodRead(api, seen + [p], k) <==> GoodRead(api, seen, k)
    {
    }
  }

  lemma ReadNext(before: seq<DataVolume>, seen: seq<DvPhase>, now: seq<DataVolume>, later: seq<DataVolume>)
    requires ReadSoFar(before, seen, now) && |seen| < |now| == |later|
    requires forall k :: 0 <= k < |now| ==> Later(now[k].phase, later[k].phase)
    ensures ReadSoFar(before, seen + [later[|seen|].phase], later)
  {
  }

  /** A bad read ends the loop. */
  lemma PollStops(api: Answers, before: seq<DataVolume>, seen: seq<DvPhase>, now: seq<DataVolume>)
    requires ReadSoFar(before, seen, now) && seen != [] && BadRead(api, seen, |seen| - 1)
    ensures var all := ReadRest(seen, now);
      && ReadBetween(before, all, now)
      && (exists k :: 0 <= k < |all| && BadRead(api, all, k))
      && !(forall k :: 0 <= k < |all| ==> GoodRead(api, all, k))
  {
    var all := ReadRest(seen, now);
    assert BadRead(api, all, |seen| - 1) && !GoodRead(api, all, |seen| - 1);
  }

  lemma PollEnds(api: Answers, before: seq<DataVolume>, seen: seq<DvPhase>, now: seq<DataVolume>, allGood: bool)
    requires ReadSoFar(before, seen, now) && |seen| == |now| && Polled(api, seen, allGood)
    ensures ReadBetween(before, seen, now)
    ensures allGood ==> forall k :: 0 <= k < |now| ==> now[k].phase == DvSucceeded
  {
    if allGood {
      forall k | 0 <= k < |now|
        ensures now[k].phase == DvSucceeded
      {
        assert GoodRead(api, seen, k);
      }
    }
  }

  lemma HeldAddsUp(vm: VmStatus, snaps: set<Id>, images: set<Id>)
    ensures vm.warm.None? ==>
      && snaps + Singleton(vm.snapshot) == snaps + HeldSnaps(vm)
      && images + Elements(vm.images) == images + HeldImages(vm)
    ensures vm.warm.Some? ==>
      var warm := vm.warm.value;
      && snaps + Singleton(vm.snapshot) + Singleton(warm.baseSnap) + Singleton(warm.deltaSnap) == snaps + HeldSnaps(vm)
      && images + Elements(vm.images) + Elements(warm.baseImages) + Elements(warm.deltaImages) ==
         images + HeldImages(vm)
  {
  }

  class VmMigration {
    const id: string
    const cfg: Config
    // Where the VM's run began.
    ghost const origin: State
    var started: bool
    var phase: Phase
    var snapshotUuid: Option<Id>
    var imageUuids: seq<Id>
    var dataVolumes: nat
    var originalPowerState: PowerState
    var warm: Option<WarmStatus>
    // Everything outside the status: the world, and the record of what was done to it.
    var world: World
    var log: Log
    // How many handler executions there have been, and what the last one answered.
    var executed: nat
    var result: PhaseResult

    function S(): State
      reads this
    {
      State(cfg, VmStatus(phase, snapshotUuid, imageUuids, dataVolumes, originalPowerState, warm), world, log)
    }

    ghost predicate Valid()
      reads this
    {
      Init(origin) && Reaches(origin, S()) && AtRest(S()) && (IsActive(phase) ==> started)
    }

    constructor (id: string, cfg: Config, world: World)
      requires Init(State(cfg, EMPTY_STATUS, world, EMPTY_LOG))
      ensures origin == S() && Valid() && !started && this.id == id && this.cfg == cfg && this.world == world
    {
      this.id := id;
      started := false;
      this.cfg := cfg;
      this.world := world;
      phase := Pending;
      snapshotUuid, imageUuids, dataVolumes, originalPowerState, warm := None, [], 0, Unset, None;
      log := EMPTY_LOG;
      executed, result := 0, Waiting;
      origin := State(cfg, EMPTY_STATUS, world, EMPTY_LOG);
      new;
      ReachesSelf(S());
    }

    /** Any number of environment steps, continuing a run from s0. */
    method Interfere(ghost s0: State)
      requires Reaches(s0, S())
      modifies this`world
      ensures Reaches(s0, S())
      ensures EnvKeeps(old(world), world) && StampsKept(old(world), world) && PodsSettled(old(world), world)
    {
      var n: int := *;
      if n < 0 {
        n := 0;
      }
      for i := 0 to n
        invariant Reaches(s0, S())
        invariant EnvKeeps(old(world), world) && StampsKept(old(world), world) && PodsSettled(old(world), world)
      {
        var e: EnvStep := *;
        if EnvEnabled(S(), e) {
          EnvStepKeeps(S(), e);
          ReachesStep(s0, S(), Env(e));
          KeepsTrans(old(world), world, EnvApply(S(), e));
          world := EnvApply(S(), e);
        }
      }
    }

    // ----- Shared by all handlers -----

    /**
     What a handler entered in state s0 promises with its result: its execution is
     a run of the machine (an error continues with the Failed state), completion
     means the phase's work is done, and waiting leaves a state it can be entered in.
     */
    ghost predicate Outcome(s0: State, r: PhaseResult)
      reads this
    {
      match r
      case Errored => Reaches(s0, FailWith(S()))
      case Finished => Reaches(s0, S()) && RoundRests(S()) && Done(S())
      case Waiting => Reaches(s0, S()) && AtRest(S())
    }

    /** One machine step was just taken. */
    lemma Took(s0: State, s: State, a: Step)
      requires Reaches(s0, s) && Enabled(s, a) && S() == Apply(s, a)
      ensures Reaches(s0, S())
    {
      ReachesStep(s0, s, a);
    }

    /** Reporting an error here leads to the Failed state by a step of the machine. */
    lemma MayFail(s0: State)
      requires Reaches(s0, S()) && CanFail(S())
      ensures Reaches(s0, FailWith(S()))
    {
      ReachesStep(s0, S(), Life(Fail));
    }

    // ----- Power -----

    method PhaseStorePowerState(api: Answers) returns (r: PhaseResult)
      requires phase == StorePowerState && RoundRests(S()) && log.observed.None?
      modifies this`originalPowerState, this`log
      ensures Outcome(old(S()), r) && StorePowerResult(old(S()), api, S(), r)
    {
      ghost var s0 := S();
      ReachesSelf(s0);
      if originalPowerState != Unset {
        return Finished;
      }
      if Breaks(api, GetPower) {
        MayFail(s0);
        return Errored;
      }
      RecordPower(s0);
      return Finished;
    }

    method RecordPower(ghost s0: State)
      requires phase == StorePowerState && originalPowerState == Unset && log.observed.None? && Reaches(s0, S())
      modifies this`originalPowerState, this`log
      ensures Reaches(s0, S()) && originalPowerState == world.power && log == old(log).(observed := Some(world.power))
    {
      ghost var s := S();
      originalPowerState := world.power;
      log := log.(observed := Some(world.power));
      Took(s0, s, Pipeline(StorePower));
    }

    method PhasePowerOff(api: Answers) returns (r: PhaseResult)
      requires phase == PowerOff && RoundRests(S()) && log.commands == []
      modifies this`log
      ensures Outcome(old(S()), r) && r == OrError(originalPowerState != Off && Breaks(api, SendPowerOff))
    {
      ghost var s0 := S();
      ReachesSelf(s0);
      if originalPowerState == Off {
        return Finished;
      }
      IssuePowerOff(s0);
      if Breaks(api, SendPowerOff) {
        MayFail(s0);
        return Errored;
      }
      return Finished;
    }

    method IssuePowerOff(ghost s0: State)
      requires phase == PowerOff && originalPowerState != Off && log.commands == [] && Reaches(s0, S())
      modifies this`log
      ensures Reaches(s0, S()) && log == old(log).(commands := [PowerOffCommand(world.clock)])
    {
      ghost var s := S();
      log := log.(commands := log.commands + [PowerOffCommand(world.clock)]);
      Took(s0, s, Pipeline(CommandPowerOff));
    }

    method PhaseWaitForPowerOff(api: Answers) returns (r: PhaseResult)
      requires phase == WaitForPowerOff && RoundRests(S()) && !log.offSeen
      modifies this`log
      ensures Outcome(old(S()), r)
      ensures r == if Breaks(api, GetPower) then Errored else if world.power == Off then Finished else Waiting
    {
      ghost var s0 := S();
      ReachesSelf(s0);
      if Breaks(api, GetPower) {
        MayFail(s0);
        return Errored;
      }
      if world.power != Off {
        return Waiting;
      }
      RecordOff(s0);
      return Finished;
    }

    method RecordOff(ghost s0: State)
      requires phase == WaitForPowerOff && world.power == Off && Reaches(s0, S())
      modifies this`log
      ensures Reaches(s0, S()) && log == old(log).(offSeen := true)
    {
      ghost var s := S();
      log := log.(offSeen := true);
      Took(s0, s, Pipeline(SeeOff));
    }

    // ----- First export and import of every disk -----

    method PhaseCreateSnapshot(api: Answers) returns (r: PhaseResult)
      requires phase == CreateSnapshot && RoundRests(S())
      modifies this`snapshotUuid, this`world
      ensures Outcome(old(S()), r) && r == OrError(old(snapshotUuid).None? && Breaks(api, CreateRecoveryPoint))
    {
      ghost var s0 := S();
      ReachesSelf(s0);
      if snapshotUuid.Some? {
        return Finished;
      }
      if Breaks(api, CreateRecoveryPoint) {
        MayFail(s0);
        return Errored;
      }
      RecordSnapshot(s0);
      return Finished;
    }

    method RecordSnapshot(ghost s0: State)
      requires (phase == CreateSnapshot || phase == BulkCopy) && snapshotUuid.None? && Reaches(s0, S())
      modifies this`snapshotUuid, this`world
      ensures Reaches(s0, S()) && snapshotUuid == Some(old(world).nextId) && world == WithSnapshot(old(world))
    {
      ghost var s := S();
      snapshotUuid := Some(world.nextId);
      world := WithSnapshot(world);
      Took(s0, s, Pipeline(TakeSnapshot));
    }

    /** The export loop shared by ExportDisks and BulkCopy: skips the disks that have an image. */
    method ExportDisksLoop(ghost s0: State, api: Answers) returns (failed: bool)
      requires (phase == ExportDisks || phase == BulkCopy) && snapshotUuid.Some? && Reaches(s0, S())
      modifies this`imageUuids, this`world
      ensures Reaches(s0, S()) && EnvKeepsShape(old(world), world)
      ensures failed <==> SomeExportBreaks(api, |old(imageUuids)|, |old(world).disks|)
      ensures !failed ==>
        |imageUuids| == (if |old(imageUuids)| < |world.disks| then |world.disks| else |old(imageUuids)|)
    {
      var n := |world.disks|;
      ghost var from := |imageUuids|;
      for i := 0 to n
        invariant Reaches(s0, S()) && EnvKeepsShape(old(world), world) && |world.disks| == n
        invariant |imageUuids| == if from < i then i else from
        invariant forall k: nat :: from <= k < |imageUuids| ==> !Breaks(api, CreateImage(k))
      {
        if i >= |imageUuids| {
          Interfere(s0);
          if Breaks(api, CreateImage(i)) {
            return true;
          }
          RecordImage(s0, i);
        }
      }
      failed := false;
    }

    /** An image was cut from disk i. */
    method RecordImage(ghost s0: State, i: nat)
      requires (phase == ExportDisks || phase == BulkCopy) && snapshotUuid.Some? && Reaches(s0, S())
      requires i == |imageUuids| < |world.disks|
      modifies this`imageUuids, this`world
      ensures Reaches(s0, S()) && world == WithImage(old(world), i)
      ensures imageUuids == old(imageUuids) + [old(world).nextId]
    {
      ghost var s := S();
      imageUuids := imageUuids + [world.nextId];
      world := WithImage(world, i);
      Took(s0, s, Pipeline(ExportDisk));
    }

    method PhaseExportDisks(api: Answers) returns (r: PhaseResult)
      requires phase == ExportDisks && RoundRests(S()) && snapshotUuid.Some?
      modifies this`imageUuids, this`world
      ensures Outcome(old(S()), r) && ExportResult(old(S()), api, r)
    {
      ghost var s0 := S();
      ReachesSelf(s0);
      if Breaks(api, GetVm) {
        MayFail(s0);
        return Errored;
      }
      if |imageUuids| >= |world.disks| {
        return Finished;
      }
      var failed := ExportDisksLoop(s0, api);
      if failed {
        MayFail(s0);
        return Errored;
      }
      return Finished;
    }

    /** One DataVolume per image that has none yet; an existing one counts as created. */
    method CreateDataVolumes(ghost s0: State, api: Answers) returns (failed: bool)
      requires (phase == ImportDisks || phase == BulkCopy) && |imageUuids| >= |world.disks| && Reaches(s0, S())
      requires dataVolumes == |world.dvs|
      modifies this`dataVolumes, this`world
      ensures Reaches(s0, S()) && |world.disks| == |old(world).disks| && dataVolumes == |world.dvs|
      ensures failed <==> Breaks(api, CreateSecrets) || SomeVolumeBreaks(api, old(dataVolumes), |imageUuids|)
      ensures !failed ==> dataVolumes >= |imageUuids| && dataVolumes >= old(dataVolumes)
      ensures !failed ==> VolumesAged(old(world).dvs, world.dvs)
    {
      if Breaks(api, CreateSecrets) {
        return true;
      }
      ghost var from := dataVolumes;
      for i := 0 to |imageUuids|
        invariant Reaches(s0, S()) && |world.disks| == |old(world).disks|
        invariant dataVolumes == |world.dvs| == if from < i then i else from
        invariant forall k: nat :: from <= k < dataVolumes ==> !Breaks(api, CreateVolume(k))
        invariant VolumesAged(old(world).dvs, world.dvs)
      {
        if i >= dataVolumes {
          Interfere(s0);
          if Breaks(api, CreateVolume(i)) {
            return true;
          }
          RecordVolume(s0, i);
        }
      }
      failed := false;
    }

    method RecordVolume(ghost s0: State, i: nat)
      requires (phase == ImportDisks || phase == BulkCopy) && Reaches(s0, S())
      requires |imageUuids| >= |world.disks| && i == dataVolumes < |imageUuids|
      modifies this`dataVolumes, this`world
      ensures Reaches(s0, S()) && dataVolumes == i + 1
      ensures world == old(world).(dvs := old(world).dvs + [DataVolume(imageUuids[i], DvRunning, [])])
    {
      ghost var s := S();
      world := world.(dvs := world.dvs + [DataVolume(imageUuids[i], DvRunning, [])]);
      dataVolumes := dataVolumes + 1;
      Took(s0, s, Pipeline(CreateDataVolume));
    }

    /** Polls every DataVolume; a missing one, or one in progress, means waiting. */
    method PollDataVolumes(ghost s0: State, api: Answers) returns (r: PhaseResult, ghost seen: seq<DvPhase>)
      requires (phase == ImportDisks || phase == WaitBulkCopy) && Reaches(s0, S()) && RoundRests(S())
      requires phase == ImportDisks ==> dataVolumes >= |imageUuids|
      requires dataVolumes == |world.dvs|
      modifies this`world
      ensures Outcome(s0, r) && |world.dvs| == |old(world).dvs|
      ensures ReadBetween(old(world).dvs, seen, world.dvs) && PollResult(api, seen, r)
    {
      var failed, allSucceeded;
      failed, allSucceeded, seen := PollLoop(s0, api);
      if failed {
        MayFail(s0);
        return Errored, seen;
      }
      if !allSucceeded {
        return Waiting, seen;
      }
      return Finished, seen;
    }

    method PollLoop(ghost s0: State, api: Answers)
      returns (failed: bool, allSucceeded: bool, ghost seen: seq<DvPhase>)
      requires Reaches(s0, S()) && RoundRests(S()) && dataVolumes == |world.dvs|
      modifies this`world
      ensures Reaches(s0, S()) && RoundRests(S()) && |world.dvs| == |old(world).dvs|
      ensures ReadBetween(old(world).dvs, seen, world.dvs)
      ensures failed <==> exists i :: 0 <= i < |seen| && BadRead(api, seen, i)
      ensures !failed && allSucceeded <==> forall i :: 0 <= i < |seen| ==> GoodRead(api, seen, i)
      ensures !failed && allSucceeded ==> AllDvsSucceeded(S())
    {
      allSucceeded := true;
      seen := [];
      for i := 0 to dataVolumes
        invariant Reaches(s0, S()) && RoundRests(S()) && dataVolumes == |world.dvs| == |old(world).dvs|
        invariant ReadSoFar(old(world).dvs, seen, world.dvs) && |seen| == i && Polled(api, seen, allSucceeded)
      {
        ghost var dvs := world.dvs;
        Interfere(s0);
        ReadNext(old(world).dvs, seen, dvs, world.dvs);
        ghost var next := seen + [world.dvs[i].phase];
        var answer := api.answer(GetVolume(i));
        if answer == Broken || (answer == Good && world.dvs[i].phase == DvFailed) {
          PollStops(api, old(world).dvs, next, world.dvs);
          return true, false, ReadRest(next, world.dvs);
        }
        PollNext(api, seen, allSucceeded, world.dvs[i].phase);
        allSucceeded := allSucceeded && answer == Good && world.dvs[i].phase == DvSucceeded;
        seen := next;
      }
      PollEnds(api, old(world).dvs, seen, world.dvs, allSucceeded);
      failed := false;
    }

    method PhaseImportDisks(api: Answers) returns (r: PhaseResult, ghost seen: seq<DvPhase>)
      requires phase == ImportDisks && Ready(S())
      modifies this`dataVolumes, this`world
      ensures Outcome(old(S()), r) && ImportResult(old(S()), api, Reads(seen, []), S(), r)
    {
      ghost var s0 := S();
      ReachesSelf(s0);
      seen := [];
      var failed := CreateMissing(s0, api);
      if failed {
        MayFail(s0);
        return Errored, seen;
      }
      ghost var dvs := world.dvs;
      r, seen := PollDataVolumes(s0, api);
      ReadLater(s0.w.dvs, dvs, seen, world.dvs);
    }

    /** Reads the VM, then creates the DataVolumes that are missing. */
    method CreateMissing(ghost s0: State, api: Answers) returns (failed: bool)
      requires phase == ImportDisks && |imageUuids| >= |world.disks| && Reaches(s0, S()) && RoundRests(S())
      requires dataVolumes == |world.dvs|
      modifies this`dataVolumes, this`world
      ensures Reaches(s0, S()) && RoundRests(S()) && dataVolumes == |world.dvs|
      ensures failed <==> Breaks(api, GetVm) || Breaks(api, CreateSecrets) ||
                          SomeVolumeBreaks(api, old(dataVolumes), |imageUuids|)
      ensures !failed ==> dataVolumes >= |imageUuids| && VolumesAged(old(world).dvs, world.dvs)
    {
      if Breaks(api, GetVm) {
        return true;
      }
      failed := CreateDataVolumes(s0, api);
    }

    method EnsureSnapshot(ghost s0: State, api: Answers) returns (failed: bool)
      requires phase == BulkCopy && Reaches(s0, S())
      modifies this`snapshotUuid, this`world
      ensures Reaches(s0, S()) && EnvKeepsShape(old(world), world)
      ensures failed <==> old(snapshotUuid).None? && Breaks(api, CreateRecoveryPoint)
      ensures !failed ==> snapshotUuid.Some?
    {
      if snapshotUuid.Some? {
        return false;
      }
      failed := Breaks(api, CreateRecoveryPoint);
      if !failed {
        RecordSnapshot(s0);
      }
    }

    method PhaseBulkCopy(api: Answers) returns (r: PhaseResult)
      requires phase == BulkCopy && Ready(S())
      modifies this`snapshotUuid, this`imageUuids, this`dataVolumes, this`warm, this`world
      ensures Outcome(old(S()), r) && BulkResult(old(S()), api, r)
    {
      ghost var s0 := S();
      ReachesSelf(s0);
      var failed := CopyInBulk(s0, api);
      if failed {
        MayFail(s0);
        return Errored;
      }
      InitWarmStatus(s0);
      return Finished;
    }

    /** Snapshot, exports and DataVolumes, each only as far as it is missing. */
    method CopyInBulk(ghost s0: State, api: Answers) returns (failed: bool)
      requires phase == BulkCopy && warm.None? && dataVolumes == |world.dvs| && Reaches(s0, S())
      modifies this`snapshotUuid, this`imageUuids, this`dataVolumes, this`world
      ensures Reaches(s0, S())
      ensures failed <==> BulkBreaks(old(S()), api)
      ensures !failed ==> snapshotUuid.Some? && |imageUuids| >= |world.disks| && dataVolumes >= |imageUuids|
    {
      failed := EnsureSnapshot(s0, api);
      if failed {
        return;
      }
      Interfere(s0);
      if Breaks(api, GetVm) {
        return true;
      }
      failed := ExportDisksLoop(s0, api);
      if failed {
        return;
      }
      failed := CreateDataVolumes(s0, api);
    }

    method InitWarmStatus(ghost s0: State)
      requires phase == BulkCopy && warm.None? && Reaches(s0, S())
      requires snapshotUuid.Some? && |imageUuids| >= |world.disks| && dataVolumes >= |imageUuids|
      modifies this`warm
      ensures Reaches(s0, S()) && warm == Some(EMPTY_WARM.(baseSnap := snapshotUuid, baseImages := imageUuids))
    {
      ghost var s := S();
      warm := Some(EMPTY_WARM.(baseSnap := snapshotUuid, baseImages := imageUuids));
      Took(s0, s, Pipeline(InitWarm));
    }

    method PhaseWaitBulkCopy(api: Answers) returns (r: PhaseResult, ghost seen: seq<DvPhase>)
      requires phase == WaitBulkCopy && Ready(S())
      modifies this`world
      ensures Outcome(old(S()), r)
      ensures ReadBetween(old(world).dvs, seen, world.dvs) && PollResult(api, seen, r)
    {
      ReachesSelf(S());
      r, seen := PollDataVolumes(S(), api);
    }

    // ----- Target VM -----

    method PhaseCreateVM(api: Answers) returns (r: PhaseResult)
      requires phase == CreateVM && RoundRests(S()) && world.target == NoTarget
      modifies this`world
      ensures Outcome(old(S()), r) && r == OrError(Breaks(api, GetVm) || Breaks(api, CreateTargetVm))
    {
      ghost var s0 := S();
      ReachesSelf(s0);
      if Breaks(api, GetVm) {
        MayFail(s0);
        return Errored;
      }
      Interfere(s0);
      if Breaks(api, CreateTargetVm) {
        MayFail(s0);
        return Errored;
      }
      ghost var s := S();
      world := world.(target := Halted);
      Took(s0, s, Pipeline(CreateTarget));
      return Finished;
    }

    method PhaseStartVM(api: Answers) returns (r: PhaseResult)
      requires phase == StartVM && RoundRests(S()) && world.target == Halted
      modifies this`world
      ensures Outcome(old(S()), r)
      ensures r == OrError(cfg.startTarget && (Breaks(api, GetVm) || Breaks(api, StartTargetVm)))
    {
      ghost var s0 := S();
      ReachesSelf(s0);
      if !cfg.startTarget {
        return Finished;
      }
      if Breaks(api, GetVm) {
        MayFail(s0);
        return Errored;
      }
      Interfere(s0);
      if Breaks(api, StartTargetVm) {
        MayFail(s0);
        return Errored;
      }
      ghost var s := S();
      world := world.(target := Started);
      Took(s0, s, Pipeline(StartTarget));
      return Finished;
    }

    method RunHook(api: Answers) returns (r: PhaseResult)
      requires (phase == PreHook || phase == PostHook) && RoundRests(S())
      ensures Outcome(S(), r) && HookResult(api, r)
    {
      ReachesSelf(S());
      match api.hook {
        case HookRunning => return Waiting;
        case HookSucceeded => return Finished;
        case HookFailed =>
          MayFail(S());
          return Errored;
      }
    }

    // ----- Delta rounds -----

    method PhasePrecopy(api: Answers) returns (r: PhaseResult, ghost regions: seq<Region>)
      requires phase == Precopy && Ready(S())
      modifies this`warm, this`world, this`log
      ensures Outcome(old(S()), r) && PrecopyResult(old(S()), api, regions, S(), r)
    {
      ghost var s0 := S();
      ReachesSelf(s0);
      regions := [];
      if warm.None? {
        MayFail(s0);
        return Errored, regions;
      }
      if world.cutover.Some? && world.cutover.value < world.clock {
        r := LeaveUnlessActive(s0, api);
        return;
      }
      if warm.value.deltaPod.Some? {
        r := CheckDeltaPod(s0, api);
        return;
      }
      if warm.value.rounds >= cfg.maxRounds {
        return Waiting, regions;
      }
      if warm.value.lastTime.Some? && world.clock - warm.value.lastTime.value < cfg.interval {
        return Waiting, regions;
      }
      r, regions := RunDeltaRound(s0, api);
    }

    /** At cutover: wait for the named pod as long as it is read as active. */
    method LeaveUnlessActive(ghost s0: State, api: Answers) returns (r: PhaseResult)
      requires phase == Precopy && Reaches(s0, S()) && AtRest(S()) && warm.Some? && CutoverPassed(S())
      modifies this`log
      ensures Outcome(s0, r)
      ensures r == if warm.value.deltaPod.Some? && ReadsAs(api, world, warm.value.deltaPod.value, PodActive)
                   then Waiting else Finished
    {
      if warm.value.deltaPod.None? {
        return Finished;
      }
      var name := warm.value.deltaPod.value;
      var seen := GetPodPhase(name, api);
      SeenIsFaithful(api, world, name);
      ghost var s := S();
      log := log.(podRead := Some(PodRead(name, seen)));
      Took(s0, s, Delta(ReadPod(seen)));
      return if seen == SeenActive then Waiting else Finished;
    }

    method PhaseFinalSync(api: Answers) returns (r: PhaseResult, ghost regions: seq<Region>)
      requires phase == FinalSync && Ready(S())
      modifies this`warm, this`world, this`log
      ensures Outcome(old(S()), r) && FinalSyncResult(old(S()), api, regions, S(), r)
    {
      ghost var s0 := S();
      ReachesSelf(s0);
      regions := [];
      if warm.None? {
        MayFail(s0);
        return Errored, regions;
      }
      if warm.value.deltaPod.Some? {
        r := CheckDeltaPod(s0, api);
        return;
      }
      r, regions := RunDeltaRound(s0, api);
    }

    /** A pod that cannot be read (an API error, or gone) is reported as unknown. */
    method GetPodPhase(name: PodName, api: Answers) returns (seen: SeenPod)
      ensures seen == SeenOf(api, world, name) && SeenFits(world, name, seen)
    {
      if Breaks(api, GetPod) || name !in world.pods {
        return SeenUnknown;
      }
      match world.pods[name].phase
      case PodActive => return SeenActive;
      case PodSucceeded => return SeenSucceeded;
      case PodFailed => return SeenFailed;
      case PodDeleted => return SeenUnknown;
    }

    method CheckDeltaPod(ghost s0: State, api: Answers) returns (r: PhaseResult)
      requires (phase == Precopy || phase == FinalSync) && Reaches(s0, S()) && AtRest(S())
      requires warm.Some? && warm.value.deltaPod.Some?
      modifies this`warm, this`world
      ensures Outcome(s0, r) && CollectResult(old(S()), api, S(), r)
    {
      var name := warm.value.deltaPod.value;
      var seen := GetPodPhase(name, api);
      SeenIsFaithful(api, world, name);
      if seen == SeenFailed {
        MayFail(s0);
        return Errored;
      }
      if seen != SeenSucceeded {
        return Waiting;
      }
      Interfere(s0);
      TakePodAway(s0, name, Breaks(api, GetVm));
      return if Breaks(api, GetVm) then Errored else Waiting;
    }

    /** Delete the succeeded pod and go to the next disk, unless reading the VM fails. */
    method TakePodAway(ghost s0: State, name: PodName, failed: bool)
      requires (phase == Precopy || phase == FinalSync) && Reaches(s0, S()) && AtRest(S())
      requires warm.Some? && warm.value.deltaPod == Some(name)
      requires name in world.pods && world.pods[name].phase == PodSucceeded
      modifies this`warm, this`world
      ensures if failed then Reaches(s0, FailWith(S())) else Reaches(s0, S()) && AtRest(S())
      ensures !failed ==>
        warm == Some(old(warm).value.(deltaPod := None, diskIdx := old(warm).value.diskIdx + 1))
    {
      ghost var s := S();
      world := world.(pods := world.pods[name := world.pods[name].(phase := PodDeleted)]);
      warm := Some(warm.value.(deltaPod := None));
      if failed {
        assert S() == DropPod(s);
        ReachesStep(s0, s, Delta(CollectPodFail));
      } else {
        warm := Some(warm.value.(diskIdx := warm.value.diskIdx + 1));
        Took(s0, s, Delta(CollectPod));
      }
    }

    /** The round's snapshot, unless it was taken in an earlier pass. */
    method EnsureDeltaSnapshot(ghost s0: State, api: Answers) returns (failed: bool)
      requires Reaches(s0, S()) && CanRound(S())
      modifies this`warm, this`world
      ensures Reaches(s0, S()) && CanRound(S()) && |world.disks| == |old(world).disks|
      ensures failed <==> old(warm).value.deltaSnap.None? && Breaks(api, CreateRecoveryPoint)
      ensures !failed ==> warm.value.deltaSnap.Some?
      ensures warm == Some(old(warm).value.(deltaSnap := warm.value.deltaSnap))
    {
      if warm.value.deltaSnap.Some? {
        return false;
      }
      failed := Breaks(api, CreateRecoveryPoint);
      if !failed {
        ghost var s := S();
        warm := Some(warm.value.(deltaSnap := Some(world.nextId)));
        world := WithSnapshot(world);
        Took(s0, s, Delta(TakeDeltaSnapshot));
      }
    }

    /** One image per disk, cut from the live disk; disks that have one are skipped. */
    method ExportRound(ghost s0: State, api: Answers) returns (failed: bool)
      requires Reaches(s0, S()) && CanRound(S()) && warm.value.deltaSnap.Some?
      modifies this`warm, this`world
      ensures Reaches(s0, S()) && CanRound(S()) && |world.disks| == |old(world).disks|
      ensures failed <==> SomeExportBreaks(api, |old(warm).value.deltaImages|, |world.disks|)
      ensures !failed ==> |warm.value.deltaImages| == |world.disks|
      ensures warm == Some(old(warm).value.(deltaImages := warm.value.deltaImages))
    {
      var n := |world.disks|;
      ghost var from := |warm.value.deltaImages|;
      for i := 0 to n
        invariant Reaches(s0, S()) && CanRound(S()) && |world.disks| == n
        invariant warm == Some(old(warm).value.(deltaImages := warm.value.deltaImages))
        invariant |warm.value.deltaImages| == if from < i then i else from
        invariant forall k: nat :: from <= k < |warm.value.deltaImages| ==> !Breaks(api, CreateImage(k))
      {
        if i >= |warm.value.deltaImages| {
          Interfere(s0);
          if Breaks(api, CreateImage(i)) {
            return true;
          }
          RecordDeltaImage(s0, i);
        }
      }
      failed := false;
    }

    method RecordDeltaImage(ghost s0: State, i: nat)
      requires Reaches(s0, S()) && DeltaPhase(S()) && warm.value.deltaSnap.Some?
      requires i == |warm.value.deltaImages| < |world.disks|
      modifies this`warm, this`world
      ensures Reaches(s0, S()) && world == WithImage(old(world), i)
      ensures warm == Some(old(warm).value.(deltaImages := old(warm).value.deltaImages + [old(world).nextId]))
    {
      ghost var s := S();
      warm := Some(warm.value.(deltaImages := warm.value.deltaImages + [world.nextId]));
      world := WithImage(world, i);
      Took(s0, s, Delta(ExportDeltaDisk));
    }

    /** The answer, if it contains every byte written between the two snapshots; otherwise the whole disk. */
    method ChangedRegions(api: Answers) returns (regions: seq<Region>)
      requires CanRound(S()) && RoundExported(S()) && warm.value.diskIdx < |world.disks|
      ensures CbtAnswer(S(), regions) && (CbtAnswer(S(), api.regions) ==> regions == api.regions)
    {
      regions := api.regions;
      if !CbtAnswer(S(), regions) {
        var size := |world.disks[warm.value.diskIdx].live|;
        regions := [Region(0, size)];
        forall o | 0 <= o < size
          ensures InRegions(regions, o)
        {
          assert InRegion(regions[0], o);
        }
      }
    }

    method RunDeltaRound(ghost s0: State, api: Answers) returns (r: PhaseResult, ghost regions: seq<Region>)
      requires Reaches(s0, S()) && CanRound(S())
      modifies this`warm, this`world, this`log
      ensures Outcome(s0, r) && RoundResult(old(S()), api, regions, S(), r)
    {
      regions := [];
      var failed := PrepareRound(s0, api);
      if failed {
        MayFail(s0);
        return Errored, regions;
      }
      if warm.value.diskIdx >= |world.disks| {
        r := FinalizeRound(s0);
        return;
      }
      r, regions := SyncCurrentDisk(s0, api);
    }

    /** Snapshot, then exports. */
    method PrepareRound(ghost s0: State, api: Answers) returns (failed: bool)
      requires Reaches(s0, S()) && CanRound(S())
      modifies this`warm, this`world
      ensures Reaches(s0, S()) && CanRound(S()) && |world.disks| == |old(world).disks|
      ensures failed <==> PrepareBreaks(old(S()), api)
      ensures !failed ==> RoundExported(S()) && |warm.value.deltaImages| == |world.disks|
      ensures warm == Some(old(warm).value.(deltaSnap := warm.value.deltaSnap, deltaImages := warm.value.deltaImages))
    {
      failed := EnsureDeltaSnapshot(s0, api);
      if failed {
        return;
      }
      Interfere(s0);
      if Breaks(api, GetVm) {
        return true;
      }
      failed := ExportRound(s0, api);
    }

    /**
     Discover the cluster and collect the changed regions of the current disk page
     by page. The answer depends on the two snapshots only, so it stands whatever
     happens until the pod is created.
     */
    method FetchRegions(ghost s0: State, api: Answers) returns (failed: bool, regions: seq<Region>)
      requires Reaches(s0, S()) && CanRound(S()) && RoundExported(S()) && warm.value.diskIdx < |world.disks|
      modifies this`world
      ensures Reaches(s0, S()) && CanRound(S()) && |world.disks| == |old(world).disks|
      ensures failed <==> Breaks(api, DiscoverCluster) || Breaks(api, GetRegions)
      ensures !failed ==> CbtAnswer(S(), regions)
    {
      Interfere(s0);
      regions := [];
      if Breaks(api, DiscoverCluster) || Breaks(api, GetRegions) {
        return true, regions;
      }
      var answer := ChangedRegions(api);
      CutPageServes(answer, api.ends);
      regions := GetAllRegions(o => CutPage(answer, api.ends, o), answer);
      ghost var s := S();
      Interfere(s0);
      AnswerStands(s, world, regions);
      failed := false;
    }

    /** Query the current disk; skip it if nothing changed, otherwise start its pod. */
    method SyncCurrentDisk(ghost s0: State, api: Answers) returns (r: PhaseResult, regions: seq<Region>)
      requires Reaches(s0, S()) && CanRound(S()) && RoundExported(S()) && warm.value.diskIdx < |world.disks|
      requires |warm.value.deltaImages| == |world.disks|
      modifies this`warm, this`world, this`log
      ensures Outcome(s0, r)
      ensures if Breaks(api, DiscoverCluster) || Breaks(api, GetRegions) then r.Errored?
              else RegionsResult(old(S()), api, regions, S(), r)
    {
      var failed;
      failed, regions := FetchRegions(s0, api);
      if failed {
        MayFail(s0);
        return Errored, regions;
      }
      r := ActOnRegions(s0, api, regions);
    }

    /** Count the bytes, then skip the disk or start its pod. */
    method ActOnRegions(ghost s0: State, api: Answers, regions: seq<Region>) returns (r: PhaseResult)
      requires Reaches(s0, S()) && CanRound(S()) && CbtAnswer(S(), regions)
      requires |warm.value.deltaImages| == |world.disks|
      modifies this`warm, this`world, this`log
      ensures Outcome(s0, r) && RegionsResult(old(S()), api, regions, S(), r)
    {
      ghost var s := S();
      CountBytes(s, regions);
      if regions == [] {
        r := SkipDisk(s0, s);
        return;
      }
      if Breaks(api, CreateConfigMap) || Breaks(api, CreatePod) {
        ReachesStep(s0, s, Delta(SyncDiskFail(regions)));
        return Errored;
      }
      LaunchPod(s0, s, regions);
      return Waiting;
    }

    method CountBytes(ghost s: State, regions: seq<Region>)
      requires s == S() && warm.Some?
      modifies this`warm, this`log
      ensures S() == CountFetch(s, regions)
    {
      var total := DeltaBytes(regions);
      log := log.(fetches := log.fetches + [Fetch(warm.value.rounds, warm.value.diskIdx, regions)]);
      warm := Some(warm.value.(deltaBytes := warm.value.deltaBytes + total));
    }

    /** No changed region: go to the next disk, or finish the round. */
    method SkipDisk(ghost s0: State, ghost s: State) returns (r: PhaseResult)
      requires Reaches(s0, s) && CanRound(s) && CbtAnswer(s, []) && S() == CountFetch(s, [])
      requires |warm.value.deltaImages| == |world.disks|
      modifies this`warm, this`log
      ensures Outcome(s0, r)
      ensures if s.vm.warm.value.diskIdx + 1 >= |world.disks| then RoundClosed(s, S(), r)
              else r.Waiting? && warm.Some? && warm.value.diskIdx == s.vm.warm.value.diskIdx + 1
    {
      PassDisk(s0, s);
      if warm.value.diskIdx >= |world.disks| {
        r := FinalizeRound(s0);
        return;
      }
      return Waiting;
    }

    method PassDisk(ghost s0: State, ghost s: State)
      requires Reaches(s0, s) && CanRound(s) && CbtAnswer(s, []) && S() == CountFetch(s, [])
      requires |warm.value.deltaImages| == |world.disks|
      modifies this`warm
      ensures Reaches(s0, S()) && RoundExported(S()) && !log.finalDone && AtRest(S())
      ensures warm.value.deltaSnap.value in world.snaps
      ensures warm.value.diskIdx == s.vm.warm.value.diskIdx + 1 && warm.value.rounds == s.vm.warm.value.rounds
    {
      warm := Some(warm.value.(diskIdx := warm.value.diskIdx + 1));
      Took(s0, s, Delta(SyncDisk([])));
    }

    /** Create the pod, or take over one of the same name, and remember it. */
    method LaunchPod(ghost s0: State, ghost s: State, regions: seq<Region>)
      requires Reaches(s0, s) && CbtAnswer(s, regions) && S() == CountFetch(s, regions) && regions != []
      modifies this`warm, this`world
      ensures S() == LaunchOrSkip(CountFetch(s, regions), regions) && Reaches(s0, S())
      ensures warm.Some? && warm.value.deltaPod.Some?
    {
      var i := warm.value.diskIdx;
      var name := PodName(if phase == Precopy then PrecopyLabel(warm.value.rounds + 1) else FinalLabel, i);
      if name !in world.pods {
        world := world.(pods := world.pods[name := Pod(i, warm.value.deltaImages[i], regions, {}, PodActive)]);
      }
      warm := Some(warm.value.(deltaPod := Some(name)));
      Took(s0, s, Delta(SyncDisk(regions)));
    }

    /** The finalizer that goes with the handler the round runs in. */
    method FinalizeRound(ghost s0: State) returns (r: PhaseResult)
      requires Reaches(s0, S()) && RoundExported(S()) && warm.value.diskIdx >= |world.disks| && !log.finalDone
      requires warm.value.deltaSnap.value in world.snaps
      modifies this`warm, this`log
      ensures Outcome(s0, r) && RoundClosed(old(S()), S(), r)
    {
      ghost var s := S();
      if phase == Precopy {
        FinalizePrecopyRound();
        Took(s0, s, Delta(FinishRound));
        return Waiting;
      } else {
        FinalizeFinalSync();
        Took(s0, s, Delta(FinishFinal));
        return Finished;
      }
    }

    method DeleteImages(ids: seq<Id>)
      modifies this`log
      ensures log == old(log).(deletedImages := old(log).deletedImages + Elements(ids))
    {
      for i := 0 to |ids|
        invariant log == old(log).(deletedImages := old(log).deletedImages + Elements(ids[..i]))
      {
        log := log.(deletedImages := log.deletedImages + {ids[i]});
        assert Elements(ids[..i + 1]) == Elements(ids[..i]) + {ids[i]};
      }
      assert ids[..|ids|] == ids;
    }

    method DeleteSnapshot(id: Option<Id>)
      modifies this`log
      ensures log == old(log).(deletedSnaps := old(log).deletedSnaps + Singleton(id))
    {
      if id.Some? {
        log := log.(deletedSnaps := log.deletedSnaps + {id.value});
      }
    }

    method FinalizePrecopyRound()
      requires warm.Some?
      modifies this`warm, this`log
      ensures S() == PromoteDelta(old(S()))
    {
      var w := warm.value;
      DeleteSnapshot(w.baseSnap);
      DeleteImages(w.baseImages);
      // Promote the delta to base.
      w := w.(baseSnap := w.deltaSnap, baseImages := w.deltaImages);
      w := w.(rounds := w.rounds + 1);
      w := w.(cumulativeBytes := w.cumulativeBytes + w.deltaBytes, lastDeltaBytes := w.deltaBytes);
      w := w.(lastTime := Some(world.clock));
      log := log.(roundTimes := log.roundTimes + [world.clock]);
      warm := Some(w.(deltaSnap := None, deltaImages := [], deltaPod := None, diskIdx := 0, deltaBytes := 0));
    }

    method FinalizeFinalSync()
      requires warm.Some? && warm.value.deltaSnap.Some? && warm.value.deltaSnap.value in world.snaps
      modifies this`warm, this`log
      ensures S() == FinishFinalSync(old(S()))
    {
      var w := warm.value;
      DeleteSnapshot(w.baseSnap);
      DeleteImages(w.baseImages);
      DeleteImages(w.deltaImages);
      DeleteSnapshot(w.deltaSnap);
      w := w.(cumulativeBytes := w.cumulativeBytes + w.deltaBytes, lastDeltaBytes := w.deltaBytes);
      log := log.(finalDone := true, syncTime := world.snaps[w.deltaSnap.value]);
      warm := Some(w.(deltaSnap := None, deltaImages := [], diskIdx := 0, deltaBytes := 0));
    }

    // ----- Cleanup -----

    method PhaseCleanup() returns (r: PhaseResult)
      requires phase == Cleanup && RoundRests(S()) && !log.cleaned
      modifies this`log
      ensures Outcome(old(S()), r) && r.Finished?
    {
      ghost var s0 := S();
      ReachesSelf(s0);
      DeleteBulk();
      Took(s0, s0, Pipeline(CleanUp));
      return Finished;
    }

    method DeleteBulk()
      modifies this`log
      ensures log == old(log).(cleaned := true,
                               deletedSnaps := old(log).deletedSnaps + Singleton(snapshotUuid),
                               deletedImages := old(log).deletedImages + Elements(imageUuids))
    {
      DeleteImages(imageUuids);
      DeleteSnapshot(snapshotUuid);
      log := log.(cleaned := true);
    }

    method CleanupWarm()
      requires warm.Some?
      modifies this`world, this`log
      ensures log == old(log).(
                deletedSnaps :=
                  old(log).deletedSnaps + Singleton(warm.value.baseSnap) + Singleton(warm.value.deltaSnap),
                deletedImages :=
                  old(log).deletedImages + Elements(warm.value.baseImages) + Elements(warm.value.deltaImages))
      ensures world == FailWith(old(S())).w
    {
      var w := warm.value;
      if w.deltaPod.Some? && w.deltaPod.value in world.pods {
        world := world.(pods := world.pods[w.deltaPod.value := world.pods[w.deltaPod.value].(phase := PodDeleted)]);
      }
      DeleteImages(w.deltaImages);
      DeleteSnapshot(w.deltaSnap);
      DeleteImages(w.baseImages);
      DeleteSnapshot(w.baseSnap);
    }

    /** DataVolumes, first images and snapshot, and the power of a source that was on. */
    method CleanupBulk()
      modifies this`log
      ensures log == old(log).(
                deletedDvs := dataVolumes,
                deletedSnaps := old(log).deletedSnaps + Singleton(snapshotUuid),
                deletedImages := old(log).deletedImages + Elements(imageUuids),
                commands := if originalPowerState == On then old(log).commands + [PowerOnCommand(world.clock)]
                            else old(log).commands)
    {
      log := log.(deletedDvs := dataVolumes);
      DeleteImages(imageUuids);
      DeleteSnapshot(snapshotUuid);
      if originalPowerState == On {
        log := log.(commands := log.commands + [PowerOnCommand(world.clock)]);
      }
    }

    /** Best-effort cleanup of a failing VM: every resource the status names, and the source's power. */
    method CleanupFailedVM()
      modifies this`world, this`log
      ensures world == FailWith(old(S())).w
      ensures log == FailWith(old(S())).log.(history := old(log).history)
    {
      HeldAddsUp(S().vm, log.deletedSnaps, log.deletedImages);
      CleanupBulk();
      if warm.Some? {
        CleanupWarm();
      }
      log := log.(failedIn := Some(phase));
    }

    /** Clean up and mark the VM Failed. */
    method FailVM()
      modifies this`phase, this`world, this`log
      ensures S() == FailWith(old(S()))
    {
      CleanupFailedVM();
      phase := Failed;
      log := log.(history := log.history + [Failed]);
    }

    // ----- The driving loop -----

    /** Dispatch on the phase: the result is the one its handler must give. */
    method ExecutePhase(api: Answers) returns (r: PhaseResult, ghost got: Reads)
      requires IsActive(phase) && Ready(S())
      modifies this`snapshotUuid, this`imageUuids, this`dataVolumes, this`originalPowerState, this`warm,
               this`world, this`log
      ensures Outcome(old(S()), r) && Responds(old(S()), api, got, S(), r)
    {
      got := Reads([], []);
      match phase {
        case StorePowerState => r := PhaseStorePowerState(api);
        case PowerOff => r := PhasePowerOff(api);
        case WaitForPowerOff => r := PhaseWaitForPowerOff(api);
        case CreateSnapshot => r := PhaseCreateSnapshot(api);
        case ExportDisks => r := PhaseExportDisks(api);
        case ImportDisks =>
          ghost var seen;
          r, seen := PhaseImportDisks(api);
          got := Reads(seen, []);
        case CreateVM => r := PhaseCreateVM(api);
        case StartVM => r := PhaseStartVM(api);
        case Cleanup => r := PhaseCleanup();
        case BulkCopy => r := PhaseBulkCopy(api);
        case WaitBulkCopy =>
          ghost var seen;
          r, seen := PhaseWaitBulkCopy(api);
          got := Reads(seen, []);
        case Precopy =>
          ghost var regions;
          r, regions := PhasePrecopy(api);
          got := Reads([], regions);
        case FinalSync =>
          ghost var regions;
          r, regions := PhaseFinalSync(api);
          got := Reads([], regions);
        case PreHook => r := RunHook(api);
        case PostHook => r := RunHook(api);
        case _ => assert false;
      }
    }

    /** The next phase of the order in use. */
    method PickNext() returns (next: Phase)
      ensures next == Successor(phase, cfg.warm)
    {
      var order := Order(cfg.warm);
      OrderHasNoDuplicates(order, cfg.warm);
      next := NextPhaseInOrder(phase, order);
      SuccessorIsNext(phase, cfg.warm, order);
    }

    /** Move to the next phase. */
    method StepPhase(ghost s0: State)
      requires Reaches(s0, S()) && Done(S())
      modifies this`phase, this`log
      ensures S() == AdvancePhase(old(S())) && Reaches(s0, S())
    {
      ghost var s := S();
      var next := PickNext();
      if phase == Precopy && warm.Some? {
        log := log.(leftPrecopyAt := world.cutover, midRound := warm.value.deltaSnap.Some?,
                    leftPod := warm.value.deltaPod);
      }
      phase := next;
      log := log.(history := log.history + [next]);
      Took(s0, s, Life(Advance));
    }

    method FinishPhase(ghost s0: State)
      requires Reaches(s0, S()) && Inv(S()) && RoundRests(S()) && Done(S())
      modifies this`phase, this`log
      ensures AtRest(S()) && Reaches(s0, S())
      ensures phase == Successor(old(phase), cfg.warm) && Rank(phase) > Rank(old(phase))
    {
      DoneClimbs(S());
      AdvanceRests(S());
      StepPhase(s0);
    }

    /**
     One execution of the handler. Anything may have happened since the last one:
     entry is the state in which it is entered.
     */
    method RunPhase(api: Answers) returns (r: PhaseResult, ghost entry: State, ghost got: Reads)
      requires Valid() && IsActive(phase)
      modifies this`snapshotUuid, this`imageUuids, this`dataVolumes, this`originalPowerState, this`warm,
               this`world, this`log, this`executed, this`result
      ensures Outcome(old(S()), r) && entry == old(S()).(w := entry.w)
      ensures Responds(entry, api, got, S(), r)
      ensures executed == old(executed) + 1 && result == r
    {
      ghost var s := S();
      EnterPhase();
      entry := S();
      r, got := ExecutePhase(api);
      ReachesTrans(s, entry, if r.Errored? then FailWith(S()) else S());
      executed, result := executed + 1, r;
    }

    /** Time passes before a handler is entered. */
    method EnterPhase()
      requires Valid() && IsActive(phase)
      modifies this`world
      ensures Reaches(old(S()), S()) && Ready(S())
    {
      ghost var s := S();
      ReachesSelf(s);
      Interfere(s);
      ReachesTrans(origin, s, S());
      ReachableInv(S());
      InvMakesReady(S());
    }

    /** Executes the current phase and acts on its result. */
    method OnePhase() returns (r: PhaseResult)
      requires Valid() && IsActive(phase)
      modifies this`phase, this`snapshotUuid, this`imageUuids, this`dataVolumes, this`originalPowerState, this`warm,
               this`world, this`log, this`executed, this`result
      ensures Valid() && Reaches(old(S()), S())
      ensures r.Errored? ==> phase == Failed
      ensures r.Waiting? ==> phase == old(phase)
      ensures r.Finished? ==> phase == Successor(old(phase), cfg.warm) && Rank(phase) > Rank(old(phase))
      ensures executed == old(executed) + 1 && result == r
    {
      ghost var s := S();
      var api: Answers := *;
      ghost var entry, got;
      r, entry, got := RunPhase(api);
      Settle(s, r);
      ReachesTrans(origin, s, S());
    }

    /** Fails the VM on an error, moves it on after completion. */
    method Settle(ghost s: State, r: PhaseResult)
      requires Init(origin) && Reaches(origin, s) && Outcome(s, r)
      modifies this`phase, this`world, this`log
      ensures Reaches(s, S()) && AtRest(S())
      ensures r.Errored? ==> S() == FailWith(old(S()))
      ensures r.Waiting? ==> S() == old(S())
      ensures r.Finished? ==> phase == Successor(old(phase), cfg.warm) && Rank(phase) > Rank(old(phase))
    {
      if r.Errored? {
        FailVM();
      } else if r.Finished? {
        CompletePhase(s);
      }
    }

    method CompletePhase(ghost s: State)
      requires Init(origin) && Reaches(origin, s) && Reaches(s, S()) && RoundRests(S()) && Done(S())
      modifies this`phase, this`log
      ensures AtRest(S()) && Reaches(s, S())
      ensures phase == Successor(old(phase), cfg.warm) && Rank(phase) > Rank(old(phase))
    {
      ReachesTrans(origin, s, S());
      ReachableInv(S());
      FinishPhase(s);
    }

    /** The scheduler takes the VM out of Pending. */
    method Start()
      requires Valid() && phase == Pending
      modifies this`phase, this`started, this`log
      ensures Valid() && Reaches(old(S()), S()) && phase == PreHook && started
    {
      ghost var s := S();
      ReachesSelf(s);
      started := true;
      phase := PreHook;
      log := log.(history := log.history + [PreHook]);
      Took(s, s, Life(Begin));
      ReachesTrans(origin, s, S());
    }

    /** Cancellation only marks the VM: nothing is cleaned up. */
    method CancelVM()
      requires Valid() && !IsTerminal(phase)
      modifies this`phase, this`log
      ensures Valid() && Reaches(old(S()), S()) && phase == Cancelled && world == old(world)
    {
      ghost var s := S();
      ReachesSelf(s);
      phase := Cancelled;
      log := log.(history := log.history + [Cancelled]);
      Took(s, s, Life(Cancel));
      ReachesTrans(origin, s, S());
    }

    /**
     Drives the VM through its phases until a handler waits or the VM ends. The loop
     has no bound of its own; it ends because every completed phase lies further
     along the order. A VM that has not ended is executed at least once.
     */
    method AdvanceSingleVM() returns (requeue: bool)
      requires Valid() && phase != Pending
      modifies this`phase, this`snapshotUuid, this`imageUuids, this`dataVolumes, this`originalPowerState, this`warm,
               this`world, this`log, this`executed, this`result
      ensures Valid() && Reaches(old(S()), S())
      ensures requeue <==> !IsTerminal(phase)
      ensures phase != Pending
      ensures if IsTerminal(old(phase)) then executed == old(executed) else executed > old(executed)
      ensures requeue ==> result.Waiting?
    {
      ghost var s0 := S();
      ReachesSelf(s0);
      while true
        invariant Valid() && Reaches(s0, S()) && phase != Pending
        invariant executed == old(executed) ==> phase == old(phase)
        invariant executed >= old(executed)
        invariant IsTerminal(old(phase)) ==> executed == old(executed)
        decreases 20 - Rank(phase)
      {
        if IsTerminal(phase) {
          return false;
        }
        ghost var s := S();
        var r := OnePhase();
        ReachesTrans(s0, s, S());
        if r.Errored? {
          return false;
        }
        if r.Waiting? {
          return true;
        }
        if phase == Completed {
          return false;
        }
      }
    }
  }
}
