/**
 Power of the source and of the target over whole runs: what OriginalPowerState
 means, which power commands are ever issued, when the source is restored, and
 when both copies of the VM can be on at the same time.
 */
module Power {
  import opened Wrappers
  import opened Phases
  import opened Machine
  import opened Structure

  predicate OnlyPowerOffs(commands: seq<PowerCommand>) {
    forall i :: 0 <= i < |commands| ==> commands[i].PowerOffCommand?
  }

  /** Which commands are ever issued, and that a failed VM that was on is switched on again. */
  ghost predicate RestoreOk(s: State) {
    var cs := s.log.commands;
    && (s.vm.original == Off ==> cs == [])
    && (!(s.vm.phase == Failed && s.vm.original == On) ==> OnlyPowerOffs(cs))
    && (s.vm.phase == Failed && s.vm.original == On ==>
          cs != [] && Last(cs).PowerOnCommand? && OnlyPowerOffs(cs[..|cs| - 1]))
    && (cs != [] && OnTrack(s) ==> Rank(s.vm.phase) >= Rank(PowerOff))
    && (OnTrack(s) ==> |cs| <= 1)
    && (OnTrack(s) && Rank(s.vm.phase) > Rank(PowerOff) && s.vm.original != Off ==> cs != [])
  }

  /** No PowerOff of a warm VM before the cutover time that Precopy was left for. */
  ghost predicate CutoverFirst(s: State) {
    s.cfg.warm ==>
      && (OnTrack(s) && Rank(s.vm.phase) > Rank(Precopy) ==>
            s.log.leftPrecopyAt.Some? && s.log.leftPrecopyAt.value < s.w.clock)
      && forall i :: 0 <= i < |s.log.commands| && s.log.commands[i].PowerOffCommand? ==>
           s.log.leftPrecopyAt.Some? && s.log.leftPrecopyAt.value < s.log.commands[i].at
  }

  ghost predicate CommandsOk(s: State) {
    RestoreOk(s) && CutoverFirst(s)
  }

  ghost predicate CopiesOk(s: State) {
    && (s.log.offSeen && s.w.power != Off ==> s.vm.phase == Failed && s.vm.original == On)
    && (s.w.target == Started ==> s.cfg.startTarget && s.log.offSeen)
    && (s.w.target == Started && OnTrack(s) ==> Rank(s.vm.phase) >= Rank(StartVM))
    && (s.w.target == Started && s.vm.phase == Failed ==> s.log.failedIn == Some(PostHook))
    && (OnTrack(s) && Rank(s.vm.phase) > Rank(StartVM) && s.cfg.startTarget ==> s.w.target == Started)
  }

  lemma InitPower(s: State)
    requires Init(s)
    ensures CommandsOk(s) && CopiesOk(s)
  {
  }

  /** Shared by every way of failing, also from states where only the round's bookkeeping differs. */
  lemma FailKeepsPower(s: State)
    requires PowerOk(s) && CommandsOk(s) && CopiesOk(s) && CanFail(s)
    ensures CommandsOk(FailWith(s)) && CopiesOk(FailWith(s))
  {
    FailKeepsCommands(s);
    FailKeepsCopies(s);
  }

  lemma FailKeepsCopies(s: State)
    requires CopiesOk(s) && CanFail(s)
    ensures CopiesOk(FailWith(s))
  {
  }

  lemma FailKeepsCommands(s: State)
    requires PowerOk(s) && CommandsOk(s) && CanFail(s)
    ensures CommandsOk(FailWith(s))
  {
    FailRestores(s);
    FailKeepsCutover(s);
  }

  lemma FailRestores(s: State)
    requires RestoreOk(s) && IsActive(s.vm.phase)
    ensures RestoreOk(FailWith(s))
  {
    if s.vm.original == On {
      AppendedLast(s.log.commands, PowerOnCommand(s.w.clock));
    }
  }

  lemma AppendedLast(cs: seq<PowerCommand>, c: PowerCommand)
    ensures (cs + [c])[..|cs + [c]| - 1] == cs && Last(cs + [c]) == c
  {
  }

  lemma FailKeepsCutover(s: State)
    requires CutoverFirst(s) && IsActive(s.vm.phase)
    ensures CutoverFirst(FailWith(s))
  {
  }

  lemma AdvanceKeepsRestore(s: State)
    requires PhaseFits(s.vm.phase, s.cfg.warm) && RestoreOk(s) && Done(s)
    ensures RestoreOk(AdvancePhase(s))
  {
    DoneClimbs(s);
  }

  lemma AdvanceKeepsCutover(s: State)
    requires PhaseFits(s.vm.phase, s.cfg.warm) && RestoreOk(s) && CutoverFirst(s) && Done(s)
    ensures CutoverFirst(AdvancePhase(s))
  {
    assert s.log.commands != [] ==> s.vm.phase != Precopy;
  }

  lemma AdvanceKeepsCopies(s: State)
    requires CopiesOk(s) && Done(s)
    ensures CopiesOk(AdvancePhase(s))
  {
  }

  lemma LifeKeepsPower(s: State, l: LifeStep)
    requires StructureOk(s) && CommandsOk(s) && CopiesOk(s) && LifeEnabled(s, l)
    ensures CommandsOk(LifeApply(s, l)) && CopiesOk(LifeApply(s, l))
  {
    match l
    case Advance =>
      AdvanceKeepsRestore(s);
      AdvanceKeepsCutover(s);
      AdvanceKeepsCopies(s);
    case Fail => FailKeepsPower(s);
    case _ =>
  }

  lemma PipelineKeepsPower(s: State, p: PipelineStep)
    requires StructureOk(s) && CommandsOk(s) && CopiesOk(s) && PipelineEnabled(s, p)
    ensures CommandsOk(PipelineApply(s, p)) && CopiesOk(PipelineApply(s, p))
  {
    PipelineKeepsRestore(s, p);
    PipelineKeepsCutover(s, p);
    PipelineKeepsCopies(s, p);
  }

  lemma PipelineKeepsRestore(s: State, p: PipelineStep)
    requires PowerOk(s) && RestoreOk(s) && PipelineEnabled(s, p)
    ensures RestoreOk(PipelineApply(s, p))
  {
  }

  lemma PipelineKeepsCutover(s: State, p: PipelineStep)
    requires CutoverFirst(s) && PipelineEnabled(s, p)
    ensures CutoverFirst(PipelineApply(s, p))
  {
  }

  lemma PipelineKeepsCopies(s: State, p: PipelineStep)
    requires PowerOk(s) && CopiesOk(s) && PipelineEnabled(s, p)
    ensures CopiesOk(PipelineApply(s, p))
  {
  }

  lemma DeltaKeepsPower(s: State, d: DeltaStep)
    requires StructureOk(s) && CommandsOk(s) && CopiesOk(s) && DeltaEnabled(s, d)
    ensures CommandsOk(DeltaApply(s, d)) && CopiesOk(DeltaApply(s, d))
  {
    match d
    case SyncDiskFail(regions) => LateFailKeepsPower(s, CountFetch(s, regions));
    case CollectPodFail => LateFailKeepsPower(s, DropPod(s));
    case _ =>
      DeltaCommandsNothing(s, d);
      SamePowerKeeps(s, DeltaApply(s, d));
  }

  /** Nothing that power depends on differs. */
  ghost predicate SamePower(s: State, s': State) {
    && s'.cfg == s.cfg && s'.vm.phase == s.vm.phase && s'.vm.original == s.vm.original
    && s'.w.target == s.w.target && s'.w.power == s.w.power && s'.w.clock >= s.w.clock
    && s'.log.commands == s.log.commands && s'.log.offSeen == s.log.offSeen
    && s'.log.leftPrecopyAt == s.log.leftPrecopyAt && s'.log.failedIn == s.log.failedIn
  }

  /** Failing after the bookkeeping of a round has changed. */
  lemma LateFailKeepsPower(s: State, m: State)
    requires StructureOk(s) && CommandsOk(s) && CopiesOk(s) && SamePower(s, m) && m.log.observed == s.log.observed
    requires (s.vm.phase == Precopy || s.vm.phase == FinalSync) && m.log.finalDone == s.log.finalDone
    requires !s.log.finalDone
    ensures CommandsOk(FailWith(m)) && CopiesOk(FailWith(m))
  {
    SamePowerKeeps(s, m);
    FailKeepsPower(m);
  }

  lemma SamePowerKeeps(s: State, s': State)
    requires SamePower(s, s') && CommandsOk(s) && CopiesOk(s)
    ensures CommandsOk(s') && CopiesOk(s')
  {
  }

  /** The other steps of a round command nothing. */
  lemma DeltaCommandsNothing(s: State, d: DeltaStep)
    requires DeltaEnabled(s, d) && !d.SyncDiskFail? && !d.CollectPodFail?
    ensures SamePower(s, DeltaApply(s, d))
  {
  }

  lemma EnvKeepsPower(s: State, e: EnvStep)
    requires StructureOk(s) && CommandsOk(s) && CopiesOk(s) && EnvEnabled(s, e)
    ensures CommandsOk(s.(w := EnvApply(s, e))) && CopiesOk(s.(w := EnvApply(s, e)))
  {
    if e.PowerOnTakesEffect? {
      assert s.log.commands[|s.log.commands| - 1].PowerOnCommand?;
    }
  }

  lemma StepKeepsPower(s: State, a: Step)
    requires StructureOk(s) && CommandsOk(s) && CopiesOk(s) && Enabled(s, a)
    ensures CommandsOk(Apply(s, a)) && CopiesOk(Apply(s, a))
  {
    match a
    case Life(l) => LifeKeepsPower(s, l);
    case Pipeline(p) => PipelineKeepsPower(s, p);
    case Delta(d) => DeltaKeepsPower(s, d);
    case Env(e) => EnvKeepsPower(s, e);
  }
}
