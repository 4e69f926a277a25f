/**
 The course of a run: the phases a VM goes through, how many precopy rounds it
 does and how far apart, and the count of the bytes they transfer.
 */
module Rounds {
  import opened Wrappers
  import opened Phases
  import opened Disks
  import opened Machine
  import opened Structure

  // ----- Phase history -----

  predicate IsPrefix(h: seq<Phase>, order: seq<Phase>) {
    |h| <= |order| && h == order[..|h|]
  }

  predicate Follows(h: seq<Phase>, i: nat, warm: bool)
    requires i + 1 < |h|
  {
    !IsTerminal(h[i]) && h[i + 1] == Successor(h[i], warm)
  }

  /** From Pending, each phase followed by its successor. */
  ghost predicate Climbs(h: seq<Phase>, warm: bool) {
    && h != [] && h[0] == Pending
    && forall i :: 0 <= i < |h| - 1 ==> Follows(h, i, warm)
  }

  /** The phases passed through climb the plan's order, then possibly end in Failed or Cancelled. */
  ghost predicate HistoryOk(s: State) {
    var h := s.log.history;
    && h != [] && Last(h) == s.vm.phase
    && (OnTrack(s) ==> Climbs(h, s.cfg.warm))
    && (!OnTrack(s) ==> |h| >= 2 && Climbs(h[..|h| - 1], s.cfg.warm) && !IsTerminal(h[|h| - 2]))
  }

  lemma ClimbShrinks(h: seq<Phase>, warm: bool)
    requires Climbs(h, warm) && |h| > 1
    ensures Climbs(h[..|h| - 1], warm)
    ensures !IsTerminal(h[|h| - 2]) && h[|h| - 1] == Successor(h[|h| - 2], warm)
  {
    var g := h[..|h| - 1];
    assert Follows(h, |h| - 2, warm);
    forall i | 0 <= i < |g| - 1
      ensures Follows(g, i, warm)
    {
      assert Follows(h, i, warm);
    }
  }

  lemma ClimbGrows(h: seq<Phase>, warm: bool)
    requires Climbs(h, warm) && !IsTerminal(Last(h))
    ensures Climbs(h + [Successor(Last(h), warm)], warm)
  {
    var g := h + [Successor(Last(h), warm)];
    forall i | 0 <= i < |g| - 1
      ensures Follows(g, i, warm)
    {
      if i + 1 < |h| {
        assert Follows(h, i, warm);
      }
    }
  }

  lemma {:induction false} ClimbIsPrefix(h: seq<Phase>, warm: bool, order: seq<Phase>)
    requires Climbs(h, warm) && FollowsSuccessors(order, warm)
    ensures IsPrefix(h, order)
    decreases |h|
  {
    if |h| > 1 {
      var g := h[..|h| - 1];
      ClimbShrinks(h, warm);
      ClimbIsPrefix(g, warm, order);
      assert GoesOn(order, warm, |g| - 1);
      PrefixGrows(g, order, h[|h| - 1]);
      assert h == g + [h[|h| - 1]];
    }
  }

  lemma PrefixGrows(g: seq<Phase>, order: seq<Phase>, p: Phase)
    requires IsPrefix(g, order) && |g| < |order| && order[|g|] == p
    ensures IsPrefix(g + [p], order)
  {
  }

  lemma HistoryIsPrefix(s: State, order: seq<Phase>)
    requires HistoryOk(s) && order == Order(s.cfg.warm)
    ensures OnTrack(s) ==> IsPrefix(s.log.history, order)
    ensures !OnTrack(s) ==> |s.log.history| > 0 && IsPrefix(s.log.history[..|s.log.history| - 1], order)
  {
    var h := s.log.history;
    OrderFollowsSuccessors(order, s.cfg.warm);
    if OnTrack(s) {
      ClimbIsPrefix(h, s.cfg.warm, order);
    } else {
      ClimbIsPrefix(h[..|h| - 1], s.cfg.warm, order);
    }
  }

  lemma LeaveKeepsHistory(s: State, p: Phase)
    requires HistoryOk(s) && !IsTerminal(s.vm.phase) && (p == Failed || p == Cancelled)
    ensures var h := s.log.history + [p];
            |h| >= 2 && Climbs(h[..|h| - 1], s.cfg.warm) && !IsTerminal(h[|h| - 2]) && Last(h) == p
  {
    var h := s.log.history + [p];
    assert h[..|h| - 1] == s.log.history;
  }

  lemma AdvanceKeepsHistory(s: State)
    requires HistoryOk(s) && Done(s)
    ensures HistoryOk(AdvancePhase(s))
  {
    ClimbGrows(s.log.history, s.cfg.warm);
    assert OnTrack(AdvancePhase(s));
  }

  lemma LifeKeepsHistory(s: State, l: LifeStep)
    requires HistoryOk(s) && LifeEnabled(s, l)
    ensures HistoryOk(LifeApply(s, l))
  {
    match l
    case Cancel => LeaveKeepsHistory(s, Cancelled);
    case Fail => FailKeepsHistory(s);
    case Begin => BeginKeepsHistory(s);
    case Advance => AdvanceKeepsHistory(s);
  }

  lemma BeginKeepsHistory(s: State)
    requires HistoryOk(s) && s.vm.phase == Pending
    ensures HistoryOk(SetPhase(s, PreHook))
  {
    ClimbGrows(s.log.history, s.cfg.warm);
  }

  lemma FailKeepsHistory(s: State)
    requires HistoryOk(s) && IsActive(s.vm.phase)
    ensures HistoryOk(FailWith(s))
  {
    LeaveKeepsHistory(s, Failed);
  }

  lemma DeltaKeepsHistory(s: State, d: DeltaStep)
    requires HistoryOk(s) && DeltaEnabled(s, d)
    ensures HistoryOk(DeltaApply(s, d))
  {
    match d
    case SyncDiskFail(regions) => FailKeepsHistory(CountFetch(s, regions));
    case CollectPodFail => FailKeepsHistory(DropPod(s));
    case _ => DeltaStays(s, d);
  }

  lemma DeltaStays(s: State, d: DeltaStep)
    requires DeltaEnabled(s, d) && !d.SyncDiskFail? && !d.CollectPodFail?
    ensures var s' := DeltaApply(s, d);
      s'.log.history == s.log.history && s'.vm.phase == s.vm.phase && s'.cfg == s.cfg
  {
  }

  // ----- Precopy discipline -----

  ghost predicate RoundsOk(s: State) {
    && (forall i :: 0 <= i < |s.log.roundTimes| ==> s.log.roundTimes[i] <= s.w.clock)
    && (forall i, j :: 0 <= i < j < |s.log.roundTimes| && j == i + 1 ==>
          s.log.roundTimes[j] - s.log.roundTimes[i] >= s.cfg.interval)
    && (s.vm.warm.None? ==> s.log.roundTimes == [])
    && (s.vm.warm.Some? ==>
          var warm := s.vm.warm.value;
          && warm.rounds == |s.log.roundTimes|
          && (warm.rounds == 0 || warm.rounds <= s.cfg.maxRounds)
          && warm.lastTime == (if warm.rounds == 0 then None else Some(Last(s.log.roundTimes)))
          && (s.vm.phase == Precopy && warm.deltaSnap.Some? ==>
                warm.rounds < s.cfg.maxRounds && IntervalElapsed(s)))
  }

  // ----- Conservation of bytes -----

  /** Total length of all regions ever fetched. */
  function FetchedBytes(fetches: seq<Fetch>): int {
    if fetches == [] then 0
    else FetchedBytes(fetches[..|fetches| - 1]) + TotalLength(Last(fetches).regions)
  }

  /** This round and disk has already been queried. */
  ghost predicate Fetched(s: State, round: nat, disk: nat)
    requires s.vm.warm.Some?
  {
    var warm := s.vm.warm.value;
    || round < warm.rounds
    || (round == warm.rounds &&
        (disk < warm.diskIdx || (disk == warm.diskIdx && warm.deltaPod.Some?) || s.log.finalDone))
  }

  /** Total length of the regions fetched in one round. */
  function RoundBytes(fetches: seq<Fetch>, round: int): int {
    if fetches == [] then 0
    else RoundBytes(fetches[..|fetches| - 1], round) +
         (if Last(fetches).round == round then TotalLength(Last(fetches).regions) else 0)
  }

  lemma {:induction false} NoRoundBytes(fetches: seq<Fetch>, round: int)
    requires forall i :: 0 <= i < |fetches| ==> fetches[i].round != round
    ensures RoundBytes(fetches, round) == 0
    decreases |fetches|
  {
    if fetches != [] {
      NoRoundBytes(fetches[..|fetches| - 1], round);
    }
  }

  /** The status counts the bytes of the round in progress and of the round completed last. */
  ghost predicate RoundBytesOk(s: State) {
    s.vm.warm.Some? ==>
      var warm := s.vm.warm.value;
      if s.log.finalDone
      then warm.deltaBytes == 0 && warm.lastDeltaBytes == RoundBytes(s.log.fetches, warm.rounds)
      else warm.deltaBytes == RoundBytes(s.log.fetches, warm.rounds) &&
           warm.lastDeltaBytes == if warm.rounds == 0 then 0 else RoundBytes(s.log.fetches, warm.rounds - 1)
  }

  ghost predicate BytesOk(s: State) {
    && (s.vm.warm.None? ==> s.log.fetches == [])
    && (s.vm.warm.Some? ==>
          s.vm.warm.value.cumulativeBytes + s.vm.warm.value.deltaBytes == FetchedBytes(s.log.fetches))
    && RoundBytesOk(s)
    && (forall i, j :: 0 <= i < j < |s.log.fetches| ==>
          s.log.fetches[i].round != s.log.fetches[j].round || s.log.fetches[i].disk != s.log.fetches[j].disk)
    && (OnTrack(s) && s.vm.warm.Some? ==> forall i :: 0 <= i < |s.log.fetches| ==>
          Fetched(s, s.log.fetches[i].round, s.log.fetches[i].disk))
  }

  ghost predicate CourseOk(s: State) {
    HistoryOk(s) && RoundsOk(s) && BytesOk(s)
  }

  lemma InitCourse(s: State)
    requires Init(s)
    ensures CourseOk(s)
  {
  }

  lemma LifeKeepsCourse(s: State, l: LifeStep)
    requires StructureOk(s) && CourseOk(s) && LifeEnabled(s, l)
    ensures CourseOk(LifeApply(s, l))
  {
    LifeKeepsHistory(s, l);
    LifeKeepsRounds(s, l);
    LifeKeepsBytes(s, l);
  }

  /** The rounds depend on the phase only while one is open. */
  lemma PhaseKeepsRounds(s: State, s': State)
    requires RoundsOk(s) && s'.vm.warm == s.vm.warm && s'.cfg == s.cfg && s'.w.clock == s.w.clock
    requires s'.log.roundTimes == s.log.roundTimes
    requires s'.vm.phase == Precopy ==> s.vm.phase == Precopy || s.vm.warm.None? || s.vm.warm.value.deltaSnap.None?
    ensures RoundsOk(s')
  {
  }

  lemma LifeKeepsRounds(s: State, l: LifeStep)
    requires StructureOk(s) && RoundsOk(s) && LifeEnabled(s, l)
    ensures RoundsOk(LifeApply(s, l))
  {
    EntersPrecopyBetweenRounds(s, l);
    PhaseKeepsRounds(s, LifeApply(s, l));
  }

  lemma EntersPrecopyBetweenRounds(s: State, l: LifeStep)
    requires StructureOk(s) && LifeEnabled(s, l)
    ensures LifeApply(s, l).vm.phase == Precopy ==> s.vm.warm.Some? && s.vm.warm.value.deltaSnap.None?
    ensures var s' := LifeApply(s, l);
      && s'.vm.warm == s.vm.warm && s'.cfg == s.cfg && s'.w.clock == s.w.clock
      && s'.log.roundTimes == s.log.roundTimes && s'.log.fetches == s.log.fetches
      && (OnTrack(s') ==> OnTrack(s)) && s'.log.finalDone == s.log.finalDone
  {
  }

  /** What was fetched does not depend on the phase. */
  lemma SameFetchesKeep(s: State, s': State)
    requires BytesOk(s) && s'.vm.warm == s.vm.warm && s'.log.fetches == s.log.fetches
    requires s'.log.finalDone == s.log.finalDone && (OnTrack(s') ==> OnTrack(s))
    ensures BytesOk(s')
  {
  }

  lemma LifeKeepsBytes(s: State, l: LifeStep)
    requires StructureOk(s) && BytesOk(s) && LifeEnabled(s, l)
    ensures BytesOk(LifeApply(s, l))
  {
    EntersPrecopyBetweenRounds(s, l);
    SameFetchesKeep(s, LifeApply(s, l));
  }

  lemma PipelineKeepsCourse(s: State, p: PipelineStep)
    requires StructureOk(s) && CourseOk(s) && PipelineEnabled(s, p)
    ensures CourseOk(PipelineApply(s, p))
  {
    PipelineKeepsPhase(s, p);
    PipelineFetchesNothing(s, p);
    PipelineKeepsRounds(s, p);
    PipelineKeepsBytes(s, p);
  }

  lemma PipelineKeepsBytes(s: State, p: PipelineStep)
    requires BytesOk(s) && PipelineEnabled(s, p) && (s.vm.warm.None? ==> !s.log.finalDone)
    ensures BytesOk(PipelineApply(s, p))
  {
    PipelineKeepsPhase(s, p);
    PipelineFetchesNothing(s, p);
    if p.InitWarm? {
      FirstBytes(s);
    } else {
      SameFetchesKeep(s, PipelineApply(s, p));
    }
  }

  lemma FirstBytes(s: State)
    requires BytesOk(s) && PipelineEnabled(s, InitWarm) && !s.log.finalDone
    ensures BytesOk(PipelineApply(s, InitWarm))
  {
  }

  lemma PipelineFetchesNothing(s: State, p: PipelineStep)
    requires PipelineEnabled(s, p)
    ensures PipelineApply(s, p).log.fetches == s.log.fetches && PipelineApply(s, p).log.history == s.log.history
  {
  }

  lemma PipelineKeepsRounds(s: State, p: PipelineStep)
    requires RoundsOk(s) && PipelineEnabled(s, p)
    ensures RoundsOk(PipelineApply(s, p))
  {
  }

  lemma CountKeepsBytes(s: State, regions: seq<Region>)
    requires BytesOk(s) && s.vm.warm.Some?
    requires OnTrack(s) && !Fetched(s, s.vm.warm.value.rounds, s.vm.warm.value.diskIdx)
    ensures RoundBytesOk(CountFetch(s, regions))
    ensures var s' := CountFetch(s, regions);
            s'.vm.warm.value.cumulativeBytes + s'.vm.warm.value.deltaBytes == FetchedBytes(s'.log.fetches)
    ensures var fs := CountFetch(s, regions).log.fetches;
            forall i, j :: 0 <= i < j < |fs| ==> fs[i].round != fs[j].round || fs[i].disk != fs[j].disk
  {
    var fs := CountFetch(s, regions).log.fetches;
    assert fs[..|fs| - 1] == s.log.fetches;
  }

  lemma SyncKeepsBytes(s: State, regions: seq<Region>)
    requires StructureOk(s) && BytesOk(s) && CbtAnswer(s, regions)
    ensures BytesOk(LaunchOrSkip(CountFetch(s, regions), regions))
  {
    CountKeepsBytes(s, regions);
    SyncCounts(s, regions);
    SyncMarksFetched(s, regions);
  }

  /** Passing a disk or starting its pod does not change the counts. */
  lemma SyncCounts(s: State, regions: seq<Region>)
    requires CbtAnswer(s, regions)
    ensures var m, s' := CountFetch(s, regions), LaunchOrSkip(CountFetch(s, regions), regions);
      && s'.log == m.log && s'.vm.warm.Some? && m.vm.warm.Some?
      && s'.vm.warm.value == m.vm.warm.value.(diskIdx := s'.vm.warm.value.diskIdx,
                                              deltaPod := s'.vm.warm.value.deltaPod)
  {
  }

  lemma SyncMarksFetched(s: State, regions: seq<Region>)
    requires StructureOk(s) && BytesOk(s) && CbtAnswer(s, regions)
    ensures var s' := LaunchOrSkip(CountFetch(s, regions), regions);
      s'.vm.warm.Some? && forall i :: 0 <= i < |s'.log.fetches| ==>
        Fetched(s', s'.log.fetches[i].round, s'.log.fetches[i].disk)
  {
    var s' := LaunchOrSkip(CountFetch(s, regions), regions);
    forall i | 0 <= i < |s'.log.fetches|
      ensures Fetched(s', s'.log.fetches[i].round, s'.log.fetches[i].disk)
    {
      if i < |s.log.fetches| {
        assert Fetched(s, s.log.fetches[i].round, s.log.fetches[i].disk);
      }
    }
  }

  lemma SyncFailKeepsBytes(s: State, regions: seq<Region>)
    requires StructureOk(s) && BytesOk(s) && CbtAnswer(s, regions)
    ensures BytesOk(FailWith(CountFetch(s, regions)))
  {
    CountKeepsBytes(s, regions);
    FailCounts(CountFetch(s, regions));
  }

  lemma FailCounts(m: State)
    ensures var s' := FailWith(m);
      s'.vm.warm == m.vm.warm && s'.log.fetches == m.log.fetches && s'.log.finalDone == m.log.finalDone && !OnTrack(s')
  {
  }

  lemma DeltaKeepsBytes(s: State, d: DeltaStep)
    requires StructureOk(s) && BytesOk(s) && DeltaEnabled(s, d)
    ensures BytesOk(DeltaApply(s, d))
  {
    match d
    case SyncDisk(regions) => SyncKeepsBytes(s, regions);
    case SyncDiskFail(regions) => SyncFailKeepsBytes(s, regions);
    case FinishRound => PromoteKeepsBytes(s);
    case FinishFinal => FinalKeepsBytes(s);
    case CollectPod => CollectKeepsBytes(s);
    case CollectPodFail => LateFailKeepsBytes(s, DropPod(s));
    case _ => OtherDeltaKeepsBytes(s, d);
  }

  lemma LateFailKeepsBytes(s: State, m: State)
    requires BytesOk(s) && s.vm.warm.Some? && m.vm.warm.Some? && m.log.fetches == s.log.fetches
    requires m.vm.warm.value == s.vm.warm.value.(deltaPod := None) && m.log.finalDone == s.log.finalDone
    ensures BytesOk(FailWith(m))
  {
  }

  /** Snapshots, exports and reads of pods fetch nothing. */
  lemma OtherDeltaKeepsBytes(s: State, d: DeltaStep)
    requires d.TakeDeltaSnapshot? || d.ExportDeltaDisk? || d.ReadPod?
    requires BytesOk(s) && DeltaEnabled(s, d)
    ensures BytesOk(DeltaApply(s, d))
  {
  }

  /** The bytes of the closed round become those of the last one; the next round has none yet. */
  lemma PromoteKeepsBytes(s: State)
    requires StructureOk(s) && BytesOk(s) && DeltaEnabled(s, FinishRound)
    ensures BytesOk(PromoteDelta(s))
  {
    assert !s.log.finalDone;
    forall i | 0 <= i < |s.log.fetches|
      ensures s.log.fetches[i].round != s.vm.warm.value.rounds + 1
    {
      assert Fetched(s, s.log.fetches[i].round, s.log.fetches[i].disk);
    }
    NoRoundBytes(s.log.fetches, s.vm.warm.value.rounds + 1);
  }

  lemma FinalKeepsBytes(s: State)
    requires StructureOk(s) && BytesOk(s) && DeltaEnabled(s, FinishFinal)
    ensures BytesOk(FinishFinalSync(s))
  {
  }

  lemma CollectKeepsBytes(s: State)
    requires BytesOk(s) && PodCollectable(s)
    ensures BytesOk(NextDisk(DropPod(s)))
  {
  }

  lemma DeltaKeepsRounds(s: State, d: DeltaStep)
    requires RoundsOk(s) && DeltaEnabled(s, d)
    ensures RoundsOk(DeltaApply(s, d))
  {
    match d
    case FinishRound => PromoteKeepsRounds(s);
    case SyncDisk(regions) => SyncKeepsRounds(s, regions);
    case SyncDiskFail(_) =>
    case _ =>
  }

  lemma SyncKeepsRounds(s: State, regions: seq<Region>)
    requires RoundsOk(s) && CbtAnswer(s, regions)
    ensures RoundsOk(LaunchOrSkip(CountFetch(s, regions), regions))
  {
  }

  /** A closing round is the latest, at least the interval after the one before. */
  lemma PromoteKeepsRounds(s: State)
    requires RoundsOk(s) && DeltaEnabled(s, FinishRound)
    ensures RoundsOk(PromoteDelta(s))
  {
  }

  lemma EnvKeepsCourse(s: State, e: EnvStep)
    requires CourseOk(s) && EnvEnabled(s, e)
    ensures CourseOk(s.(w := EnvApply(s, e)))
  {
    var s' := s.(w := EnvApply(s, e));
    assert s'.w.clock >= s.w.clock;
    LaterKeepsRounds(s, s');
    SameFetchesKeep(s, s');
  }

  lemma LaterKeepsRounds(s: State, s': State)
    requires RoundsOk(s) && s' == s.(w := s'.w) && s'.w.clock >= s.w.clock
    ensures RoundsOk(s')
  {
  }

  lemma StepKeepsCourse(s: State, a: Step)
    requires StructureOk(s) && CourseOk(s) && Enabled(s, a)
    ensures CourseOk(Apply(s, a))
  {
    match a
    case Life(l) => LifeKeepsCourse(s, l);
    case Pipeline(p) => PipelineKeepsCourse(s, p);
    case Delta(d) =>
      DeltaKeepsHistory(s, d);
      DeltaKeepsRounds(s, d);
      DeltaKeepsBytes(s, d);
    case Env(e) => EnvKeepsCourse(s, e);
  }
}
