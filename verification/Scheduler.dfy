/**
 One reconcile pass over all VMs of a migration, seen through each VM's phase
 and whether it was ever started: cancellations, the MaxInFlight limit, the
 order of starts, and the overall phase.
 */
module Scheduler {
  import opened Phases

  /** A VM's phase, whether it was ever started, and how often its handlers were executed. */
  datatype VmView = VmView(phase: Phase, started: bool, executed: nat)

  /** Where driving a VM leads, after so many handler executions. */
  datatype Drive = Drive(phase: Phase, times: nat)

  predicate DriveOk(d: Drive) {
    d.phase != Pending && d.times >= 1
  }

  function DrivenTo(v: VmView, d: Drive): VmView {
    VmView(d.phase, true, v.executed + d.times)
  }

  datatype MigrationPhase = MigrationRunning | MigrationCompleted | MigrationFailed | MigrationCancelled

  /** What the outside contributes to a pass: who is cancelled, and where driving each VM leads. */
  datatype PassInput = PassInput(cancelled: seq<bool>, outcome: seq<Drive>)

  predicate InputFits(views: seq<VmView>, input: PassInput) {
    && |input.cancelled| == |input.outcome| == |views|
    && forall i :: 0 <= i < |input.outcome| ==> DriveOk(input.outcome[i])
  }

  function ActiveCount(views: seq<VmView>): nat {
    if views == [] then 0
    else ActiveCount(views[..|views| - 1]) + (if IsActive(views[|views| - 1].phase) then 1 else 0)
  }

  function Cancelling(views: seq<VmView>, cancelled: seq<bool>): (r: seq<VmView>)
    requires |cancelled| == |views|
    ensures |r| == |views|
    ensures forall i :: 0 <= i < |views| ==>
      r[i] == if cancelled[i] && !IsTerminal(views[i].phase) then views[i].(phase := Cancelled) else views[i]
  {
    seq(|views|, i requires 0 <= i < |views| =>
      if cancelled[i] && !IsTerminal(views[i].phase) then views[i].(phase := Cancelled) else views[i])
  }

  /** The VMs and the controller's running count after the first k VMs of the loop. */
  datatype Loop = Loop(views: seq<VmView>, active: int)

  /** Whether the loop leaves a VM in phase p alone. */
  predicate Skips(p: Phase, active: int, limit: int) {
    IsTerminal(p) || (p == Pending && active >= limit)
  }

  function StepLoop(l: Loop, k: nat, limit: int, next: Drive): Loop
    requires k < |l.views|
  {
    var v := l.views[k];
    if Skips(v.phase, l.active, limit) then l
    else Loop(l.views[k := DrivenTo(v, next)], if v.phase == Pending then l.active + 1 else l.active)
  }

  lemma TurnIsStep(views: seq<VmView>, active: int, i: nat, limit: int, v: VmView, act: int, next: Drive)
    requires i < |views|
    requires if Skips(views[i].phase, active, limit) then v == views[i] && act == active
             else v == DrivenTo(views[i], next) && act == if views[i].phase == Pending then active + 1 else active
    ensures Loop(views[i := v], act) == StepLoop(Loop(views, active), i, limit, next)
  {
    assert views[i := views[i]] == views;
  }

  /** After one turn of the loop per outcome. */
  function LoopAfter(views: seq<VmView>, limit: int, outcome: seq<Drive>): (l: Loop)
    requires |outcome| <= |views|
    ensures |l.views| == |views|
    ensures forall i :: |outcome| <= i < |views| ==> l.views[i] == views[i]
  {
    if outcome == [] then Loop(views, ActiveCount(views))
    else
      var k := |outcome| - 1;
      StepLoop(LoopAfter(views, limit, outcome[..k]), k, limit, outcome[k])
  }

  lemma LoopGoesOn(views: seq<VmView>, limit: int, outcome: seq<Drive>, next: Drive)
    requires |outcome| < |views|
    ensures LoopAfter(views, limit, outcome + [next]) ==
            StepLoop(LoopAfter(views, limit, outcome), |outcome|, limit, next)
  {
    assert (outcome + [next])[..|outcome|] == outcome;
  }

  /** The loop after its first turns: what it has made of the VMs, and whether one of them has not ended. */
  ghost predicate LoopAt(before: seq<VmView>, limit: int, outcome: seq<Drive>, views: seq<VmView>, active: int,
                         requeue: bool) {
    && |outcome| <= |before| == |views|
    && (forall i :: 0 <= i < |outcome| ==> DriveOk(outcome[i]))
    && LoopAfter(before, limit, outcome) == Loop(views, active)
    && (requeue <==> !AllTerminal(views[..|outcome|]))
  }

  lemma LoopTurns(before: seq<VmView>, limit: int, outcome: seq<Drive>, views: seq<VmView>, active: int, requeue: bool,
                  next: Drive, views': seq<VmView>, active': int, requeue': bool)
    requires LoopAt(before, limit, outcome, views, active, requeue) && |outcome| < |before| && DriveOk(next)
    requires Loop(views', active') == StepLoop(Loop(views, active), |outcome|, limit, next)
    requires requeue' <==> !AllTerminal(views'[..|outcome| + 1])
    ensures LoopAt(before, limit, outcome + [next], views', active', requeue')
  {
    LoopGoesOn(before, limit, outcome, next);
  }

  lemma LoopEnds(before: seq<VmView>, limit: int, outcome: seq<Drive>, views: seq<VmView>, active: int, requeue: bool)
    requires LoopAt(before, limit, outcome, views, active, requeue) && |outcome| == |before|
    ensures views == LoopAfter(before, limit, outcome).views && (requeue <==> !AllTerminal(views))
  {
    assert views[..|views|] == views;
  }

  function Pass(views: seq<VmView>, limit: int, input: PassInput): seq<VmView>
    requires InputFits(views, input)
  {
    LoopAfter(Cancelling(views, input.cancelled), limit, input.outcome).views
  }

  // ----- The schedule invariant -----

  /** Starts are first come, first served: a VM still waiting means nobody behind it was started. */
  ghost predicate Fifo(views: seq<VmView>) {
    forall i, j :: 0 <= i < j < |views| && views[i].phase == Pending ==> !views[j].started
  }

  /** A VM that was never started is still Pending or was cancelled; a Pending one was never started. */
  ghost predicate StartsOk(views: seq<VmView>) {
    forall i :: 0 <= i < |views| ==>
      && (!views[i].started ==> views[i].phase == Pending || views[i].phase == Cancelled)
      && (views[i].phase == Pending ==> !views[i].started)
  }

  ghost predicate ScheduleOk(views: seq<VmView>, limit: int) {
    ActiveCount(views) <= limit && Fifo(views) && StartsOk(views)
  }

  lemma {:induction false} CountUpdate(views: seq<VmView>, k: nat, v: VmView)
    requires k < |views|
    ensures ActiveCount(views[k := v]) ==
            ActiveCount(views) - (if IsActive(views[k].phase) then 1 else 0) + (if IsActive(v.phase) then 1 else 0)
    decreases |views|
  {
    var n := |views| - 1;
    if k == n {
      assert views[k := v][..n] == views[..n];
    } else {
      assert views[k := v][..n] == views[..n][k := v];
      CountUpdate(views[..n], k, v);
    }
  }

  lemma {:induction false} CountShrinks(views: seq<VmView>, views': seq<VmView>)
    requires |views'| == |views|
    requires forall i :: 0 <= i < |views| ==> IsActive(views'[i].phase) ==> IsActive(views[i].phase)
    ensures ActiveCount(views') <= ActiveCount(views)
    decreases |views|
  {
    if views != [] {
      var n := |views| - 1;
      CountShrinks(views[..n], views'[..n]);
    }
  }

  lemma CancellingKeepsSchedule(views: seq<VmView>, cancelled: seq<bool>, limit: int)
    requires ScheduleOk(views, limit) && |cancelled| == |views|
    ensures ScheduleOk(Cancelling(views, cancelled), limit)
  {
    CountShrinks(views, Cancelling(views, cancelled));
  }

  /** Inside the loop the controller's own count bounds the true one, and a skipped VM means it is at the limit. */
  ghost predicate LoopOk(l: Loop, k: nat, limit: int) {
    && k <= |l.views|
    && ActiveCount(l.views) <= l.active <= limit
    && Fifo(l.views) && StartsOk(l.views)
    && ((exists i :: 0 <= i < k && l.views[i].phase == Pending) ==> l.active == limit)
  }

  lemma StepKeepsLoop(l: Loop, k: nat, limit: int, next: Drive)
    requires LoopOk(l, k, limit) && k < |l.views| && DriveOk(next)
    ensures LoopOk(StepLoop(l, k, limit, next), k + 1, limit)
  {
    CountUpdate(l.views, k, DrivenTo(l.views[k], next));
  }

  /** At every point inside a pass the schedule holds. */
  lemma {:induction false} LoopKeepsSchedule(views: seq<VmView>, limit: int, outcome: seq<Drive>)
    requires ScheduleOk(views, limit) && |outcome| <= |views|
    requires forall i :: 0 <= i < |outcome| ==> DriveOk(outcome[i])
    ensures LoopOk(LoopAfter(views, limit, outcome), |outcome|, limit)
    decreases |outcome|
  {
    if outcome != [] {
      var k := |outcome| - 1;
      LoopKeepsSchedule(views, limit, outcome[..k]);
      StepKeepsLoop(LoopAfter(views, limit, outcome[..k]), k, limit, outcome[k]);
    }
  }

  /** The two halves of a pass put together. */
  lemma PassComposed(views: seq<VmView>, limit: int, input: PassInput, after: seq<VmView>)
    requires InputFits(views, input)
    requires after == LoopAfter(Cancelling(views, input.cancelled), limit, input.outcome).views
    ensures after == Pass(views, limit, input)
  {
  }

  lemma PassKeepsSchedule(views: seq<VmView>, limit: int, input: PassInput)
    requires ScheduleOk(views, limit) && InputFits(views, input)
    ensures ScheduleOk(Pass(views, limit, input), limit)
  {
    CancellingKeepsSchedule(views, input.cancelled, limit);
    LoopKeepsSchedule(Cancelling(views, input.cancelled), limit, input.outcome);
  }

  // ----- What one pass does, VM by VM -----

  /** How many VMs a pass took out of Pending. */
  function StartedIn(mid: seq<VmView>, after: seq<VmView>): nat
    requires |mid| == |after|
  {
    if mid == [] then 0
    else
      var k := |mid| - 1;
      StartedIn(mid[..k], after[..k]) + (if mid[k].phase == Pending && after[k].phase != Pending then 1 else 0)
  }

  lemma {:induction false} StartedNone(mid: seq<VmView>)
    ensures StartedIn(mid, mid) == 0
    decreases |mid|
  {
    if mid != [] {
      StartedNone(mid[..|mid| - 1]);
    }
  }

  lemma {:induction false} StartedUpdate(mid: seq<VmView>, after: seq<VmView>, k: nat, v: VmView)
    requires k < |mid| == |after| && after[k] == mid[k]
    ensures StartedIn(mid, after[k := v]) ==
            StartedIn(mid, after) + (if mid[k].phase == Pending && v.phase != Pending then 1 else 0)
    decreases |mid|
  {
    var n := |mid| - 1;
    if k == n {
      assert after[k := v][..n] == after[..n];
    } else {
      assert after[k := v][..n] == after[..n][k := v];
      StartedUpdate(mid[..n], after[..n], k, v);
    }
  }

  /** The controller's count is that of the VMs active before plus that of the VMs started since. */
  lemma {:induction false} LoopCounts(mid: seq<VmView>, limit: int, outcome: seq<Drive>)
    requires |outcome| <= |mid| && forall i :: 0 <= i < |outcome| ==> DriveOk(outcome[i])
    ensures LoopAfter(mid, limit, outcome).active ==
            ActiveCount(mid) + StartedIn(mid, LoopAfter(mid, limit, outcome).views)
    decreases |outcome|
  {
    if outcome == [] {
      StartedNone(mid);
    } else {
      var k := |outcome| - 1;
      LoopCounts(mid, limit, outcome[..k]);
      var l := LoopAfter(mid, limit, outcome[..k]);
      StartedUpdate(mid, l.views, k, DrivenTo(l.views[k], outcome[k]));
    }
  }

  /** What a pass does with one VM. */
  ghost predicate TreatedRight(mid: VmView, after: VmView) {
    && (IsTerminal(mid.phase) ==> after == mid)
    && (!IsTerminal(mid.phase) && mid.phase != Pending ==> after.executed > mid.executed && after.started)
    && (mid.phase == Pending ==> after == mid || (after.executed > mid.executed && after.started))
  }

  lemma {:induction false} LoopTreats(mid: seq<VmView>, limit: int, outcome: seq<Drive>)
    requires |outcome| <= |mid| && forall i :: 0 <= i < |outcome| ==> DriveOk(outcome[i])
    ensures forall i :: 0 <= i < |outcome| ==> TreatedRight(mid[i], LoopAfter(mid, limit, outcome).views[i])
    decreases |outcome|
  {
    if outcome != [] {
      LoopTreats(mid, limit, outcome[..|outcome| - 1]);
    }
  }

  /**
   One pass that may keep n VMs active, without reference to the loop: ended VMs are
   left alone, every VM under way is driven, at most n VMs are active, and Pending
   VMs are started as long as fewer than n are counted: if one is left, the count of
   those active before and those started has reached n.
   */
  ghost predicate PassIsRight(before: seq<VmView>, cancelled: seq<bool>, n: int, after: seq<VmView>)
    requires |cancelled| == |before| == |after|
  {
    ScheduleOk(before, n) ==>
      var mid := Cancelling(before, cancelled);
      && ScheduleOk(after, n)
      && (forall i :: 0 <= i < |after| ==> TreatedRight(mid[i], after[i]))
      && ActiveCount(after) <= ActiveCount(mid) + StartedIn(mid, after) <= n
      && ((exists i :: 0 <= i < |after| && after[i].phase == Pending) ==> ActiveCount(mid) + StartedIn(mid, after) == n)
  }

  lemma PassMeaning(views: seq<VmView>, maxInFlight: int, input: PassInput)
    requires InputFits(views, input)
    ensures |Pass(views, Limit(maxInFlight), input)| == |views|
    ensures PassIsRight(views, input.cancelled, if maxInFlight >= 1 then maxInFlight else 1,
                        Pass(views, Limit(maxInFlight), input))
  {
    var mid := Cancelling(views, input.cancelled);
    var n := Limit(maxInFlight);
    if ScheduleOk(views, n) {
      CancellingKeepsSchedule(views, input.cancelled, n);
      LoopTreats(mid, n, input.outcome);
      LoopCounts(mid, n, input.outcome);
      LoopKeepsSchedule(mid, n, input.outcome);
    }
  }

  // ----- Whole runs -----

  predicate InputsFit(n: nat, inputs: seq<PassInput>) {
    forall p :: 0 <= p < |inputs| ==>
      && |inputs[p].cancelled| == |inputs[p].outcome| == n
      && forall i :: 0 <= i < n ==> DriveOk(inputs[p].outcome[i])
  }

  function Passes(views: seq<VmView>, limit: int, inputs: seq<PassInput>): (r: seq<VmView>)
    requires InputsFit(|views|, inputs)
    ensures |r| == |views|
  {
    if inputs == [] then views
    else
      assert InputsFit(|views|, inputs[..|inputs| - 1]);
      Pass(Passes(views, limit, inputs[..|inputs| - 1]), limit, inputs[|inputs| - 1])
  }

  lemma {:induction false} NoneActive(views: seq<VmView>)
    requires forall i :: 0 <= i < |views| ==> views[i].phase == Pending && !views[i].started
    ensures ActiveCount(views) == 0
    decreases |views|
  {
    if views != [] {
      NoneActive(views[..|views| - 1]);
    }
  }

  /**
   From the start of a migration, after any number of passes with any
   cancellations, failures and progress, at most max(MaxInFlight, 1) VMs are
   active, and every VM behind a Pending one is Pending or was cancelled unstarted.
   */
  lemma {:induction false} ScheduleTheorem(views: seq<VmView>, maxInFlight: int, inputs: seq<PassInput>)
    requires forall i :: 0 <= i < |views| ==> views[i].phase == Pending && !views[i].started
    requires InputsFit(|views|, inputs)
    ensures ScheduleOk(Passes(views, Limit(maxInFlight), inputs), Limit(maxInFlight))
    ensures ActiveCount(Passes(views, Limit(maxInFlight), inputs)) <= (if maxInFlight >= 1 then maxInFlight else 1)
    ensures var r := Passes(views, Limit(maxInFlight), inputs);
      forall i, j :: 0 <= i < j < |r| && r[i].phase == Pending ==>
        r[j].phase == Pending || (r[j].phase == Cancelled && !r[j].started)
    decreases |inputs|
  {
    if inputs == [] {
      NoneActive(views);
    } else {
      var front := inputs[..|inputs| - 1];
      assert InputsFit(|views|, front);
      ScheduleTheorem(views, maxInFlight, front);
      PassKeepsSchedule(Passes(views, Limit(maxInFlight), front), Limit(maxInFlight), inputs[|inputs| - 1]);
    }
  }

  /** The limit the controller works with: at least one. */
  function Limit(maxInFlight: int): int {
    if maxInFlight > 1 then maxInFlight else 1
  }

  // ----- Overall phase -----

  predicate AllTerminal(views: seq<VmView>) {
    forall i :: 0 <= i < |views| ==> IsTerminal(views[i].phase)
  }

  lemma TerminalAppend(views: seq<VmView>, v: VmView)
    ensures AllTerminal(views + [v]) <==> AllTerminal(views) && IsTerminal(v.phase)
  {
    assert (views + [v])[|views|] == v;
    assert forall i :: 0 <= i < |views| ==> (views + [v])[i] == views[i];
  }

  lemma TerminalUpdate(views: seq<VmView>, i: nat, v: VmView)
    requires i < |views|
    ensures AllTerminal(views[i := v][..i + 1]) <==> AllTerminal(views[..i]) && IsTerminal(v.phase)
  {
    assert views[i := v][..i + 1] == views[..i] + [v];
    TerminalAppend(views[..i], v);
  }

  predicate AllCancelled(views: seq<VmView>) {
    forall i :: 0 <= i < |views| ==> views[i].phase == Cancelled
  }

  predicate SomeFailed(views: seq<VmView>) {
    exists i :: 0 <= i < |views| && views[i].phase == Failed
  }

  function Overall(views: seq<VmView>): MigrationPhase {
    if !AllTerminal(views) then MigrationRunning
    else if AllCancelled(views) then MigrationCancelled
    else if SomeFailed(views) then MigrationFailed
    else MigrationCompleted
  }

  /** How many VMs are in phase p. */
  function CountOf(views: seq<VmView>, p: Phase): nat {
    if views == [] then 0
    else CountOf(views[..|views| - 1], p) + (if views[|views| - 1].phase == p then 1 else 0)
  }

  lemma {:induction false} CountMeaning(views: seq<VmView>, p: Phase)
    ensures CountOf(views, p) <= |views|
    ensures CountOf(views, p) == |views| <==> forall i :: 0 <= i < |views| ==> views[i].phase == p
    ensures CountOf(views, p) > 0 <==> exists i :: 0 <= i < |views| && views[i].phase == p
    decreases |views|
  {
    if views != [] {
      CountMeaning(views[..|views| - 1], p);
    }
  }

  lemma {:induction false} TerminalCounts(views: seq<VmView>)
    ensures CountOf(views, Completed) + CountOf(views, Failed) + CountOf(views, Cancelled) <= |views|
    ensures CountOf(views, Completed) + CountOf(views, Failed) + CountOf(views, Cancelled) == |views| <==>
            AllTerminal(views)
    decreases |views|
  {
    if views != [] {
      TerminalCounts(views[..|views| - 1]);
    }
  }

  /** The cascade on the three counts is the overall phase. */
  lemma OverallByCounts(views: seq<VmView>, completed: nat, failed: nat, cancelled: nat)
    requires completed == CountOf(views, Completed) && failed == CountOf(views, Failed)
    requires cancelled == CountOf(views, Cancelled)
    ensures Overall(views) ==
            if completed + failed + cancelled != |views| then MigrationRunning
            else if cancelled == |views| then MigrationCancelled
            else if failed > 0 then MigrationFailed
            else MigrationCompleted
  {
    TerminalCounts(views);
    CountMeaning(views, Cancelled);
    CountMeaning(views, Failed);
  }
}
