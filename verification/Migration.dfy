/**
 The Migration object: its VMs' statuses advanced in place by one reconcile
 pass. Each VM is driven by its own handlers; the schedule and the overall phase
 follow the pass specification.
 */
module Migration {
  import opened Phases
  import opened Machine
  import opened Controller
  import opened Scheduler

  ghost function ViewOf(vm: VmMigration): VmView
    reads vm
  {
    VmView(vm.phase, vm.started, vm.executed)
  }

  /** What the scheduler sees of the VMs. */
  ghost predicate Shows(vms: seq<VmMigration>, views: seq<VmView>)
    reads vms
  {
    && |views| == |vms|
    && forall i :: 0 <= i < |vms| ==> views[i] == ViewOf(vms[i])
  }

  ghost predicate Distinct(vms: seq<VmMigration>) {
    forall i, j :: 0 <= i < j < |vms| ==> vms[i] != vms[j]
  }

  class MigrationStatus {
    const vms: seq<VmMigration>
    var overall: MigrationPhase

    constructor (vms: seq<VmMigration>)
      requires Distinct(vms) && forall i :: 0 <= i < |vms| ==> vms[i].Valid()
      ensures Valid() && this.vms == vms
    {
      this.vms := vms;
      overall := MigrationRunning;
    }

    ghost predicate Valid()
      reads this, vms
    {
      Distinct(vms) && forall i :: 0 <= i < |vms| ==> vms[i].Valid()
    }

    /** Marks the listed VMs that have not ended. */
    method ProcessCancellations(cancel: seq<string>, ghost before: seq<VmView>)
      returns (ghost cancelled: seq<bool>, ghost views: seq<VmView>)
      requires Valid() && Shows(vms, before)
      modifies vms
      ensures Valid() && Shows(vms, views)
      ensures |cancelled| == |vms| && forall i :: 0 <= i < |vms| ==> cancelled[i] == (vms[i].id in cancel)
      ensures views == Cancelling(before, cancelled)
    {
      cancelled := seq(|vms|, i requires 0 <= i < |vms| => vms[i].id in cancel);
      views := before;
      for i := 0 to |vms|
        invariant Valid() && Shows(vms, views)
        invariant forall j :: 0 <= j < |vms| ==>
          views[j] == if j < i then Cancelling(before, cancelled)[j] else before[j]
      {
        views := CancelIfListed(i, cancel, views);
      }
    }

    method CancelIfListed(i: nat, cancel: seq<string>, ghost before: seq<VmView>) returns (ghost views: seq<VmView>)
      requires i < |vms| && Valid() && Shows(vms, before)
      modifies vms[i]
      ensures Valid() && Shows(vms, views)
      ensures views == before[i := if vms[i].id in cancel && !IsTerminal(before[i].phase)
                                   then before[i].(phase := Cancelled) else before[i]]
    {
      views := before;
      if vms[i].id in cancel && !IsTerminal(vms[i].phase) {
        vms[i].CancelVM();
        views := views[i := ViewOf(vms[i])];
      }
    }

    /** Starts Pending VMs while the count is under the limit and drives every VM that is under way. */
    method AdvanceVMs(limit: int, ghost before: seq<VmView>)
      returns (requeue: bool, ghost outcome: seq<Drive>, ghost views: seq<VmView>)
      requires Valid() && Shows(vms, before)
      modifies vms
      ensures Valid() && Shows(vms, views)
      ensures |outcome| == |vms| && forall i :: 0 <= i < |vms| ==> DriveOk(outcome[i])
      ensures views == LoopAfter(before, limit, outcome).views
      ensures requeue <==> !AllTerminal(views)
    {
      requeue := false;
      outcome := [];
      views := before;
      var active := CountActive(before);
      for i := 0 to |vms|
        invariant Valid() && Shows(vms, views)
        invariant |outcome| == i && LoopAt(before, limit, outcome, views, active, requeue)
      {
        active, requeue, outcome, views := TakeTurn(i, limit, before, active, requeue, outcome, views);
      }
      LoopEnds(before, limit, outcome, views, active, requeue);
    }

    /** One turn of the loop, with the record of the turns before it. */
    method TakeTurn(i: nat, limit: int, ghost before: seq<VmView>, active: int, requeue: bool,
                    ghost outcome: seq<Drive>, ghost views: seq<VmView>)
      returns (active': int, requeue': bool, ghost outcome': seq<Drive>, ghost views': seq<VmView>)
      requires Valid() && Shows(vms, views) && i == |outcome| < |vms|
      requires LoopAt(before, limit, outcome, views, active, requeue)
      modifies vms[i]
      ensures Valid() && Shows(vms, views') && |outcome'| == i + 1
      ensures LoopAt(before, limit, outcome', views', active', requeue')
    {
      var again;
      ghost var next;
      again, active', next, views' := Turn(i, active, limit, views);
      requeue' := requeue || again;
      LoopTurns(before, limit, outcome, views, active, requeue, next, views', active', requeue');
      outcome' := outcome + [next];
    }

    /** One turn of the loop. */
    method Turn(i: nat, active: int, limit: int, ghost before: seq<VmView>)
      returns (again: bool, act: int, ghost next: Drive, ghost views: seq<VmView>)
      requires i < |vms| && Valid() && Shows(vms, before)
      modifies vms[i]
      ensures Valid() && Shows(vms, views) && DriveOk(next)
      ensures Loop(views, act) == StepLoop(Loop(before, active), i, limit, next)
      ensures !AllTerminal(views[..i + 1]) <==> !AllTerminal(before[..i]) || again
    {
      ghost var v;
      again, act, next, v := TouchVM(i, active, limit, before);
      views := before[i := v];
      TurnIsStep(before, active, i, limit, v, act, next);
      TerminalUpdate(before, i, v);
    }

    /** Visits the i-th VM and leaves the others alone. */
    method TouchVM(i: nat, active: int, limit: int, ghost before: seq<VmView>)
      returns (again: bool, act: int, ghost next: Drive, ghost v: VmView)
      requires i < |vms| && Valid() && Shows(vms, before)
      modifies vms[i]
      ensures Valid() && Shows(vms, before[i := v]) && DriveOk(next) && (again <==> !IsTerminal(v.phase))
      ensures if Skips(before[i].phase, active, limit) then v == before[i] && act == active
              else v == DrivenTo(before[i], next) && act == if before[i].phase == Pending then active + 1 else active
    {
      again, act, next := VisitVM(vms[i], active, limit);
      v := ViewOf(vms[i]);
    }

    method VisitVM(vm: VmMigration, active: int, limit: int) returns (again: bool, act: int, ghost next: Drive)
      requires vm.Valid()
      modifies vm
      ensures vm.Valid() && DriveOk(next)
      ensures again <==> !IsTerminal(vm.phase)
      ensures if Skips(old(vm.phase), active, limit)
              then ViewOf(vm) == old(ViewOf(vm)) && act == active
              else ViewOf(vm) == DrivenTo(old(ViewOf(vm)), next) &&
                   act == if old(vm.phase) == Pending then active + 1 else active
    {
      act := active;
      if Skips(vm.phase, active, limit) {
        return !IsTerminal(vm.phase), act, Drive(Completed, 1);
      }
      if vm.phase == Pending {
        vm.Start();
        act := act + 1;
      }
      again := vm.AdvanceSingleVM();
      next := Drive(vm.phase, vm.executed - old(vm.executed));
    }

    method CountActive(ghost views: seq<VmView>) returns (n: int)
      requires Shows(vms, views)
      ensures n == ActiveCount(views)
    {
      n := 0;
      for i := 0 to |vms|
        invariant n == ActiveCount(views[..i])
      {
        assert views[..i + 1][..i] == views[..i];
        if IsActive(vms[i].phase) {
          n := n + 1;
        }
      }
      assert views[..|vms|] == views;
    }

    /**
     A reconcile pass that gets as far as updating the status. A requeue is asked
     for exactly when some VM has not ended, which is exactly when the overall phase
     is Running; every VM stays on a run of the machine from where it began.
     */
    method Reconcile(cancel: seq<string>, maxInFlight: int, ghost before: seq<VmView>)
      returns (requeue: bool, ghost input: PassInput, ghost after: seq<VmView>)
      requires Valid() && Shows(vms, before)
      modifies this`overall, vms
      ensures Valid() && Shows(vms, after)
      ensures InputFits(before, input) && after == Pass(before, Limit(maxInFlight), input)
      ensures forall i :: 0 <= i < |vms| ==> input.cancelled[i] == (vms[i].id in cancel)
      ensures overall == Overall(after)
      ensures requeue <==> overall == MigrationRunning
      ensures requeue <==> exists i :: 0 <= i < |after| && !IsTerminal(after[i].phase)
      ensures PassIsRight(before, input.cancelled, if maxInFlight >= 1 then maxInFlight else 1, after)
    {
      ghost var cancelled, views := ProcessCancellations(cancel, before);
      ghost var outcome;
      requeue, outcome, after := AdvanceVMs(Limit(maxInFlight), views);
      input := PassInput(cancelled, outcome);
      PassComposed(before, Limit(maxInFlight), input, after);
      PassMeaning(before, maxInFlight, input);
      UpdateOverallStatus(after);
    }

    method UpdateOverallStatus(ghost views: seq<VmView>)
      requires Shows(vms, views)
      modifies this`overall
      ensures overall == Overall(views)
    {
      var completed, failed, cancelled := CountEnded(views);
      OverallByCounts(views, completed, failed, cancelled);
      overall :=
        if completed + failed + cancelled != |vms| then MigrationRunning
        else if cancelled == |vms| then MigrationCancelled
        else if failed > 0 then MigrationFailed
        else MigrationCompleted;
    }

    method CountEnded(ghost views: seq<VmView>) returns (completed: nat, failed: nat, cancelled: nat)
      requires Shows(vms, views)
      ensures completed == CountOf(views, Completed) && failed == CountOf(views, Failed)
      ensures cancelled == CountOf(views, Cancelled)
    {
      completed, failed, cancelled := 0, 0, 0;
      for i := 0 to |vms|
        invariant completed == CountOf(views[..i], Completed)
        invariant failed == CountOf(views[..i], Failed)
        invariant cancelled == CountOf(views[..i], Cancelled)
      {
        assert views[..i + 1][..i] == views[..i];
        match vms[i].phase {
          case Completed => completed := completed + 1;
          case Failed => failed := failed + 1;
          case Cancelled => cancelled := cancelled + 1;
          case _ =>
        }
      }
      assert views[..|vms|] == views;
    }
  }
}
