/**
 The VM pipeline phases, the cold and warm phase orders, and the search that
 picks the next phase of an order.
 */
module Phases {

  datatype Phase =
    | Pending | PreHook | StorePowerState
    | BulkCopy | WaitBulkCopy | Precopy
    | PowerOff | WaitForPowerOff
    | CreateSnapshot | ExportDisks | ImportDisks
    | FinalSync
    | CreateVM | StartVM | PostHook | Cleanup
    | Completed | Failed | Cancelled

  const COLD_ORDER: seq<Phase> :=
    [Pending, PreHook, StorePowerState, PowerOff, WaitForPowerOff, CreateSnapshot, ExportDisks,
     ImportDisks, CreateVM, StartVM, PostHook, Cleanup, Completed]

  const WARM_ORDER: seq<Phase> :=
    [Pending, PreHook, StorePowerState, BulkCopy, WaitBulkCopy, Precopy, PowerOff, WaitForPowerOff,
     FinalSync, CreateVM, StartVM, PostHook, Cleanup, Completed]

  function Order(warm: bool): seq<Phase> {
    if warm then WARM_ORDER else COLD_ORDER
  }

  predicate IsTerminal(p: Phase) {
    p == Completed || p == Failed || p == Cancelled
  }

  /** Past Pending and not terminal: such a VM occupies one of the MaxInFlight slots. */
  predicate IsActive(p: Phase) {
    p != Pending && !IsTerminal(p)
  }

  /** The position of p in an order, or the order's length when p is not in it. */
  function IndexIn(p: Phase, order: seq<Phase>): (i: nat)
    ensures i <= |order|
    ensures i < |order| ==> order[i] == p
    ensures i == |order| <==> p !in order
    ensures forall j :: 0 <= j < i ==> order[j] != p
  {
    if order == [] then 0
    else if order[0] == p then 0
    else 1 + IndexIn(p, order[1..])
  }

  ghost predicate NoDuplicates(order: seq<Phase>) {
    forall i, j :: 0 <= i < j < |order| ==> order[i] != order[j]
  }

  /** The successor of `current` in `order`; a phase without one stays where it is. */
  function NextPhase(current: Phase, order: seq<Phase>): Phase {
    var i := IndexIn(current, order);
    if i + 1 < |order| then order[i + 1] else current
  }

  /** The source's linear search: the first match that has a successor wins. */
  method NextPhaseInOrder(current: Phase, order: seq<Phase>) returns (next: Phase)
    requires NoDuplicates(order)
    ensures next == NextPhase(current, order)
  {
    for i := 0 to |order|
      invariant forall j :: 0 <= j < i ==> order[j] != current || j + 1 == |order|
    {
      if order[i] == current && i + 1 < |order| {
        NextAt(order, i);
        return order[i + 1];
      }
    }
    NoNext(current, order);
    return current;
  }

  /** A numbering that both orders climb strictly. */
  function Rank(p: Phase): nat {
    match p
    case Pending => 0
    case PreHook => 1
    case StorePowerState => 2
    case BulkCopy => 3
    case WaitBulkCopy => 4
    case Precopy => 5
    case PowerOff => 6
    case WaitForPowerOff => 7
    case CreateSnapshot => 8
    case ExportDisks => 9
    case ImportDisks => 10
    case FinalSync => 11
    case CreateVM => 12
    case StartVM => 13
    case PostHook => 14
    case Cleanup => 15
    case Completed => 16
    case Failed => 17
    case Cancelled => 18
  }

  /** Phases still to run: the measure of the loop that drives one VM. */
  function Remaining(p: Phase, order: seq<Phase>): nat {
    |order| - IndexIn(p, order)
  }

  /**
   The driving loop makes progress exactly when the phase has a successor in the
   order in use; on any other phase it would execute the same phase forever.
   */
  lemma StepProgressesIffInOrder(p: Phase, order: seq<Phase>)
    requires NoDuplicates(order)
    ensures (p in order && order[|order| - 1] != p) <==> NextPhase(p, order) != p
    ensures NextPhase(p, order) != p ==> Remaining(NextPhase(p, order), order) == Remaining(p, order) - 1
  {
    var i := IndexIn(p, order);
    if i + 1 < |order| {
      var j := IndexIn(order[i + 1], order);
      assert order[j] == order[i + 1];
    }
  }

  /** What the successor is, phase by phase. */
  function Successor(p: Phase, warm: bool): Phase {
    match p
    case Pending => PreHook
    case PreHook => StorePowerState
    case StorePowerState => if warm then BulkCopy else PowerOff
    case BulkCopy => if warm then WaitBulkCopy else p
    case WaitBulkCopy => if warm then Precopy else p
    case Precopy => if warm then PowerOff else p
    case PowerOff => WaitForPowerOff
    case WaitForPowerOff => if warm then FinalSync else CreateSnapshot
    case CreateSnapshot => if warm then p else ExportDisks
    case ExportDisks => if warm then p else ImportDisks
    case ImportDisks => if warm then p else CreateVM
    case FinalSync => if warm then CreateVM else p
    case CreateVM => StartVM
    case StartVM => PostHook
    case PostHook => Cleanup
    case Cleanup => Completed
    case Completed => p
    case Failed => p
    case Cancelled => p
  }

  /** The two orders, written out. */
  lemma OrdersWrittenOut()
    ensures Order(false) ==
      [Pending, PreHook, StorePowerState, PowerOff, WaitForPowerOff, CreateSnapshot, ExportDisks, ImportDisks,
       CreateVM, StartVM, PostHook, Cleanup, Completed]
    ensures Order(true) ==
      [Pending, PreHook, StorePowerState, BulkCopy, WaitBulkCopy, Precopy, PowerOff, WaitForPowerOff, FinalSync,
       CreateVM, StartVM, PostHook, Cleanup, Completed]
  {
  }

  lemma NoNext(current: Phase, order: seq<Phase>)
    requires forall j :: 0 <= j < |order| ==> order[j] != current || j + 1 == |order|
    ensures NextPhase(current, order) == current
  {
    assert IndexIn(current, order) + 1 >= |order|;
  }

  lemma NextAt(order: seq<Phase>, i: nat)
    requires NoDuplicates(order) && i + 1 < |order|
    ensures NextPhase(order[i], order) == order[i + 1]
  {
    assert IndexIn(order[i], order) == i;
  }

  lemma WarmOrderClimbs(order: seq<Phase>, i: nat)
    requires order == WARM_ORDER && i < |order|
    ensures |order| == 14
    ensures i < 13 ==> order[i + 1] == Successor(order[i], true) && Rank(order[i]) < Rank(order[i + 1])
    ensures i == 13 <==> order[i] == Completed
  {
  }

  lemma ColdOrderClimbs(order: seq<Phase>, i: nat)
    requires order == COLD_ORDER && i < |order|
    ensures |order| == 13
    ensures i < 12 ==> order[i + 1] == Successor(order[i], false) && Rank(order[i]) < Rank(order[i + 1])
    ensures i == 12 <==> order[i] == Completed
  {
  }

  lemma ClimbsAt(order: seq<Phase>, i: nat, warm: bool)
    requires order == Order(warm) && i < |order|
    ensures i + 1 < |order| ==> order[i + 1] == Successor(order[i], warm) && Rank(order[i]) < Rank(order[i + 1])
    ensures i + 1 == |order| ==> Successor(order[i], warm) == order[i]
  {
    if warm { WarmOrderClimbs(order, i); } else { ColdOrderClimbs(order, i); }
  }

  /** Before its end, an order goes on with the successor. */
  predicate GoesOn(order: seq<Phase>, warm: bool, i: nat)
    requires i < |order|
  {
    !IsTerminal(order[i]) ==> i + 1 < |order| && order[i + 1] == Successor(order[i], warm)
  }

  /** A sequence that starts at Pending and follows the successors to the end. */
  ghost predicate FollowsSuccessors(order: seq<Phase>, warm: bool) {
    && order != [] && order[0] == Pending
    && forall i :: 0 <= i < |order| ==> GoesOn(order, warm, i)
  }

  lemma OrderFollowsSuccessors(order: seq<Phase>, warm: bool)
    requires order == Order(warm)
    ensures FollowsSuccessors(order, warm)
  {
    forall i | 0 <= i < |order|
      ensures GoesOn(order, warm, i)
    {
      if warm { WarmOrderClimbs(order, i); } else { ColdOrderClimbs(order, i); }
    }
  }

  lemma {:induction false} RanksClimb(order: seq<Phase>, warm: bool, i: nat, j: nat)
    requires order == Order(warm) && i < j < |order|
    ensures Rank(order[i]) < Rank(order[j])
    decreases j
  {
    ClimbsAt(order, j - 1, warm);
    if i < j - 1 {
      RanksClimb(order, warm, i, j - 1);
    }
  }

  lemma OrderHasNoDuplicates(order: seq<Phase>, warm: bool)
    requires order == Order(warm)
    ensures NoDuplicates(order)
  {
    forall i, j | 0 <= i < j < |order|
      ensures order[i] != order[j]
    {
      RanksClimb(order, warm, i, j);
    }
  }

  lemma OutsideOrder(order: seq<Phase>, p: Phase, warm: bool)
    requires order == Order(warm) && p !in order
    ensures Successor(p, warm) == p
  {
    if warm {
      assert order[0] == Pending && order[1] == PreHook && order[2] == StorePowerState && order[3] == BulkCopy;
      assert order[4] == WaitBulkCopy && order[5] == Precopy && order[6] == PowerOff;
      assert order[7] == WaitForPowerOff && order[8] == FinalSync && order[9] == CreateVM;
      assert order[10] == StartVM && order[11] == PostHook && order[12] == Cleanup;
    } else {
      assert order[0] == Pending && order[1] == PreHook && order[2] == StorePowerState && order[3] == PowerOff;
      assert order[4] == WaitForPowerOff && order[5] == CreateSnapshot && order[6] == ExportDisks;
      assert order[7] == ImportDisks && order[8] == CreateVM && order[9] == StartVM;
      assert order[10] == PostHook && order[11] == Cleanup;
    }
  }

  /** Searching either order is the phase-by-phase table above. */
  lemma SuccessorIsNext(p: Phase, warm: bool, order: seq<Phase>)
    requires order == Order(warm)
    ensures NextPhase(p, order) == Successor(p, warm)
    ensures p in order ==> Successor(p, warm) in order
  {
    OrderHasNoDuplicates(order, warm);
    var i := IndexIn(p, order);
    if i == |order| {
      OutsideOrder(order, p, warm);
    } else {
      ClimbsAt(order, i, warm);
      if i + 1 < |order| { NextAt(order, i); }
    }
  }
}
