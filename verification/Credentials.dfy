/**
 The credential secret that all VMs of a migration share. The handlers that
 create DataVolumes make sure it exists; the Cleanup handler of any VM deletes
 it, whoever else may still be importing or copying with it.
 */
module Credentials {
  import opened Phases
  import opened Structure
  import opened Scheduler

  /** asked[i]: VM i has created DataVolumes that refer to the secret. */
  datatype Site = Site(views: seq<VmView>, asked: seq<bool>, secret: bool)

  datatype Move =
    | Begin(i: nat)
    | Wait(i: nat)
    | Complete(i: nat)
    | End(i: nat, p: Phase)

  predicate CreatesVolumes(p: Phase) {
    p == ImportDisks || p == BulkCopy
  }

  /** The phases in which DataVolumes import or delta pods copy. */
  predicate Transfers(p: Phase) {
    CreatesVolumes(p) || p == WaitBulkCopy || p == Precopy || p == FinalSync
  }

  /** What one execution of VM i's handler does to the secret. */
  function Handle(s: Site, i: nat): Site
    requires |s.asked| == |s.views| && i < |s.views|
  {
    if CreatesVolumes(s.views[i].phase) then s.(secret := true, asked := s.asked[i := true])
    else if s.views[i].phase == Cleanup then s.(secret := false)
    else s
  }

  /** Only the two handlers that create DataVolumes bring the secret back, and only Cleanup deletes it. */
  lemma HandleWrittenOut(s: Site, i: nat)
    requires |s.asked| == |s.views| && i < |s.views|
    ensures var t, p := Handle(s, i), s.views[i].phase;
      && t.views == s.views
      && t.secret == (p == ImportDisks || p == BulkCopy || (s.secret && p != Cleanup))
      && (forall j :: 0 <= j < |s.asked| ==>
            t.asked[j] == (s.asked[j] || (j == i && (p == ImportDisks || p == BulkCopy))))
  {
  }

  predicate MoveEnabled(s: Site, m: Move, limit: int) {
    && |s.asked| == |s.views| && m.i < |s.views|
    && match m
       case Begin(i) => s.views[i].phase == Pending && ActiveCount(s.views) < limit
       case Wait(i) => IsActive(s.views[i].phase) && s.views[i].phase != Cleanup
       case Complete(i) => IsActive(s.views[i].phase)
       case End(i, p) =>
         !IsTerminal(s.views[i].phase) && (p == Cancelled || (p == Failed && IsActive(s.views[i].phase)))
  }

  function MoveTo(s: Site, i: nat, p: Phase): Site
    requires i < |s.views|
  {
    s.(views := s.views[i := VmView(p, true, s.views[i].executed)])
  }

  function MoveApply(s: Site, m: Move, limit: int, warm: bool): Site
    requires MoveEnabled(s, m, limit)
  {
    match m
    case Begin(i) => MoveTo(s, i, PreHook)
    case Wait(i) => Handle(s, i)
    case Complete(i) => MoveTo(Handle(s, i), i, Successor(s.views[i].phase, warm))
    case End(i, p) => s.(views := s.views[i := s.views[i].(phase := p)])
  }

  ghost predicate Course(s: Site, moves: seq<Move>, t: Site, limit: int, warm: bool)
    decreases |moves|, 1
  {
    if moves == [] then s == t else CourseEnds(s, moves, t, limit, warm)
  }

  /** The first moves, then the last one. */
  ghost predicate CourseEnds(s: Site, moves: seq<Move>, t: Site, limit: int, warm: bool)
    requires moves != []
    decreases |moves|, 0
  {
    var front, last := moves[..|moves| - 1], moves[|moves| - 1];
    exists m :: Course(s, front, m, limit, warm) && MoveEnabled(m, last, limit) && t == MoveApply(m, last, limit, warm)
  }

  function Untouched(n: nat): (s: Site)
    ensures |s.views| == |s.asked| == n && !s.secret
    ensures forall i :: 0 <= i < n ==> s.views[i] == VmView(Pending, false, 0) && !s.asked[i]
  {
    Site(seq(n, _ => VmView(Pending, false, 0)), seq(n, _ => false), false)
  }

  /** A site that a migration of n VMs can come to. */
  ghost predicate CanCome(n: nat, t: Site, limit: int, warm: bool) {
    exists moves :: Course(Untouched(n), moves, t, limit, warm)
  }

  /** VM i relies on the secret. */
  predicate Needs(s: Site, i: nat) {
    i < |s.views| == |s.asked| && s.asked[i] && Transfers(s.views[i].phase)
  }

  ghost predicate UsedAfterDelete(s: Site) {
    !s.secret && exists i :: Needs(s, i)
  }

  lemma ComeStart(n: nat, limit: int, warm: bool)
    ensures CanCome(n, Untouched(n), limit, warm)
  {
    assert Course(Untouched(n), [], Untouched(n), limit, warm);
  }

  lemma ComeOn(n: nat, s: Site, m: Move, limit: int, warm: bool) returns (t: Site)
    requires CanCome(n, s, limit, warm) && MoveEnabled(s, m, limit)
    ensures t == MoveApply(s, m, limit, warm) && CanCome(n, t, limit, warm)
  {
    var moves :| Course(Untouched(n), moves, s, limit, warm);
    t := MoveApply(s, m, limit, warm);
    assert (moves + [m])[..|moves + [m]| - 1] == moves;
    assert CourseEnds(Untouched(n), moves + [m], t, limit, warm);
    assert Course(Untouched(n), moves + [m], t, limit, warm);
  }

  /** Nothing of the VMs other than i differs. */
  ghost predicate OthersSame(s: Site, t: Site, i: nat) {
    && |t.views| == |s.views| == |t.asked| == |s.asked|
    && forall j :: 0 <= j < |s.views| && j != i ==> t.views[j] == s.views[j] && t.asked[j] == s.asked[j]
  }

  // ----- One VM at a time -----

  /** VM i has used the secret and may still come back to it. */
  predicate MayNeed(s: Site, i: nat) {
    i < |s.views| == |s.asked| && s.asked[i] && IsActive(s.views[i].phase)
  }

  ghost predicate AskedAfterStart(s: Site) {
    |s.asked| == |s.views| && forall i :: 0 <= i < |s.views| && s.asked[i] ==> s.views[i].phase != Pending
  }

  ghost predicate AloneOk(s: Site) {
    && AskedAfterStart(s) && ActiveCount(s.views) <= 1
    && forall i :: 0 <= i < |s.views| && MayNeed(s, i) ==> s.secret
  }

  lemma {:induction false} CountAtLeast(views: seq<VmView>, i: nat, j: nat)
    requires i < j < |views| && IsActive(views[i].phase) && IsActive(views[j].phase)
    ensures ActiveCount(views) >= 2
    decreases |views|
  {
    if j < |views| - 1 {
      CountAtLeast(views[..|views| - 1], i, j);
    } else {
      CountPositive(views[..|views| - 1], i);
    }
  }

  lemma {:induction false} CountPositive(views: seq<VmView>, i: nat)
    requires i < |views| && IsActive(views[i].phase)
    ensures ActiveCount(views) >= 1
    decreases |views|
  {
    if i < |views| - 1 {
      CountPositive(views[..|views| - 1], i);
    }
  }

  lemma {:induction false} CountAtMost(views: seq<VmView>)
    ensures ActiveCount(views) <= |views|
    decreases |views|
  {
    if views != [] {
      CountAtMost(views[..|views| - 1]);
    }
  }

  /** The VM that cleans up is the only one active. */
  lemma NobodyElseNeeds(s: Site, i: nat, j: nat)
    requires AloneOk(s) && i < |s.views| && j < |s.views| && i != j && IsActive(s.views[i].phase)
    ensures !MayNeed(s, j)
  {
    if MayNeed(s, j) {
      CountAtLeast(s.views, if i < j then i else j, if i < j then j else i);
    }
  }

  lemma MoveKeepsCount(s: Site, m: Move, limit: int, warm: bool)
    requires MoveEnabled(s, m, limit) && ActiveCount(s.views) <= 1 && (limit <= 1 || |s.views| <= 1)
    ensures ActiveCount(MoveApply(s, m, limit, warm).views) <= 1
  {
    var t := MoveApply(s, m, limit, warm);
    assert t.views == s.views[m.i := t.views[m.i]];
    CountUpdate(s.views, m.i, t.views[m.i]);
    CountAtMost(t.views);
    if IsActive(s.views[m.i].phase) {
      CountPositive(s.views, m.i);
    }
  }

  /** A move changes nothing for the others, and only a cleanup takes the secret away. */
  lemma MoveFacts(s: Site, m: Move, limit: int, warm: bool)
    requires MoveEnabled(s, m, limit) && AskedAfterStart(s)
    ensures var t := MoveApply(s, m, limit, warm);
      && OthersSame(s, t, m.i) && AskedAfterStart(t)
      && (s.secret && !t.secret ==> IsActive(s.views[m.i].phase))
      && (MayNeed(t, m.i) ==> t.secret || MayNeed(s, m.i))
  {
    var t := MoveApply(s, m, limit, warm);
    assert t.views == s.views[m.i := t.views[m.i]];
    assert t.asked == s.asked[m.i := t.asked[m.i]];
  }

  /** A VM does not take the secret away from itself. */
  lemma MoveKeepsOwn(s: Site, m: Move, limit: int, warm: bool)
    requires MoveEnabled(s, m, limit) && AskedAfterStart(s) && (MayNeed(s, m.i) ==> s.secret)
    ensures MayNeed(MoveApply(s, m, limit, warm), m.i) ==> MoveApply(s, m, limit, warm).secret
  {
  }

  lemma MoveKeepsAlone(s: Site, m: Move, limit: int, warm: bool)
    requires AloneOk(s) && MoveEnabled(s, m, limit) && (limit <= 1 || |s.views| <= 1)
    ensures AloneOk(MoveApply(s, m, limit, warm))
  {
    var t := MoveApply(s, m, limit, warm);
    MoveKeepsCount(s, m, limit, warm);
    MoveFacts(s, m, limit, warm);
    MoveKeepsOwn(s, m, limit, warm);
    forall j | 0 <= j < |t.views| && MayNeed(t, j)
      ensures t.secret
    {
      if j != m.i {
        assert MayNeed(s, j);
        if IsActive(s.views[m.i].phase) {
          NobodyElseNeeds(s, m.i, j);
        }
      }
    }
  }

  lemma AloneIsSafe(s: Site)
    requires AloneOk(s)
    ensures !UsedAfterDelete(s)
  {
    if i :| Needs(s, i) {
      assert MayNeed(s, i);
    }
  }

  lemma {:induction false} CourseKeepsAlone(n: nat, moves: seq<Move>, t: Site, limit: int, warm: bool)
    requires Course(Untouched(n), moves, t, limit, warm) && (limit <= 1 || n <= 1)
    ensures AloneOk(t) && |t.views| == n
    decreases |moves|
  {
    if moves == [] {
      NoneActive(t.views);
    } else {
      var front, last := moves[..|moves| - 1], moves[|moves| - 1];
      assert CourseEnds(Untouched(n), moves, t, limit, warm);
      var m :| Course(Untouched(n), front, m, limit, warm) && MoveEnabled(m, last, limit)
               && t == MoveApply(m, last, limit, warm);
      CourseKeepsAlone(n, front, m, limit, warm);
      MoveKeepsAlone(m, last, limit, warm);
    }
  }

  // ----- Two VMs at a time -----

  lemma SuccessorIsNearest(p: Phase, q: Phase, warm: bool)
    requires PhaseFits(p, warm) && PhaseFits(q, warm) && Rank(p) < Rank(q) <= Rank(Completed)
    ensures Rank(p) < Rank(Successor(p, warm)) <= Rank(q) && PhaseFits(Successor(p, warm), warm)
  {
  }

  lemma RankInjective(p: Phase, q: Phase)
    requires Rank(p) == Rank(q)
    ensures p == q
  {
  }

  lemma CompleteFacts(s: Site, i: nat, limit: int, warm: bool)
    requires MoveEnabled(s, Complete(i), limit)
    ensures var t := MoveApply(s, Complete(i), limit, warm);
      OthersSame(s, t, i) && t.views[i].phase == Successor(s.views[i].phase, warm)
      && (s.views[i].phase == Cleanup ==> !t.secret)
  {
  }

  lemma OthersSameTrans(s: Site, m: Site, t: Site, i: nat)
    requires OthersSame(s, m, i) && OthersSame(m, t, i)
    ensures OthersSame(s, t, i)
  {
  }

  /** VM i can be driven to any later phase of the order while the others stand still. */
  lemma {:induction false} DriveTo(n: nat, s: Site, i: nat, q: Phase, limit: int, warm: bool) returns (t: Site)
    requires CanCome(n, s, limit, warm) && i < |s.views| == |s.asked|
    requires IsActive(s.views[i].phase) && PhaseFits(s.views[i].phase, warm) && PhaseFits(q, warm)
    requires Rank(s.views[i].phase) <= Rank(q) < Rank(Completed)
    ensures CanCome(n, t, limit, warm) && OthersSame(s, t, i) && t.views[i].phase == q
    decreases Rank(q) - Rank(s.views[i].phase)
  {
    if s.views[i].phase == q {
      t := s;
    } else {
      if Rank(s.views[i].phase) == Rank(q) {
        RankInjective(s.views[i].phase, q);
      }
      SuccessorIsNearest(s.views[i].phase, q, warm);
      var m := ComeOn(n, s, Complete(i), limit, warm);
      CompleteFacts(s, i, limit, warm);
      t := DriveTo(n, m, i, q, limit, warm);
      OthersSameTrans(s, m, t, i);
    }
  }

  /** Two VMs are started. */
  lemma StartTwo(n: nat, limit: int, warm: bool) returns (t: Site)
    requires n >= 2 && limit >= 2
    ensures CanCome(n, t, limit, warm) && |t.views| == |t.asked| == n
    ensures t.views[0].phase == t.views[1].phase == PreHook
  {
    ComeStart(n, limit, warm);
    var s := Untouched(n);
    NoneActive(s.views);
    t := ComeOn(n, s, Begin(0), limit, warm);
    CountUpdate(s.views, 0, VmView(PreHook, true, 0));
    t := ComeOn(n, t, Begin(1), limit, warm);
  }

  /** The second one imports. */
  lemma ImportSecond(n: nat, s: Site, limit: int, warm: bool) returns (t: Site)
    requires CanCome(n, s, limit, warm) && |s.views| == |s.asked| >= 2 && s.views[1].phase == PreHook
    ensures CanCome(n, t, limit, warm) && OthersSame(s, t, 1) && Needs(t, 1)
  {
    var m := DriveTo(n, s, 1, if warm then BulkCopy else ImportDisks, limit, warm);
    t := ComeOn(n, m, Wait(1), limit, warm);
    assert OthersSame(m, t, 1);
    OthersSameTrans(s, m, t, 1);
  }

  /** The first one cleans up. */
  lemma CleanFirst(n: nat, s: Site, limit: int, warm: bool) returns (t: Site)
    requires CanCome(n, s, limit, warm) && |s.views| == |s.asked| >= 2 && s.views[0].phase == PreHook
    ensures CanCome(n, t, limit, warm) && OthersSame(s, t, 0) && !t.secret
  {
    var m := DriveTo(n, s, 0, Cleanup, limit, warm);
    t := ComeOn(n, m, Complete(0), limit, warm);
    CompleteFacts(m, 0, limit, warm);
    OthersSameTrans(s, m, t, 0);
  }

  /** The second VM imports while the first cleans up. */
  lemma TwoAtATimeCollide(n: nat, limit: int, warm: bool) returns (t: Site)
    requires n >= 2 && limit >= 2
    ensures CanCome(n, t, limit, warm) && UsedAfterDelete(t)
  {
    var s := StartTwo(n, limit, warm);
    s := ImportSecond(n, s, limit, warm);
    t := CleanFirst(n, s, limit, warm);
    assert Needs(t, 1);
  }

  /**
   Some migration of n VMs comes to a point where a VM relies on the secret after
   another deleted it if and only if there are at least two VMs and MaxInFlight
   lets two of them be active at once.
   */
  lemma SecretUsedAfterDeleteIff(n: nat, maxInFlight: int, warm: bool)
    ensures (exists t :: CanCome(n, t, Limit(maxInFlight), warm) && UsedAfterDelete(t)) <==> n >= 2 && maxInFlight >= 2
  {
    var limit := Limit(maxInFlight);
    if n >= 2 && maxInFlight >= 2 {
      var t := TwoAtATimeCollide(n, limit, warm);
    } else {
      forall t | CanCome(n, t, limit, warm)
        ensures !UsedAfterDelete(t)
      {
        var moves :| Course(Untouched(n), moves, t, limit, warm);
        CourseKeepsAlone(n, moves, t, limit, warm);
        AloneIsSafe(t);
      }
    }
  }
}
