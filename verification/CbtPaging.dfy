/** The changed-region query: pages on the server's side, the collecting loop on the controller's. */
module CbtPaging {
  import opened Disks
  import opened Wrappers
  import opened Decimals

  datatype Reply = Reply(regions: seq<Region>, next: Option<int>)

  /** The server answers with consecutive pieces of the list, of any sizes, and makes progress. */
  ghost predicate Serves(serve: int -> Reply, all: seq<Region>) {
    forall o :: 0 <= o <= |all| ==>
      var reply := serve(o);
      var end := if reply.next.Some? then reply.next.value else |all|;
      o <= end <= |all| && (reply.next.Some? ==> o < end) && reply.regions == all[o..end]
  }

  /** However the answer is paged, the loop ends and has collected exactly the list. */
  method GetAllRegions(serve: int -> Reply, ghost all: seq<Region>) returns (regions: seq<Region>)
    requires Serves(serve, all)
    ensures regions == all && TotalLength(regions) == TotalLength(all)
  {
    regions := [];
    var offset := 0;
    while true
      invariant 0 <= offset <= |all| && regions == all[..offset]
      decreases |all| - offset
    {
      var reply := serve(offset);
      regions := regions + reply.regions;
      if reply.next.None? {
        break;
      }
      offset := reply.next.value;
    }
  }

  /** The answer to a query at o when pages are cut as `ends` says: any paging of the list is of this kind. */
  function CutPage(all: seq<Region>, ends: int -> int, o: int): Reply {
    if 0 <= o < ends(o) < |all| then Reply(all[o..ends(o)], Some(ends(o)))
    else Reply(if 0 <= o <= |all| then all[o..] else [], None)
  }

  lemma CutPageServes(all: seq<Region>, ends: int -> int)
    ensures Serves(o => CutPage(all, ends, o), all)
  {
    var serve: int -> Reply := o => CutPage(all, ends, o);
    forall o | 0 <= o <= |all|
      ensures
        var reply := serve(o);
        var end := if reply.next.Some? then reply.next.value else |all|;
        o <= end <= |all| && (reply.next.Some? ==> o < end) && reply.regions == all[o..end]
    {
      assert serve(o) == CutPage(all, ends, o);
    }
  }

  // ----- The mock server -----

  const PAGE_SIZE: int := 3

  /** Negative offsets count as zero; past the end there is an empty last page. */
  function Page(all: seq<Region>, offsetParam: int): Reply {
    var start := if offsetParam >= 0 then offsetParam else 0;
    if start >= |all| then Reply([], None)
    else
      var end := if start + PAGE_SIZE < |all| then start + PAGE_SIZE else |all|;
      Reply(all[start..end], if end < |all| then Some(end) else None)
  }

  /** A page holds three regions, or what is left, and names where the next one starts. */
  lemma PageWrittenOut(all: seq<Region>, o: nat)
    ensures o + 3 < |all| ==> Page(all, o) == Reply(all[o..o + 3], Some(o + 3))
    ensures o < |all| <= o + 3 ==> Page(all, o) == Reply(all[o..], None)
    ensures |all| <= o ==> Page(all, o) == Reply([], None)
    ensures Page(all, -1 - o) == Page(all, 0)
  {
    assert o < |all| ==> all[o..|all|] == all[o..];
  }

  lemma PageServes(all: seq<Region>)
    ensures Serves(o => Page(all, o), all)
  {
    var serve: int -> Reply := o => Page(all, o);
    forall o | 0 <= o <= |all|
      ensures
        var reply := serve(o);
        var end := if reply.next.Some? then reply.next.value else |all|;
        o <= end <= |all| && (reply.next.Some? ==> o < end) && reply.regions == all[o..end]
    {
      assert serve(o) == Page(all, o);
    }
  }

  /** Against the mock server the loop yields exactly the configured list. */
  method GetMockRegions(all: seq<Region>) returns (regions: seq<Region>)
    ensures regions == all
  {
    PageServes(all);
    regions := GetAllRegions(o => Page(all, o), all);
  }

  // ----- When the loop ends -----

  /** The offset of the n-th query, or none if the loop has ended before it. */
  function OffsetAt(serve: int -> Reply, n: nat): Option<int> {
    if n == 0 then Some(0)
    else
      var before := OffsetAt(serve, n - 1);
      if before.None? then None else serve(before.value).next
  }

  ghost predicate Ends(serve: int -> Reply) {
    exists n: nat :: OffsetAt(serve, n).None?
  }

  /** Some offset is asked for twice. */
  ghost predicate Cycles(serve: int -> Reply) {
    exists i: nat, j: nat :: Repeats(serve, i, j)
  }

  ghost predicate Repeats(serve: int -> Reply, i: nat, j: nat) {
    i < j && OffsetAt(serve, i).Some? && OffsetAt(serve, i) == OffsetAt(serve, j)
  }

  /** Every next offset is a 64-bit integer, as the field that carries it. */
  ghost predicate Int64Offsets(serve: int -> Reply) {
    forall o :: serve(o).next.Some? ==> IsInt64(serve(o).next.value)
  }

  /** Once ended, ended for good. */
  lemma {:induction false} EndedStays(serve: int -> Reply, n: nat, m: nat)
    requires OffsetAt(serve, n).None? && n <= m
    ensures OffsetAt(serve, m).None?
    decreases m
  {
    if n < m {
      EndedStays(serve, n, m - 1);
    }
  }

  /** What follows two equal queries is equal. */
  lemma {:induction false} CycleShifts(serve: int -> Reply, i: nat, j: nat, n: nat)
    requires OffsetAt(serve, i) == OffsetAt(serve, j)
    ensures OffsetAt(serve, i + n) == OffsetAt(serve, j + n)
    decreases n
  {
    if n > 0 {
      CycleShifts(serve, i, j, n - 1);
    }
  }

  /** A repeated offset comes back for ever. */
  lemma {:induction false} CycleReturns(serve: int -> Reply, i: nat, j: nat, m: nat)
    requires Repeats(serve, i, j)
    ensures exists n :: n >= i + m && OffsetAt(serve, n) == OffsetAt(serve, i)
    decreases m
  {
    if m > 0 {
      CycleReturns(serve, i, j, m - 1);
      var n :| n >= i + m - 1 && OffsetAt(serve, n) == OffsetAt(serve, i);
      CycleShifts(serve, i, j, n - i);
      assert OffsetAt(serve, n + (j - i)) == OffsetAt(serve, i);
    }
  }

  lemma CycleNeverEnds(serve: int -> Reply)
    requires Cycles(serve)
    ensures !Ends(serve)
  {
    var i: nat, j: nat :| Repeats(serve, i, j);
    if n: nat :| OffsetAt(serve, n).None? {
      CycleReturns(serve, i, j, n);
      var m :| m >= i + n && OffsetAt(serve, m) == OffsetAt(serve, i);
      EndedStays(serve, n, m);
    }
  }

  /** The offsets of the first n queries. */
  ghost function Asked(serve: int -> Reply, n: nat): set<int>
    requires !Ends(serve)
  {
    if n == 0 then {} else Asked(serve, n - 1) + {OffsetAt(serve, n - 1).value}
  }

  lemma {:induction false} AskedMember(serve: int -> Reply, n: nat, o: int)
    requires !Ends(serve) && o in Asked(serve, n)
    ensures exists i: nat :: i < n && OffsetAt(serve, i) == Some(o)
    decreases n
  {
    if o in Asked(serve, n - 1) {
      AskedMember(serve, n - 1, o);
    } else {
      assert OffsetAt(serve, n - 1) == Some(o);
    }
  }

  lemma {:induction false} AskedDistinct(serve: int -> Reply, n: nat)
    requires !Ends(serve) && !Cycles(serve)
    ensures |Asked(serve, n)| == n
    decreases n
  {
    if n > 0 {
      AskedDistinct(serve, n - 1);
      var o := OffsetAt(serve, n - 1).value;
      if o in Asked(serve, n - 1) {
        AskedMember(serve, n - 1, o);
        var i: nat :| i < n - 1 && OffsetAt(serve, i) == Some(o);
        assert Repeats(serve, i, n - 1);
      }
    }
  }

  lemma OffsetInRange(serve: int -> Reply, n: nat)
    requires Int64Offsets(serve) && OffsetAt(serve, n).Some?
    ensures IsInt64(OffsetAt(serve, n).value)
  {
    if n > 0 {
      var o := OffsetAt(serve, n - 1).value;
      assert OffsetAt(serve, n) == serve(o).next;
    }
  }

  lemma {:induction false} AskedInRange(serve: int -> Reply, n: nat)
    requires !Ends(serve) && Int64Offsets(serve)
    ensures forall o :: o in Asked(serve, n) ==> IsInt64(o)
    decreases n
  {
    if n > 0 {
      AskedInRange(serve, n - 1);
      OffsetInRange(serve, n - 1);
    }
  }

  /** A set of integers from lo on, below hi, has at most hi - lo elements. */
  lemma {:induction false} IntervalSize(s: set<int>, lo: int, hi: int)
    requires lo <= hi && forall x :: x in s ==> lo <= x < hi
    ensures |s| <= hi - lo
    decreases hi - lo
  {
    if lo < hi {
      IntervalSize(s - {hi - 1}, lo, hi - 1);
      assert s <= s - {hi - 1} + {hi - 1};
      assert hi - 1 !in s ==> s - {hi - 1} == s;
    } else {
      assert s == {};
    }
  }

  /** The loop ends if and only if no offset is ever asked for twice. */
  lemma LoopEndsIff(serve: int -> Reply)
    requires Int64Offsets(serve)
    ensures Ends(serve) <==> !Cycles(serve)
  {
    if Cycles(serve) {
      CycleNeverEnds(serve);
    } else if !Ends(serve) {
      var n := MAX_INT64 - MIN_INT64 + 2;
      AskedInRange(serve, n);
      AskedDistinct(serve, n);
      IntervalSize(Asked(serve, n), MIN_INT64, MAX_INT64 + 1);
      assert false;
    }
  }

  /** Without a bound on the offsets the loop could also run away: a counting server never repeats one. */
  lemma {:induction false} CountingServerRunsAway(n: nat)
    ensures OffsetAt(o => Reply([], Some(o + 1)), n) == Some(n)
    decreases n
  {
    if n > 0 {
      CountingServerRunsAway(n - 1);
    }
  }

  /** Two pages that name each other. */
  function PingPong(o: int): Reply {
    Reply([], Some(if o == 0 then 3 else 0))
  }

  lemma PingPongSpins()
    ensures Int64Offsets(PingPong) && !Ends(PingPong)
  {
    assert OffsetAt(PingPong, 0) == Some(0);
    assert OffsetAt(PingPong, 1) == Some(3);
    assert OffsetAt(PingPong, 2) == Some(0);
    assert Repeats(PingPong, 0, 2);
    CycleNeverEnds(PingPong);
  }

  /** A server that names the offset it was just asked for is the shortest cycle. */
  lemma StuckServerSpins(serve: int -> Reply, at: nat, o: int)
    requires OffsetAt(serve, at) == Some(o) && serve(o).next == Some(o)
    ensures !Ends(serve)
  {
    assert Repeats(serve, at, at + 1);
    CycleNeverEnds(serve);
  }

  /** A server that makes progress through its list ends the loop. */
  lemma {:induction false} ProgressAsks(serve: int -> Reply, all: seq<Region>, n: nat)
    requires Serves(serve, all)
    ensures OffsetAt(serve, n).Some? ==> n <= OffsetAt(serve, n).value <= |all|
    decreases n
  {
    if n > 0 {
      ProgressAsks(serve, all, n - 1);
    }
  }

  lemma ProgressEnds(serve: int -> Reply, all: seq<Region>)
    requires Serves(serve, all)
    ensures Ends(serve)
  {
    ProgressAsks(serve, all, |all| + 1);
    assert OffsetAt(serve, |all| + 1).None?;
  }
}
