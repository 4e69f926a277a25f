/**
 Source disks with the time of each byte's last write, and what it means for a
 copy to agree with a disk up to a point in time.
 */
module Disks {

  type Byte = b: int | 0 <= b < 256

  /** A live disk: its bytes, and for every byte the time of its last write. */
  datatype Disk = Disk(live: seq<Byte>, stamp: seq<nat>)

  /** A changed region as the change tracker reports it. */
  datatype Region = Region(offset: int, length: int)

  predicate WellFormed(d: Disk) {
    |d.live| == |d.stamp|
  }

  predicate InRegion(r: Region, o: int) {
    r.offset <= o < r.offset + r.length
  }

  predicate InRegions(regions: seq<Region>, o: int) {
    exists r :: r in regions && InRegion(r, o)
  }

  /** Every byte not written since time t has the same value in the copy. */
  ghost predicate Agrees(d: Disk, copy: seq<Byte>, t: int) {
    && |copy| == |d.live| == |d.stamp|
    && forall o :: 0 <= o < |copy| && d.stamp[o] <= t ==> copy[o] == d.live[o]
  }

  /** The regions contain every byte last written after base and no later than delta. */
  predicate Covers(d: Disk, regions: seq<Region>, base: int, delta: int) {
    && WellFormed(d)
    && forall o :: 0 <= o < |d.stamp| && base < d.stamp[o] <= delta ==> InRegions(regions, o)
  }

  /** The bytes copied so far already agree with the disk up to time t. */
  ghost predicate CopiedAgree(d: Disk, copy: seq<Byte>, copied: set<int>, t: int) {
    && |copy| == |d.live| == |d.stamp|
    && forall o :: o in copied ==> 0 <= o < |copy| && (d.stamp[o] <= t ==> copy[o] == d.live[o])
  }

  /** Nothing was written after time t. */
  ghost predicate QuietSince(d: Disk, t: int) {
    forall o :: 0 <= o < |d.stamp| ==> d.stamp[o] <= t
  }

  function Write(d: Disk, o: nat, b: Byte, now: nat): Disk
    requires o < |d.live| == |d.stamp|
  {
    Disk(d.live[o := b], d.stamp[o := now])
  }

  /** A guest write later than t cannot break an agreement up to t, nor a coverage ending at t. */
  lemma WriteKeepsAgreement(d: Disk, copy: seq<Byte>, t: int, o: nat, b: Byte, now: nat)
    requires Agrees(d, copy, t) && o < |d.live| && t < now
    ensures Agrees(Write(d, o, b, now), copy, t)
  {
  }

  lemma WriteKeepsCoverage(d: Disk, regions: seq<Region>, base: int, delta: int, o: nat, b: Byte, now: nat)
    requires Covers(d, regions, base, delta) && o < |d.live| && delta < now
    ensures Covers(Write(d, o, b, now), regions, base, delta)
  {
    var d' := Write(d, o, b, now);
    forall x | 0 <= x < |d'.stamp| && base < d'.stamp[x] <= delta
      ensures InRegions(regions, x)
    {
      assert d'.stamp[x] == d.stamp[x];
    }
  }

  lemma WriteKeepsCopied(d: Disk, copy: seq<Byte>, copied: set<int>, t: int, o: nat, b: Byte, now: nat)
    requires CopiedAgree(d, copy, copied, t) && o < |d.live| && t < now
    ensures CopiedAgree(Write(d, o, b, now), copy, copied, t)
  {
  }

  /** Copying one byte from an image exported after the later snapshot keeps the older agreement. */
  lemma CopyByteKeepsAgreement(d: Disk, copy: seq<Byte>, image: seq<Byte>, copied: set<int>,
                               base: int, delta: int, o: nat)
    requires Agrees(d, copy, base) && Agrees(d, image, delta) && CopiedAgree(d, copy, copied, delta)
    requires base <= delta && o < |copy|
    ensures Agrees(d, copy[o := image[o]], base)
    ensures CopiedAgree(d, copy[o := image[o]], copied + {o}, delta)
  {
  }

  predicate AllCopied(regions: seq<Region>, size: int, copied: set<int>) {
    forall o :: 0 <= o < size && InRegions(regions, o) ==> o in copied
  }

  /** Once every byte of the regions is copied, the copy agrees up to the later snapshot. */
  lemma CopyCompletes(d: Disk, copy: seq<Byte>, regions: seq<Region>, copied: set<int>, base: int, delta: int)
    requires Agrees(d, copy, base) && CopiedAgree(d, copy, copied, delta)
    requires Covers(d, regions, base, delta) && AllCopied(regions, |copy|, copied)
    ensures Agrees(d, copy, delta)
  {
    forall o | 0 <= o < |copy| && d.stamp[o] <= delta
      ensures copy[o] == d.live[o]
    {
      if base < d.stamp[o] {
        assert InRegions(regions, o);
      }
    }
  }

  /** No region to copy means nothing was written between the two snapshots. */
  lemma NothingToCopy(d: Disk, copy: seq<Byte>, base: int, delta: int)
    requires Agrees(d, copy, base) && Covers(d, [], base, delta)
    ensures Agrees(d, copy, delta)
  {
    forall o | 0 <= o < |copy| && d.stamp[o] <= delta
      ensures copy[o] == d.live[o]
    {
      assert base < d.stamp[o] ==> InRegions([], o);
    }
  }

  /** Agreement up to a time after which the disk was quiet is equality. */
  lemma QuietAgreementIsEquality(d: Disk, copy: seq<Byte>, t: int)
    requires Agrees(d, copy, t) && QuietSince(d, t)
    ensures copy == d.live
  {
  }

  function TotalLength(regions: seq<Region>): int {
    if regions == [] then 0 else regions[0].length + TotalLength(regions[1..])
  }

  /** Nothing is nothing, one region counts its length, and lists add up. */
  lemma {:induction false} TotalLengthAddsUp(a: seq<Region>, b: seq<Region>)
    ensures TotalLength([]) == 0 && (|a| == 1 ==> TotalLength(a) == a[0].length)
    ensures TotalLength(a + b) == TotalLength(a) + TotalLength(b)
    decreases |a|
  {
    if a == [] {
      assert a + b == b;
    } else {
      assert (a + b)[1..] == a[1..] + b;
      TotalLengthAddsUp(a[1..], b);
    }
  }

  lemma {:induction false} TotalLengthAppend(regions: seq<Region>, r: Region)
    ensures TotalLength(regions + [r]) == TotalLength(regions) + r.length
  {
    if regions != [] {
      assert (regions + [r])[1..] == regions[1..] + [r];
      TotalLengthAppend(regions[1..], r);
    }
  }

  /** The byte count of a list of regions, summed in a loop. */
  method DeltaBytes(regions: seq<Region>) returns (total: int)
    ensures total == TotalLength(regions) && (regions == [] ==> total == 0)
    ensures |regions| == 1 ==> total == regions[0].length
  {
    total := 0;
    for i := 0 to |regions|
      invariant total == TotalLength(regions[..i])
    {
      total := total + regions[i].length;
      TotalLengthAppend(regions[..i], regions[i]);
      assert regions[..i + 1] == regions[..i] + [regions[i]];
    }
    assert regions[..|regions|] == regions;
    assert |regions| == 1 ==> regions[1..] == [];
  }
}
