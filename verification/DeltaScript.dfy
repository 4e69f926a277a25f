/**
 The delta pod: the region list as text, the script's loop over that text, and
 what it leaves on the target disk.
 */
module DeltaScript {
  import opened Disks
  import opened Wrappers
  import opened Decimals
  import opened RangeHeader

  // ----- The text -----

  function LineOf(r: Region): string {
    Decimal(r.offset) + ":" + Decimal(r.length)
  }

  function LinesOf(regions: seq<Region>): (ls: seq<string>)
    ensures |ls| == |regions| && forall i :: 0 <= i < |ls| ==> ls[i] == LineOf(regions[i])
  {
    seq(|regions|, i requires 0 <= i < |regions| => LineOf(regions[i]))
  }

  /** strings.Join with a newline between the lines and none after the last. */
  function JoinLines(ls: seq<string>): string {
    if ls == [] then "" else if |ls| == 1 then ls[0] else ls[0] + "\n" + JoinLines(ls[1..])
  }

  method RegionsToText(regions: seq<Region>) returns (text: string)
    ensures text == JoinLines(LinesOf(regions))
  {
    var lines: seq<string> := [];
    for i := 0 to |regions|
      invariant lines == LinesOf(regions)[..i]
    {
      lines := lines + [Decimal(regions[i].offset) + ":" + Decimal(regions[i].length)];
    }
    assert lines == LinesOf(regions);
    text := JoinLines(lines);
  }

  /** The text cut at every newline. */
  function SplitLines(text: string): (ls: seq<string>)
    ensures ls != []
    decreases |text|
  {
    var i := IndexOf(text, '\n');
    if i == |text| then [text] else [text[..i]] + SplitLines(text[i + 1..])
  }

  /** The lines that end in a newline. */
  function CompleteLines(text: string): seq<string> {
    SplitLines(text)[..|SplitLines(text)| - 1]
  }

  lemma SplitFirst(line: string, rest: string)
    requires '\n' !in line
    ensures SplitLines(line + "\n" + rest) == [line] + SplitLines(rest)
  {
    IndexOfAppend(line, '\n', rest);
    var text := line + "\n" + rest;
    assert text[..|line|] == line && text[|line| + 1..] == rest;
  }

  lemma SplitLast(line: string)
    requires '\n' !in line
    ensures SplitLines(line) == [line]
  {
    assert IndexOf(line, '\n') == |line|;
  }

  lemma {:induction false} SplitJoin(ls: seq<string>)
    requires ls != [] && forall i :: 0 <= i < |ls| ==> '\n' !in ls[i]
    ensures SplitLines(JoinLines(ls)) == ls
    decreases |ls|
  {
    if |ls| == 1 {
      SplitLast(ls[0]);
    } else {
      SplitFirst(ls[0], JoinLines(ls[1..]));
      SplitJoin(ls[1..]);
    }
  }

  lemma {:induction false} JoinEmptyLast(ls: seq<string>)
    requires ls != []
    ensures JoinLines(ls + [""]) == JoinLines(ls) + "\n"
    decreases |ls|
  {
    var more := ls + [""];
    assert more[1..] == ls[1..] + [""];
    if |ls| == 1 {
      assert JoinLines([""]) == "";
    } else {
      JoinEmptyLast(ls[1..]);
    }
  }

  lemma SplitJoinTerminated(ls: seq<string>)
    requires ls != [] && forall i :: 0 <= i < |ls| ==> '\n' !in ls[i]
    ensures SplitLines(JoinLines(ls) + "\n") == ls + [""]
  {
    JoinEmptyLast(ls);
    SplitJoin(ls + [""]);
  }

  /** The script's `IFS=: read offset length` and its arithmetic on the two. */
  function ParseLine(line: string): Option<Region> {
    var i := IndexOf(line, ':');
    if i == |line| then None
    else
      var offset, length := ParseInt(line[..i]), ParseInt(line[i + 1..]);
      if offset.None? || length.None? then None else Some(Region(offset.value, length.value))
  }

  /** The regions a list of lines stands for; empty lines are skipped. */
  function ParseLines(ls: seq<string>): seq<Region> {
    if ls == [] then []
    else (if ParseLine(ls[0]).Some? then [ParseLine(ls[0]).value] else []) + ParseLines(ls[1..])
  }

  ghost predicate Int64Regions(regions: seq<Region>) {
    forall r :: r in regions ==> IsInt64(r.offset) && IsInt64(r.length)
  }

  lemma LineRoundTrip(r: Region)
    requires IsInt64(r.offset) && IsInt64(r.length)
    ensures ParseLine(LineOf(r)) == Some(r)
    ensures '\n' !in LineOf(r) && LineOf(r) != ""
  {
    DecimalHasNo(r.offset, ':');
    DecimalHasNo(r.offset, '\n');
    DecimalHasNo(r.length, '\n');
    ParseIntDecimal(r.offset);
    ParseIntDecimal(r.length);
    var a, b := Decimal(r.offset), Decimal(r.length);
    IndexOfAppend(a, ':', b);
    assert LineOf(r)[..|a|] == a && LineOf(r)[|a| + 1..] == b;
  }

  lemma {:induction false} ParseEach(ls: seq<string>, regions: seq<Region>)
    requires |ls| == |regions| && forall i :: 0 <= i < |ls| ==> ParseLine(ls[i]) == Some(regions[i])
    ensures ParseLines(ls) == regions
    decreases |ls|
  {
    if ls != [] {
      ParseEach(ls[1..], regions[1..]);
    }
  }

  lemma ParseLinesRoundTrip(regions: seq<Region>)
    requires Int64Regions(regions)
    ensures ParseLines(LinesOf(regions)) == regions
  {
    var ls := LinesOf(regions);
    forall i | 0 <= i < |ls|
      ensures ParseLine(ls[i]) == Some(regions[i])
    {
      LineRoundTrip(regions[i]);
    }
    ParseEach(ls, regions);
  }

  lemma LinesHaveNoNewline(regions: seq<Region>)
    requires Int64Regions(regions)
    ensures forall i :: 0 <= i < |regions| ==> '\n' !in LinesOf(regions)[i]
  {
    forall i | 0 <= i < |regions|
      ensures '\n' !in LinesOf(regions)[i]
    {
      LineRoundTrip(regions[i]);
    }
  }

  /** A region list as it is written. */
  lemma TextWrittenOut()
    ensures JoinLines(LinesOf([Region(0, 8), Region(9, 7)])) == "0:8\n9:7"
  {
    var ls := LinesOf([Region(0, 8), Region(9, 7)]);
    assert Numeral(0) == "0" && Numeral(8) == "8" && Numeral(9) == "9" && Numeral(7) == "7";
    assert LineOf(Region(0, 8)) == "0:8" && LineOf(Region(9, 7)) == "9:7";
    assert ls == ["0:8", "9:7"];
    assert ls[1..] == ["9:7"];
    assert JoinLines(["9:7"]) == "9:7";
  }

  /** Splitting the text on newlines recovers exactly the region list. */
  lemma SplitRecoversAll(regions: seq<Region>)
    requires Int64Regions(regions)
    ensures ParseLines(SplitLines(JoinLines(LinesOf(regions)))) == regions
  {
    if regions == [] {
      SplitLast("");
      assert ParseLine("").None?;
      assert [""][1..] == [];
      assert ParseLines([""]) == [];
    } else {
      LinesHaveNoNewline(regions);
      SplitJoin(LinesOf(regions));
      ParseLinesRoundTrip(regions);
    }
  }

  /** A reader that takes only newline-terminated lines gets all regions but the last. */
  lemma TerminatedLinesLoseLast(regions: seq<Region>)
    requires Int64Regions(regions)
    ensures CompleteLines(JoinLines(LinesOf(regions))) ==
            if regions == [] then [] else LinesOf(regions[..|regions| - 1])
    ensures ParseLines(CompleteLines(JoinLines(LinesOf(regions)))) ==
            if regions == [] then [] else regions[..|regions| - 1]
  {
    if regions == [] {
      SplitLast("");
    } else {
      LinesHaveNoNewline(regions);
      SplitJoin(LinesOf(regions));
      var front := regions[..|regions| - 1];
      assert LinesOf(regions)[..|regions| - 1] == LinesOf(front);
      ParseLinesRoundTrip(front);
    }
  }

  /** One more newline at the end of the text would give such a reader everything. */
  lemma FinalNewlineRecoversAll(regions: seq<Region>)
    requires Int64Regions(regions)
    ensures ParseLines(CompleteLines(JoinLines(LinesOf(regions)) + "\n")) == regions
  {
    if regions == [] {
      SplitFirst("", "");
      SplitLast("");
      assert "" + "\n" + "" == "\n";
      assert [""][1..] == [];
      assert ParseLines([""]) == [];
    } else {
      LinesHaveNoNewline(regions);
      SplitJoinTerminated(LinesOf(regions));
      ParseLinesRoundTrip(regions);
    }
  }

  // ----- The disk -----

  /** The target after the given regions were overwritten from the image. */
  function Patched(target: seq<Byte>, image: seq<Byte>, regions: seq<Region>): (r: seq<Byte>) {
    seq(|target|, o requires 0 <= o < |target| => PatchedByte(target[o], image, regions, o))
  }

  function PatchedByte(was: Byte, image: seq<Byte>, regions: seq<Region>, o: nat): Byte {
    if o < |image| && InRegions(regions, o) then image[o] else was
  }

  lemma PatchNothing(target: seq<Byte>, image: seq<Byte>)
    ensures Patched(target, image, []) == target
  {
  }

  /** Overwriting every changed region brings the target up to the later snapshot. */
  lemma PatchingConverges(d: Disk, target: seq<Byte>, image: seq<Byte>, regions: seq<Region>, base: int, delta: int)
    requires Agrees(d, target, base) && Agrees(d, image, delta) && Covers(d, regions, base, delta)
    ensures Agrees(d, Patched(target, image, regions), delta)
  {
    forall o | 0 <= o < |target| && d.stamp[o] <= delta
      ensures Patched(target, image, regions)[o] == d.live[o]
    {
      assert base < d.stamp[o] ==> InRegions(regions, o);
    }
  }

  /**
   Leaving out the last region makes no difference if and only if the bytes that
   only it covers are already in place.
   */
  lemma LastRegionMatters(target: seq<Byte>, image: seq<Byte>, regions: seq<Region>)
    requires regions != [] && |image| <= |target|
    ensures
      var front, last := regions[..|regions| - 1], regions[|regions| - 1];
      Patched(target, image, front) == Patched(target, image, regions) <==>
      forall o :: 0 <= o < |image| && InRegion(last, o) && !InRegions(front, o) ==> target[o] == image[o]
  {
    var front, last := regions[..|regions| - 1], regions[|regions| - 1];
    var some, all := Patched(target, image, front), Patched(target, image, regions);
    assert regions == front + [last];
    forall o | 0 <= o < |target|
      ensures InRegions(regions, o) <==> InRegions(front, o) || InRegion(last, o)
    {
    }
    if forall o :: 0 <= o < |image| && InRegion(last, o) && !InRegions(front, o) ==> target[o] == image[o] {
      assert forall o :: 0 <= o < |target| ==> some[o] == all[o];
    } else {
      var o :| 0 <= o < |image| && InRegion(last, o) && !InRegions(front, o) && target[o] != image[o];
      assert some[o] != all[o];
    }
  }

  /**
   After the script the target is up to the later snapshot if and only if it
   already was on the bytes that only the last region covers.
   */
  lemma ScriptConvergesIff(d: Disk, target: seq<Byte>, image: seq<Byte>, regions: seq<Region>, base: int, delta: int)
    requires regions != []
    requires Agrees(d, target, base) && Agrees(d, image, delta) && Covers(d, regions, base, delta)
    ensures
      var front, last := regions[..|regions| - 1], regions[|regions| - 1];
      Agrees(d, Patched(target, image, front), delta) <==>
      forall o :: 0 <= o < |target| && InRegion(last, o) && !InRegions(front, o) && d.stamp[o] <= delta ==>
        target[o] == d.live[o]
  {
    var front, last := regions[..|regions| - 1], regions[|regions| - 1];
    var now := Patched(target, image, front);
    assert regions == front + [last];
    forall o | 0 <= o < |target| && d.stamp[o] <= delta
      ensures InRegions(front, o) ==> now[o] == d.live[o]
      ensures !InRegions(front, o) ==> now[o] == target[o]
      ensures !InRegions(front, o) && !InRegion(last, o) ==> now[o] == d.live[o]
    {
      assert base < d.stamp[o] ==> InRegions(regions, o);
    }
  }

  /** The bytes of the last region are all covered by earlier ones. */
  ghost predicate LastIsRedundant(size: nat, regions: seq<Region>)
    requires regions != []
  {
    var front, last := regions[..|regions| - 1], regions[|regions| - 1];
    forall o :: 0 <= o < size && InRegion(last, o) ==> InRegions(front, o)
  }

  ghost predicate MissesNothing(target: seq<Byte>, image: seq<Byte>, regions: seq<Region>)
    requires regions != []
  {
    Patched(target, image, regions[..|regions| - 1]) == Patched(target, image, regions)
  }

  /** Leaving out the last region is harmless for every disk content if and only if that region is redundant. */
  lemma LastRegionRedundantIff(size: nat, regions: seq<Region>)
    requires regions != []
    ensures
      (forall target: seq<Byte>, image: seq<Byte> :: |target| == |image| == size ==>
         MissesNothing(target, image, regions))
      <==> LastIsRedundant(size, regions)
  {
    var front, last := regions[..|regions| - 1], regions[|regions| - 1];
    if LastIsRedundant(size, regions) {
      forall target: seq<Byte>, image: seq<Byte> | |target| == |image| == size
        ensures MissesNothing(target, image, regions)
      {
        LastRegionMatters(target, image, regions);
      }
    } else {
      var o :| 0 <= o < size && InRegion(last, o) && !InRegions(front, o);
      var target, image := Filled(size, 0), Filled(size, 1);
      LastRegionMatters(target, image, regions);
      assert target[o] != image[o];
      assert !MissesNothing(target, image, regions);
    }
  }

  function Filled(size: nat, b: Byte): (s: seq<Byte>)
    ensures |s| == size && forall i :: 0 <= i < size ==> s[i] == b
  {
    seq(size, _ => b)
  }

  /** A round on a disk: a target at the base snapshot, an image exported after the delta one, an answer. */
  ghost predicate RoundInput(d: Disk, target: seq<Byte>, image: seq<Byte>, regions: seq<Region>,
                             base: int, delta: int) {
    Agrees(d, target, base) && Agrees(d, image, delta) && Covers(d, regions, base, delta)
  }

  /**
   The script brings every disk of the given size up to the delta snapshot if and
   only if the last region of the answer is redundant.
   */
  lemma ScriptAlwaysConvergesIff(size: nat, regions: seq<Region>)
    requires regions != []
    ensures
      (forall d, target, image, base, delta ::
         |target| == size && RoundInput(d, target, image, regions, base, delta) ==>
         Agrees(d, Patched(target, image, regions[..|regions| - 1]), delta))
      <==> LastIsRedundant(size, regions)
  {
    var front := regions[..|regions| - 1];
    if LastIsRedundant(size, regions) {
      forall d, target, image, base, delta | |target| == size && RoundInput(d, target, image, regions, base, delta)
        ensures Agrees(d, Patched(target, image, front), delta)
      {
        LastRegionMatters(target, image, regions);
        PatchingConverges(d, target, image, regions, base, delta);
      }
    } else {
      StaleByte(size, regions);
    }
  }

  /** A disk whose one changed byte lies in the last region only. */
  lemma StaleByte(size: nat, regions: seq<Region>)
    requires regions != [] && !LastIsRedundant(size, regions)
    ensures exists d, target, image, base, delta ::
      && |target| == size && RoundInput(d, target, image, regions, base, delta)
      && !Agrees(d, Patched(target, image, regions[..|regions| - 1]), delta)
  {
    var front, last := regions[..|regions| - 1], regions[|regions| - 1];
    var o :| 0 <= o < size && InRegion(last, o) && !InRegions(front, o);
    var image := Filled(size, 1);
    var target := image[o := 0];
    var d := Disk(image, seq(size, i => if i == o then 1 else 0));
    assert last in regions && InRegions(regions, o);
    assert RoundInput(d, target, image, regions, 0, 1);
    assert Patched(target, image, front)[o] == 0;
    assert !Agrees(d, Patched(target, image, front), 1);
  }

  /** A single changed byte is never copied, although the pod reports success. */
  lemma SingleRegionIsSkipped()
    ensures
      var target: seq<Byte>, image: seq<Byte>, regions := [0], [1], [Region(0, 1)];
      && ParseLines(CompleteLines(JoinLines(LinesOf(regions)))) == []
      && Patched(target, image, []) == [0]
      && Patched(target, image, regions) == [1]
  {
    var regions := [Region(0, 1)];
    TerminatedLinesLoseLast(regions);
    assert InRegion(regions[0], 0);
  }

  // ----- The script -----

  /** Region bounds within the shell's arithmetic. */
  predicate ShellRegion(r: Region) {
    IsInt64(r.offset) && IsInt64(r.length) && IsInt64(r.offset + r.length - 1)
  }

  /** The range request for the region is honoured. */
  predicate Fetchable(r: Region, size: int) {
    0 <= r.offset < size && r.length >= 1
  }

  /** One past the last byte that is fetched. */
  function FetchedEnd(r: Region, size: int): int {
    if r.offset + r.length < size then r.offset + r.length else size
  }

  /** The region can be fetched from an image of the given size and fits on a target with the given room. */
  predicate Transferable(r: Region, size: int, room: int) {
    Fetchable(r, size) && FetchedEnd(r, size) <= room
  }

  predicate AllTransferable(regions: seq<Region>, size: int, room: int) {
    forall i :: 0 <= i < |regions| ==> Transferable(regions[i], size, room)
  }

  function FrontOf(regions: seq<Region>): seq<Region> {
    if regions == [] then [] else regions[..|regions| - 1]
  }

  /** read: the characters up to a newline; at the end of the text it reports failure. */
  method ReadLine(text: string, pos: nat) returns (line: string, next: nat, terminated: bool)
    requires pos <= |text|
    ensures next <= |text|
    ensures terminated ==> pos < next && SplitLines(text[pos..]) == [line] + SplitLines(text[next..])
    ensures !terminated ==> SplitLines(text[pos..]) == [line]
  {
    next := ScanLine(text, pos);
    line := text[pos..next];
    terminated := next < |text|;
    if terminated {
      SplitHere(text, pos, next);
      next := next + 1;
    } else {
      assert text[pos..] == line;
      SplitLast(line);
    }
  }

  method ScanLine(text: string, pos: nat) returns (next: nat)
    requires pos <= |text|
    ensures pos <= next <= |text| && '\n' !in text[pos..next]
    ensures next < |text| ==> text[next] == '\n'
  {
    next := pos;
    while next < |text| && text[next] != '\n'
      invariant pos <= next <= |text| && '\n' !in text[pos..next]
    {
      next := next + 1;
    }
  }

  lemma SplitHere(text: string, pos: nat, next: nat)
    requires pos <= next < |text| && '\n' !in text[pos..next] && text[next] == '\n'
    ensures SplitLines(text[pos..]) == [text[pos..next]] + SplitLines(text[next + 1..])
  {
    assert text[pos..] == text[pos..next] + "\n" + text[next + 1..];
    SplitFirst(text[pos..next], text[next + 1..]);
  }

  /** wget: the server's answer to the range request. */
  method FetchRange(image: seq<Byte>, r: Region) returns (ok: bool, chunk: seq<Byte>)
    requires ShellRegion(r)
    ensures ok <==> Fetchable(r, |image|)
    ensures ok ==> chunk == image[r.offset..FetchedEnd(r, |image|)]
  {
    var start, end;
    start, end, ok := RequestRegion(r.offset, r.length, |image|);
    chunk := if ok then image[start..end + 1] else [];
  }

  /** dd with seek and without truncation. */
  method WriteAt(target: array<Byte>, offset: nat, chunk: seq<Byte>)
    requires offset + |chunk| <= target.Length
    modifies target
    ensures target[..] == old(target[..])[..offset] + chunk + old(target[..])[offset + |chunk|..]
  {
    for i := 0 to |chunk|
      invariant forall o :: 0 <= o < target.Length ==>
        target[o] == if offset <= o < offset + i then chunk[o - offset] else old(target[o])
    {
      target[offset + i] := chunk[i];
    }
  }

  lemma PatchOne(target: seq<Byte>, image: seq<Byte>, done: seq<Region>, r: Region, end: nat)
    requires Transferable(r, |image|, |target|) && end == FetchedEnd(r, |image|)
    ensures var p := Patched(target, image, done);
      p[..r.offset] + image[r.offset..end] + p[end..] == Patched(target, image, done + [r])
  {
    var p := Patched(target, image, done);
    var q := Patched(target, image, done + [r]);
    forall o | 0 <= o < |target|
      ensures (p[..r.offset] + image[r.offset..end] + p[end..])[o] == q[o]
    {
      assert InRegions(done + [r], o) <==> InRegions(done, o) || InRegion(r, o) by {
        assert (done + [r])[|done|] == r;
      }
    }
  }

  /** The two fields of a line. */
  method ReadFields(line: string, ghost r: Region) returns (region: Region)
    requires line == LineOf(r) && ShellRegion(r)
    ensures region == r
  {
    LineRoundTrip(r);
    region := ParseLine(line).value;
  }

  /** Download the bytes of one region and write them in place; a region that does not fit is an error of dd. */
  method TransferRegion(r: Region, image: seq<Byte>, target: array<Byte>,
                        ghost before: seq<Byte>, ghost done: seq<Region>) returns (ok: bool)
    requires ShellRegion(r) && |before| == target.Length && target[..] == Patched(before, image, done)
    modifies target
    ensures ok <==> Transferable(r, |image|, target.Length)
    ensures ok ==> target[..] == Patched(before, image, done + [r])
  {
    var chunk;
    ok, chunk := FetchRange(image, r);
    if !ok || r.offset + |chunk| > target.Length {
      return false;
    }
    WriteAt(target, r.offset, chunk);
    PatchOne(before, image, done, r, r.offset + |chunk|);
  }

  /** The lines the script acts on. */
  lemma ScriptLines(regions: seq<Region>)
    requires forall r :: r in regions ==> ShellRegion(r)
    ensures Encodes(SplitLines(JoinLines(LinesOf(regions))), FrontOf(regions))
  {
    TerminatedLinesLoseLast(regions);
    var lines, front := SplitLines(JoinLines(LinesOf(regions))), FrontOf(regions);
    assert CompleteLines(JoinLines(LinesOf(regions))) == lines[..|lines| - 1];
    assert lines[..|lines| - 1] == LinesOf(front);
    forall k | 0 <= k < |front|
      ensures lines[k] == LineOf(front[k]) && ShellRegion(front[k])
    {
      assert lines[k] == lines[..|lines| - 1][k];
      assert front[k] in regions;
    }
  }

  /**
   The script on the text of a region list. It succeeds exactly when every region
   but the last can be fetched and fits, and has then overwritten those regions and nothing
   else: the last line, which no newline ends, is never acted on.
   */
  method RunScript(text: string, image: seq<Byte>, target: array<Byte>, ghost regions: seq<Region>) returns (ok: bool)
    requires text == JoinLines(LinesOf(regions)) && forall r :: r in regions ==> ShellRegion(r)
    modifies target
    ensures ok <==> AllTransferable(FrontOf(regions), |image|, target.Length)
    ensures ok ==> target[..] == Patched(old(target[..]), image, FrontOf(regions))
  {
    ScriptLines(regions);
    assert text[0..] == text;
    ok := RunLines(text, image, target, SplitLines(text), FrontOf(regions));
  }

  /** Every complete line is the line of one region. */
  ghost predicate Encodes(lines: seq<string>, front: seq<Region>) {
    && |lines| == |front| + 1
    && forall k :: 0 <= k < |front| ==> IsLineOf(lines[k], front[k])
  }

  predicate IsLineOf(line: string, r: Region) {
    line == LineOf(r) && ShellRegion(r)
  }

  /** Position pos is where the k-th line begins. */
  ghost predicate AtLine(text: string, pos: nat, lines: seq<string>, k: nat) {
    pos <= |text| && k < |lines| && SplitLines(text[pos..]) == lines[k..]
  }

  method NextRegion(text: string, pos: nat, ghost lines: seq<string>, ghost front: seq<Region>, ghost k: nat)
    returns (region: Region, next: nat, more: bool)
    requires Encodes(lines, front) && AtLine(text, pos, lines, k)
    ensures more <==> k < |front|
    ensures more ==> region == front[k] && ShellRegion(region) && pos < next && AtLine(text, next, lines, k + 1)
  {
    var line;
    line, next, more := ReadLine(text, pos);
    assert line == lines[k..][0] == lines[k];
    region := Region(0, 0);
    if more {
      assert lines[k + 1..] == lines[k..][1..];
      region := ReadFields(line, front[k]);
    }
  }

  datatype Turn = Ended | Copied | Aborted

  /** The first k regions are copied, and nothing else. */
  ghost predicate CopiedUpTo(now: seq<Byte>, before: seq<Byte>, image: seq<Byte>, front: seq<Region>, k: nat) {
    k <= |front| && now == Patched(before, image, front[..k]) && AllTransferable(front[..k], |image|, |before|)
  }

  /** One turn of the loop. */
  method ScriptTurn(text: string, pos: nat, image: seq<Byte>, target: array<Byte>,
                    ghost before: seq<Byte>, ghost lines: seq<string>, ghost front: seq<Region>, ghost k: nat)
    returns (turn: Turn, next: nat)
    requires Encodes(lines, front) && AtLine(text, pos, lines, k)
    requires |before| == target.Length && CopiedUpTo(target[..], before, image, front, k)
    modifies target
    ensures turn.Ended? ==> k == |front| && target[..] == old(target[..])
    ensures turn.Copied? ==>
      pos < next && AtLine(text, next, lines, k + 1) && CopiedUpTo(target[..], before, image, front, k + 1)
    ensures turn.Aborted? ==> !AllTransferable(front, |image|, target.Length)
  {
    var region, more;
    region, next, more := NextRegion(text, pos, lines, front, k);
    if !more {
      return Ended, pos;
    }
    var copied := CopyNext(region, image, target, before, front, k);
    return if copied then Copied else Aborted, next;
  }

  /** The k-th region is the next to be copied. */
  method CopyNext(region: Region, image: seq<Byte>, target: array<Byte>,
                  ghost before: seq<Byte>, ghost front: seq<Region>, ghost k: nat) returns (ok: bool)
    requires k < |front| && region == front[k] && ShellRegion(region)
    requires |before| == target.Length && CopiedUpTo(target[..], before, image, front, k)
    modifies target
    ensures ok ==> CopiedUpTo(target[..], before, image, front, k + 1)
    ensures !ok ==> !AllTransferable(front, |image|, target.Length)
  {
    ok := TransferRegion(region, image, target, before, front[..k]);
    assert front[..k + 1] == front[..k] + [region];
  }

  method RunLines(text: string, image: seq<Byte>, target: array<Byte>,
                  ghost lines: seq<string>, ghost front: seq<Region>)
    returns (ok: bool)
    requires Encodes(lines, front) && AtLine(text, 0, lines, 0)
    modifies target
    ensures ok <==> AllTransferable(front, |image|, target.Length)
    ensures ok ==> target[..] == Patched(old(target[..]), image, front)
  {
    ghost var before := target[..];
    PatchNothing(before, image);
    ghost var k := 0;
    var pos := 0;
    while true
      invariant AtLine(text, pos, lines, k) && CopiedUpTo(target[..], before, image, front, k)
      decreases |text| - pos
    {
      var turn, next := ScriptTurn(text, pos, image, target, before, lines, front, k);
      if turn.Ended? {
        assert front[..k] == front;
        return true;
      }
      if turn.Aborted? {
        return false;
      }
      pos, k := next, k + 1;
    }
  }
}
