/** The Range header a delta pod sends and how the image server resolves it (section 14.1.2 of RFC 9110). */
module RangeHeader {
  import opened Wrappers
  import opened Decimals

  /** A single byte-range specifier. */
  datatype ByteSpec = Closed(first: nat, last: int) | OpenEnded(first: nat) | LastBytes(count: int) | Malformed

  /** Positions start to end, both included. */
  datatype Span = Span(start: int, end: int)

  function IndexOf(s: string, c: char): (i: nat)
    ensures i <= |s|
    ensures forall j :: 0 <= j < i ==> s[j] != c
    ensures i < |s| ==> s[i] == c
  {
    if s == [] || s[0] == c then 0 else 1 + IndexOf(s[1..], c)
  }

  const UNIT: string := "bytes="

  /** The syntax of the header. */
  function ParseSpec(header: string): ByteSpec {
    if UNIT <= header then ParsePositions(header[|UNIT|..]) else Malformed
  }

  /** What follows the unit: two parts around the first hyphen. */
  function ParsePositions(spec: string): ByteSpec {
    var i := IndexOf(spec, '-');
    if i == |spec| then Malformed else ParseParts(spec[..i], spec[i + 1..])
  }

  function ParseParts(first: string, last: string): ByteSpec {
    if first == "" then
      (if ParseInt(last).None? then Malformed else LastBytes(ParseInt(last).value))
    else if ParseInt(first).None? || ParseInt(first).value < 0 then Malformed
    else if last == "" then OpenEnded(ParseInt(first).value)
    else if ParseInt(last).None? then Malformed
    else Closed(ParseInt(first).value, ParseInt(last).value)
  }

  /** The meaning of a specifier on content of the given size. */
  predicate Selects(spec: ByteSpec, size: int, i: int) {
    0 <= i < size &&
    match spec
    case Closed(first, last) => first <= i <= last
    case OpenEnded(first) => first <= i
    case LastBytes(count) => size - count <= i
    case Malformed => false
  }

  function Resolve(spec: ByteSpec, size: int): Option<Span> {
    match spec
    case Closed(first, last) =>
      if first >= size || last < first then None else Some(Span(first, if last >= size then size - 1 else last))
    case OpenEnded(first) => if first >= size then None else Some(Span(first, size - 1))
    case LastBytes(count) =>
      if count <= 0 then None else Some(Span(if size - count > 0 then size - count else 0, size - 1))
    case Malformed => None
  }

  /** A range is refused exactly when it selects nothing; otherwise it is exactly what is selected. */
  lemma ResolveSelects(spec: ByteSpec, size: int)
    requires size >= 1
    ensures Resolve(spec, size).None? <==> forall i :: !Selects(spec, size, i)
    ensures Resolve(spec, size).Some? ==>
      var span := Resolve(spec, size).value;
      0 <= span.start <= span.end < size && forall i :: Selects(spec, size, i) <==> span.start <= i <= span.end
  {
    if Resolve(spec, size).Some? {
      assert Selects(spec, size, Resolve(spec, size).value.start);
    }
  }

  /** The server's parser. */
  method ParseRangeHeader(header: string, totalSize: int) returns (start: int, end: int, ok: bool)
    ensures ok <==> Resolve(ParseSpec(header), totalSize).Some?
    ensures ok ==> Resolve(ParseSpec(header), totalSize) == Some(Span(start, end))
  {
    start, end, ok := 0, 0, false;
    if !(UNIT <= header) {
      return;
    }
    var spec := header[|UNIT|..];
    var i := IndexOf(spec, '-');
    if i == |spec| {
      return;
    }
    start, end, ok := ParseBounds(spec[..i], spec[i + 1..], totalSize);
  }

  /** Its branches on the two parts. */
  method ParseBounds(first: string, last: string, totalSize: int) returns (start: int, end: int, ok: bool)
    ensures ok <==> Resolve(ParseParts(first, last), totalSize).Some?
    ensures ok ==> Resolve(ParseParts(first, last), totalSize) == Some(Span(start, end))
  {
    start, end, ok := 0, 0, false;
    if first == "" {
      var n := ParseInt(last);
      if n.None? || n.value <= 0 {
        return;
      }
      start := if totalSize - n.value > 0 then totalSize - n.value else 0;
      end := totalSize - 1;
    } else {
      var a := ParseInt(first);
      if a.None? || a.value < 0 || a.value >= totalSize {
        return;
      }
      start := a.value;
      if last == "" {
        end := totalSize - 1;
      } else {
        var b := ParseInt(last);
        if b.None? || b.value < start {
          return;
        }
        end := b.value;
        if end >= totalSize {
          end := totalSize - 1;
        }
      }
    }
    ok := true;
  }

  // ----- The header of one region -----

  /** The shell's last byte position, in 64-bit arithmetic. */
  function EndOf(offset: int, length: int): int {
    Wrap64(offset + length - 1)
  }

  function Header(first: int, last: int): string {
    UNIT + (Decimal(first) + "-" + Decimal(last))
  }

  lemma {:induction false} IndexOfAppend(a: string, c: char, b: string)
    requires c !in a
    ensures IndexOf(a + [c] + b, c) == |a|
  {
    if a != [] {
      assert (a + [c] + b)[1..] == a[1..] + [c] + b;
      IndexOfAppend(a[1..], c, b);
    }
  }

  lemma DecimalHasNo(i: int, c: char)
    requires !IsDigit(c) && (i >= 0 || c != '-')
    ensures c !in Decimal(i) && Decimal(i) != []
  {
    NumeralValue(if i < 0 then -i else i);
  }

  lemma PositionsSplit(first: string, last: string)
    requires '-' !in first
    ensures ParsePositions(first + "-" + last) == ParseParts(first, last)
  {
    IndexOfAppend(first, '-', last);
    var spec := first + "-" + last;
    assert spec[..|first|] == first && spec[|first| + 1..] == last;
  }

  lemma InnerHyphenIsUnreadable(digits: string, last: string)
    requires digits != [] && AllDigits(digits)
    ensures ParseInt(digits + "-" + last).None?
  {
    var s := digits + "-" + last;
    assert IsDigit(s[0]) && s[|digits|] == '-';
  }

  lemma Reassociate(digits: string, last: string)
    ensures "-" + digits + "-" + last == "" + "-" + (digits + "-" + last)
  {
  }

  /** A second hyphen inside the suffix length makes it unreadable. */
  lemma NegativeOffset(offset: int, last: string)
    requires offset < 0
    ensures ParsePositions(Decimal(offset) + "-" + last) == Malformed
  {
    var digits := Numeral(-offset);
    Reassociate(digits, last);
    PositionsSplit("", digits + "-" + last);
    assert ParseInt(digits + "-" + last).None? by {
      NumeralValue(-offset);
      InnerHyphenIsUnreadable(digits, last);
    }
  }

  /** What the server reads off the header: a negative offset makes it malformed. */
  lemma HeaderSpec(first: int, last: int)
    requires IsInt64(first) && IsInt64(last)
    ensures ParseSpec(Header(first, last)) == if first < 0 then Malformed else Closed(first, last)
  {
    assert Header(first, last)[|UNIT|..] == Decimal(first) + "-" + Decimal(last);
    if first < 0 {
      NegativeOffset(first, Decimal(last));
    } else {
      DecimalHasNo(first, '-');
      DecimalHasNo(last, ':');
      ParseIntDecimal(last);
      ParseIntDecimal(first);
      PositionsSplit(Decimal(first), Decimal(last));
    }
  }

  /** What the server makes of the header of a region. */
  function Served(offset: int, length: int, size: int): Option<Span> {
    Resolve(ParseSpec(Header(offset, EndOf(offset, length))), size)
  }

  /** The bytes from first to last that exist, if the range is honoured. */
  function Clip(first: int, last: int, size: int): Option<Span> {
    if 0 <= first < size && first <= last then Some(Span(first, if last < size then last else size - 1)) else None
  }

  /**
   Every header the script can send, resolved: it is honoured if and only if the
   offset lies inside the image and not after the end position.
   */
  lemma HeaderResolves(offset: int, length: int, size: int)
    requires IsInt64(offset)
    ensures Served(offset, length, size) == Clip(offset, EndOf(offset, length), size)
  {
    WrapKeeps(offset + length - 1);
    HeaderSpec(offset, EndOf(offset, length));
  }

  lemma ProperRegionIsClipped(offset: int, length: int, size: int)
    requires IsInt64(offset + length - 1)
    ensures Clip(offset, EndOf(offset, length), size) ==
            if 0 <= offset < size && length >= 1
            then Some(Span(offset, (if offset + length < size then offset + length else size) - 1)) else None
  {
    WrapKeeps(offset + length - 1);
  }

  /** For a proper region: from the offset to the end of the region or of the image, whichever comes first. */
  lemma RegionResolves(offset: int, length: int, size: int)
    requires IsInt64(offset) && IsInt64(offset + length - 1)
    ensures Served(offset, length, size) ==
            if 0 <= offset < size && length >= 1
            then Some(Span(offset, (if offset + length < size then offset + length else size) - 1)) else None
  {
    HeaderResolves(offset, length, size);
    ProperRegionIsClipped(offset, length, size);
  }

  /** The script's request for a region and the server's answer to it. */
  method RequestRegion(offset: int, length: int, size: int) returns (start: int, end: int, ok: bool)
    requires IsInt64(offset) && IsInt64(offset + length - 1)
    ensures ok <==> 0 <= offset < size && length >= 1
    ensures ok ==> start == offset && end == (if offset + length < size then offset + length else size) - 1
  {
    RegionResolves(offset, length, size);
    start, end, ok := ParseRangeHeader(Header(offset, EndOf(offset, length)), size);
  }

  /** A header as it is written. */
  lemma HeaderWrittenOut()
    ensures Header(5, 9) == "bytes=5-9" && EndOf(5, 5) == 9
  {
  }
}
