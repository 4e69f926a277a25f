/** Kubernetes names made from VM names (section 2.1 of RFC 1123, section 2.3.4 of RFC 1035). */
module Sanitize {
  import opened Decimals

  const MAX_NAME_LENGTH: nat := 63

  predicate IsAlnum(c: char) {
    'a' <= c <= 'z' || IsDigit(c)
  }

  /** The letters and digits, by their code points. */
  lemma AlnumCodePoints(c: char)
    ensures IsAlnum(c) <==> 97 <= c as int <= 122 || 48 <= c as int <= 57
  {
  }

  predicate IsLabelChar(c: char) {
    IsAlnum(c) || c == '-'
  }

  predicate LabelChars(s: string) {
    forall i :: 0 <= i < |s| ==> IsLabelChar(s[i])
  }

  predicate IsLabel(s: string) {
    1 <= |s| <= 63 && LabelChars(s) && IsAlnum(s[0]) && IsAlnum(s[|s| - 1])
  }

  /**
   Lower-casing works rune by rune; of its table only this matters, that lower-case
   letters, digits and hyphens stay what they are.
   */
  ghost predicate LowerCases(lower: char -> char) {
    forall c :: IsLabelChar(c) ==> lower(c) == c
  }

  // ----- The passes over the name -----

  function ToLower(s: string, lower: char -> char): (r: string)
    ensures |r| == |s| && forall i :: 0 <= i < |s| ==> r[i] == lower(s[i])
  {
    seq(|s|, i requires 0 <= i < |s| => lower(s[i]))
  }

  /** The two replacements: separators, then whatever else is not a label character. */
  function Hyphenate(s: string): (r: string)
    ensures |r| == |s| && LabelChars(r)
    ensures forall i :: 0 <= i < |s| ==> r[i] == if IsAlnum(s[i]) then s[i] else '-'
  {
    seq(|s|, i requires 0 <= i < |s| => if IsLabelChar(s[i]) then s[i] else '-')
  }

  predicate EndsHyphen(s: string) {
    s != [] && s[|s| - 1] == '-'
  }

  /** Every run of hyphens becomes one hyphen. */
  function Collapse(s: string): string {
    if s == [] then []
    else
      var front := s[..|s| - 1];
      if EndsHyphen(s) && EndsHyphen(front) then Collapse(front) else Collapse(front) + [s[|s| - 1]]
  }

  function TrimLeft(s: string): string {
    if s != [] && s[0] == '-' then TrimLeft(s[1..]) else s
  }

  function TrimRight(s: string): string {
    if EndsHyphen(s) then TrimRight(s[..|s| - 1]) else s
  }

  function Clean(s: string): string {
    TrimRight(TrimLeft(Collapse(s)))
  }

  function Truncate(s: string): string {
    if |s| > MAX_NAME_LENGTH then TrimRight(s[..MAX_NAME_LENGTH]) else s
  }

  function NonEmpty(s: string): string {
    if s == [] then "vm" else s
  }

  /** The name before collisions are looked at. */
  function BaseName(name: string, lower: char -> char): string {
    NonEmpty(Truncate(Clean(Hyphenate(ToLower(name, lower)))))
  }

  // ----- What the passes amount to: the words of the name, joined by hyphens -----

  /** The maximal runs of letters and digits. */
  function Words(s: string): seq<string> {
    if s == [] then []
    else
      var front, c := s[..|s| - 1], s[|s| - 1];
      if !IsAlnum(c) then Words(front)
      else if front != [] && IsAlnum(front[|front| - 1]) && Words(front) != [] then
        Words(front)[..|Words(front)| - 1] + [Words(front)[|Words(front)| - 1] + [c]]
      else Words(front) + [[c]]
  }

  function Join(words: seq<string>): string {
    if words == [] then []
    else if |words| == 1 then words[0]
    else Join(words[..|words| - 1]) + "-" + words[|words| - 1]
  }

  lemma {:induction false} WordsNonEmpty(s: string)
    ensures s != [] && IsAlnum(s[|s| - 1]) ==> Words(s) != []
    ensures forall i :: 0 <= i < |Words(s)| ==>
      Words(s)[i] != [] && forall j :: 0 <= j < |Words(s)[i]| ==> IsAlnum(Words(s)[i][j])
    decreases |s|
  {
    if s != [] {
      WordsNonEmpty(s[..|s| - 1]);
    }
  }

  lemma {:induction false} TrimLeftAppend(s: string, c: char)
    requires c != '-'
    ensures TrimLeft(s + [c]) == TrimLeft(s) + [c]
    decreases |s|
  {
    if s != [] && s[0] == '-' {
      assert (s + [c])[1..] == s[1..] + [c];
      TrimLeftAppend(s[1..], c);
    }
  }

  lemma {:induction false} TrimLeftAppendHyphen(s: string)
    ensures TrimLeft(s + "-") == if TrimLeft(s) == [] then [] else TrimLeft(s) + "-"
    decreases |s|
  {
    if s == [] {
      assert TrimLeft("-") == TrimLeft("-"[1..]);
    } else if s[0] == '-' {
      assert (s + "-")[1..] == s[1..] + "-";
      TrimLeftAppendHyphen(s[1..]);
    }
  }

  /** Before the right end is trimmed, the text is the cleaned one plus the hyphen of a trailing separator. */
  lemma {:induction false} CleanEnd(s: string)
    requires LabelChars(s)
    ensures !EndsHyphen(Clean(s))
    ensures TrimLeft(Collapse(s)) == if EndsHyphen(s) && Clean(s) != [] then Clean(s) + "-" else Clean(s)
    decreases |s|
  {
    if s != [] {
      var front, c := s[..|s| - 1], s[|s| - 1];
      CleanEnd(front);
      if c != '-' {
        TrimLeftAppend(Collapse(front), c);
      } else if !EndsHyphen(front) {
        TrimLeftAppendHyphen(Collapse(front));
        var x := TrimLeft(Collapse(front));
        assert x != [] ==> (x + "-")[..|x|] == x;
      }
    }
  }

  /** A hyphen at the end changes neither side, a letter is appended to both alike. */
  lemma {:induction false} CleanJoinsWords(s: string)
    requires LabelChars(s)
    ensures Clean(s) == Join(Words(s))
    decreases |s|
  {
    if s != [] {
      var front, c := s[..|s| - 1], s[|s| - 1];
      assert s == front + [c];
      CleanJoinsWords(front);
      if c == '-' {
        CleanHyphen(front);
      } else {
        CleanLetter(front, c);
        AppendLetter(front, c);
      }
    }
  }

  lemma CleanHyphen(front: string)
    requires LabelChars(front)
    ensures Clean(front + "-") == Clean(front) && Words(front + "-") == Words(front)
  {
    var s := front + "-";
    assert s[..|s| - 1] == front;
    CleanEnd(front);
    if !EndsHyphen(front) {
      TrimLeftAppendHyphen(Collapse(front));
      var x := TrimLeft(Collapse(front));
      assert x != [] ==> (x + "-")[..|x|] == x;
    }
  }

  lemma CleanLetter(front: string, c: char)
    requires LabelChars(front) && IsAlnum(c)
    ensures Clean(front + [c]) == Clean(front) + (if EndsHyphen(front) && Clean(front) != [] then "-" + [c] else [c])
  {
    var s := front + [c];
    assert s[..|s| - 1] == front;
    CleanEnd(front);
    TrimLeftAppend(Collapse(front), c);
  }

  lemma {:induction false} JoinNonEmpty(words: seq<string>)
    requires forall i :: 0 <= i < |words| ==> words[i] != []
    ensures Join(words) == [] <==> words == []
  {
  }

  lemma ExtendLastWord(ws: seq<string>, c: char)
    requires ws != []
    ensures Join(ws[..|ws| - 1] + [ws[|ws| - 1] + [c]]) == Join(ws) + [c]
  {
    var k := |ws| - 1;
    var ws' := ws[..k] + [ws[k] + [c]];
    assert ws'[..k] == ws[..k];
  }

  lemma AddWord(ws: seq<string>, c: char)
    ensures Join(ws + [[c]]) == if ws == [] then [c] else Join(ws) + ("-" + [c])
  {
    assert (ws + [[c]])[..|ws|] == ws;
  }

  lemma AppendLetter(front: string, c: char)
    requires LabelChars(front) && IsAlnum(c)
    ensures Join(Words(front + [c])) ==
            Join(Words(front)) + (if EndsHyphen(front) && Join(Words(front)) != [] then "-" + [c] else [c])
  {
    var s := front + [c];
    assert s[..|s| - 1] == front;
    var ws := Words(front);
    WordsNonEmpty(front);
    JoinNonEmpty(ws);
    if front != [] && IsAlnum(front[|front| - 1]) {
      ExtendLastWord(ws, c);
    } else {
      if front == [] {
        assert ws == [];
      }
      AddWord(ws, c);
    }
  }

  // ----- The base name -----

  ghost predicate NoDoubleHyphen(s: string) {
    forall i, j :: 0 <= i < j < |s| && j == i + 1 ==> s[i] != '-' || s[j] != '-'
  }

  /** A label of the kind this function makes. */
  ghost predicate IsTidy(s: string) {
    IsLabel(s) && NoDoubleHyphen(s)
  }

  lemma {:induction false} CollapseShape(s: string)
    requires LabelChars(s)
    ensures LabelChars(Collapse(s)) && NoDoubleHyphen(Collapse(s))
    ensures EndsHyphen(Collapse(s)) <==> EndsHyphen(s)
    ensures NoDoubleHyphen(s) ==> Collapse(s) == s
    decreases |s|
  {
    if s != [] {
      CollapseShape(s[..|s| - 1]);
    }
  }

  /** Trimming stops at the first other character and keeps the shape of the rest. */
  lemma {:induction false} TrimLeftShape(s: string)
    requires LabelChars(s) && NoDoubleHyphen(s)
    ensures LabelChars(TrimLeft(s)) && NoDoubleHyphen(TrimLeft(s))
    ensures TrimLeft(s) != [] ==> IsAlnum(TrimLeft(s)[0])
    decreases |s|
  {
    if s != [] && s[0] == '-' {
      TrimLeftShape(s[1..]);
    }
  }

  lemma {:induction false} TrimRightShape(s: string)
    requires LabelChars(s) && NoDoubleHyphen(s)
    ensures TrimRight(s) <= s && !EndsHyphen(TrimRight(s))
    ensures LabelChars(TrimRight(s)) && NoDoubleHyphen(TrimRight(s))
    ensures s != [] && s[0] != '-' ==> TrimRight(s) != []
    decreases |s|
  {
    if EndsHyphen(s) {
      TrimRightShape(s[..|s| - 1]);
    }
  }

  /** Of a text without double hyphens at most one character is trimmed. */
  lemma TrimRightOnce(s: string)
    requires NoDoubleHyphen(s)
    ensures TrimRight(s) == if EndsHyphen(s) then s[..|s| - 1] else s
  {
    if EndsHyphen(s) {
      assert !EndsHyphen(s[..|s| - 1]);
    }
  }

  lemma CleanShape(s: string)
    requires LabelChars(s)
    ensures LabelChars(Clean(s)) && NoDoubleHyphen(Clean(s))
    ensures Clean(s) != [] ==> IsAlnum(Clean(s)[0]) && IsAlnum(Clean(s)[|Clean(s)| - 1])
  {
    CollapseShape(s);
    TrimLeftShape(Collapse(s));
    TrimRightShape(TrimLeft(Collapse(s)));
  }

  /** A non-empty prefix of a tidy text, trimmed, is tidy. */
  lemma PrefixIsTidy(s: string, n: nat)
    requires LabelChars(s) && NoDoubleHyphen(s) && s != [] && IsAlnum(s[0])
    requires 1 <= n <= |s| && n <= MAX_NAME_LENGTH
    ensures IsTidy(TrimRight(s[..n])) && TrimRight(s[..n]) <= s[..n]
  {
    TrimRightShape(s[..n]);
  }

  /**
   The base name is the words of the lower-cased name joined by hyphens, cut to
   63 characters without leaving a hyphen at the cut, or "vm" if there is no word;
   and it is a valid label.
   */
  lemma BaseNameMeaning(name: string, lower: char -> char)
    ensures IsTidy(BaseName(name, lower))
    ensures var joined := Join(Words(Hyphenate(ToLower(name, lower))));
      BaseName(name, lower) ==
        if joined == [] then "vm"
        else if |joined| <= 63 then joined
        else if joined[62] == '-' then joined[..62]
        else joined[..63]
  {
    var s := Hyphenate(ToLower(name, lower));
    CleanShape(s);
    CleanJoinsWords(s);
    var c := Clean(s);
    if |c| > MAX_NAME_LENGTH {
      PrefixIsTidy(c, MAX_NAME_LENGTH);
      TrimRightOnce(c[..MAX_NAME_LENGTH]);
      assert c[..MAX_NAME_LENGTH][..MAX_NAME_LENGTH - 1] == c[..MAX_NAME_LENGTH - 1];
    }
  }

  /** The names left as they are: exactly the labels without a double hyphen. */
  lemma BaseNameFixpoints(s: string, lower: char -> char)
    requires LowerCases(lower)
    ensures BaseName(s, lower) == s <==> IsTidy(s)
  {
    BaseNameMeaning(s, lower);
    if IsTidy(s) {
      assert Hyphenate(ToLower(s, lower)) == s;
      CollapseShape(s);
    }
  }

  lemma BaseNameIdempotent(name: string, lower: char -> char)
    requires LowerCases(lower)
    ensures BaseName(BaseName(name, lower), lower) == BaseName(name, lower)
  {
    BaseNameMeaning(name, lower);
    BaseNameFixpoints(BaseName(name, lower), lower);
  }

  // ----- Collisions -----

  function Suffix(i: nat): string {
    "-" + Numeral(i)
  }

  function Candidate(s: string, i: nat): string
    requires |Suffix(i)| <= MAX_NAME_LENGTH
  {
    (if |s| + |Suffix(i)| > MAX_NAME_LENGTH
     then TrimRight(s[..MAX_NAME_LENGTH - |Suffix(i)|]) else s) + Suffix(i)
  }

  lemma SuffixShort(i: nat)
    requires i <= MAX_INT64
    ensures |Suffix(i)| <= 20
  {
    Int64Length(i);
  }

  lemma HyphenNumberIsTidy(a: string, m: string)
    requires IsTidy(a) && m != [] && AllDigits(m) && |a| + 1 + |m| <= MAX_NAME_LENGTH
    ensures IsTidy(a + ("-" + m))
  {
  }

  lemma CandidateIsTidy(s: string, i: nat)
    requires IsTidy(s) && i <= MAX_INT64
    ensures |Suffix(i)| <= 20 && IsTidy(Candidate(s, i))
  {
    SuffixShort(i);
    NumeralValue(i);
    var n := MAX_NAME_LENGTH - |Suffix(i)|;
    if |s| > n {
      PrefixIsTidy(s, n);
      HyphenNumberIsTidy(TrimRight(s[..n]), Numeral(i));
    } else {
      HyphenNumberIsTidy(s, Numeral(i));
    }
  }

  /** What follows the last hyphen. */
  function AfterLastHyphen(s: string): string {
    if s == [] || EndsHyphen(s) then [] else AfterLastHyphen(s[..|s| - 1]) + [s[|s| - 1]]
  }

  lemma {:induction false} FollowsLastHyphen(a: string, m: string)
    requires '-' !in m
    ensures AfterLastHyphen(a + "-" + m) == m
    decreases |m|
  {
    var s := a + "-" + m;
    if m != [] {
      assert s[..|s| - 1] == a + "-" + m[..|m| - 1];
      FollowsLastHyphen(a, m[..|m| - 1]);
    }
  }

  lemma CandidateNumber(s: string, i: nat)
    requires |Suffix(i)| <= MAX_NAME_LENGTH
    ensures AfterLastHyphen(Candidate(s, i)) == Numeral(i)
  {
    var a := Candidate(s, i)[..|Candidate(s, i)| - |Suffix(i)|];
    assert a + "-" + Numeral(i) == Candidate(s, i);
    NumeralValue(i);
    FollowsLastHyphen(a, Numeral(i));
  }

  lemma CandidatesDiffer(s: string, i: nat, j: nat)
    requires i != j && |Suffix(i)| <= MAX_NAME_LENGTH && |Suffix(j)| <= MAX_NAME_LENGTH
    ensures Candidate(s, i) != Candidate(s, j)
  {
    CandidateNumber(s, i);
    CandidateNumber(s, j);
    NumeralsDiffer(i, j);
  }

  ghost predicate AllTaken(s: string, existing: set<string>, i: nat) {
    forall j :: 2 <= j < i ==> |Suffix(j)| <= MAX_NAME_LENGTH && Candidate(s, j) in existing
  }

  /** Different tries need different existing names. */
  lemma {:induction false} TriesAreBounded(s: string, existing: set<string>, i: nat)
    requires i >= 2 && AllTaken(s, existing, i)
    ensures i - 2 <= |existing|
    decreases i
  {
    if i > 2 {
      var last := Candidate(s, i - 1);
      forall j | 2 <= j < i - 1
        ensures Candidate(s, j) in existing - {last}
      {
        CandidatesDiffer(s, j, i - 1);
      }
      TriesAreBounded(s, existing - {last}, i - 1);
    }
  }

  /**
   The i-th name of the sequence base, base-2, base-3, ...: where the suffix does not
   fit within 63 characters the base is cut, without leaving a hyphen at the cut.
   */
  function NameAt(base: string, i: nat): string {
    var suffix := "-" + Numeral(i);
    if i <= 1 then base
    else if |base| + |suffix| <= 63 then base + suffix
    else if |suffix| > 62 then suffix
    else
      var cut := base[..63 - |suffix|];
      (if cut[|cut| - 1] == '-' then cut[..|cut| - 1] else cut) + suffix
  }

  lemma CandidateIsNameAt(s: string, i: nat)
    requires IsTidy(s) && 2 <= i <= MAX_INT64
    ensures |Suffix(i)| <= 20 && Candidate(s, i) == NameAt(s, i)
  {
    SuffixShort(i);
    if |s| + |Suffix(i)| > 63 {
      var cut := s[..63 - |Suffix(i)|];
      TrimRightOnce(cut);
    }
  }

  /** The first name of the sequence that is free. */
  ghost predicate IsFirstFree(base: string, existing: set<string>, i: nat, r: string) {
    && 1 <= i && r == NameAt(base, i) && r !in existing
    && forall j :: 1 <= j < i ==> NameAt(base, j) in existing
  }

  /**
   The result in characters: the base if it is free; otherwise the base with the
   suffix where both fit in 63 characters, and else the base cut to make room, less a
   hyphen at the cut.
   */
  ghost predicate IsWrittenOut(base: string, existing: set<string>, i: nat, r: string) {
    var suffix := "-" + Numeral(i);
    if base !in existing then r == base
    else
      && i >= 2 && |suffix| <= 20
      && (|base| + |suffix| <= 63 ==> r == base + suffix)
      && (|base| + |suffix| > 63 ==>
            var n := 63 - |suffix|;
            r == (if base[n - 1] == '-' then base[..n - 1] else base[..n]) + suffix)
  }

  /**
   The result is the first free name, a valid label outside the existing names,
   found within |existing| + 1 tries of the collision loop, and is left alone if
   sanitised again. The loop counter does not leave the range of an int, since the
   size of a map is one.
   */
  method SanitizeName(name: string, existing: set<string>, lower: char -> char) returns (r: string, ghost i: nat)
    requires |existing| + 2 <= MAX_INT64
    ensures IsLabel(r) && r !in existing
    ensures IsFirstFree(BaseName(name, lower), existing, i, r) && i <= |existing| + 2
    ensures IsWrittenOut(BaseName(name, lower), existing, i, r)
    ensures LowerCases(lower) ==> BaseName(r, lower) == r
  {
    var s := ToLower(name, lower);
    s := Hyphenate(s);
    s := Collapse(s);
    s := TrimLeft(s);
    s := TrimRight(s);
    if |s| > MAX_NAME_LENGTH {
      s := TrimRight(s[..MAX_NAME_LENGTH]);
    }
    if s == "" {
      s := "vm";
    }
    assert s == BaseName(name, lower);
    BaseNameMeaning(name, lower);
    if s !in existing {
      if LowerCases(lower) {
        BaseNameFixpoints(s, lower);
      }
      return s, 1;
    }
    r, i := ResolveCollision(s, existing);
    NameWrittenOut(s, i);
    if LowerCases(lower) {
      BaseNameFixpoints(r, lower);
    }
  }

  lemma TakenByName(s: string, existing: set<string>, i: nat)
    requires IsTidy(s) && s in existing && AllTaken(s, existing, i) && i <= MAX_INT64
    ensures forall j :: 1 <= j < i ==> NameAt(s, j) in existing
  {
    forall j | 1 <= j < i
      ensures NameAt(s, j) in existing
    {
      if j >= 2 {
        CandidateIsNameAt(s, j);
      }
    }
  }

  lemma NameWrittenOut(base: string, i: nat)
    requires 2 <= i <= MAX_INT64
    ensures var suffix := "-" + Numeral(i);
      && |suffix| <= 20
      && (|base| + |suffix| <= 63 ==> NameAt(base, i) == base + suffix)
      && (|base| + |suffix| > 63 ==>
            var n := 63 - |suffix|;
            NameAt(base, i) == (if base[n - 1] == '-' then base[..n - 1] else base[..n]) + suffix)
  {
    SuffixShort(i);
    var n := 63 - |Suffix(i)|;
    if |base| > n {
      assert base[..n][..n - 1] == base[..n - 1];
    }
  }

  method ResolveCollision(s: string, existing: set<string>) returns (r: string, ghost k: nat)
    requires IsTidy(s) && s in existing && |existing| + 2 <= MAX_INT64
    ensures IsTidy(r) && IsFirstFree(s, existing, k, r) && 2 <= k <= |existing| + 2
  {
    var i := 2;
    while true
      invariant 2 <= i && AllTaken(s, existing, i)
      decreases |existing| + 2 - i
    {
      TriesAreBounded(s, existing, i);
      CandidateIsTidy(s, i);
      var suffix := Suffix(i);
      var candidate := s;
      if |candidate| + |suffix| > MAX_NAME_LENGTH {
        candidate := TrimRight(candidate[..MAX_NAME_LENGTH - |suffix|]);
      }
      candidate := candidate + suffix;
      assert candidate == Candidate(s, i);
      CandidateIsNameAt(s, i);
      if candidate !in existing {
        TakenByName(s, existing, i);
        return candidate, i;
      }
      i := i + 1;
      TriesAreBounded(s, existing, i);
    }
  }
}
