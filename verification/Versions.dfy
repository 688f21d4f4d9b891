/**
 Comparing dotted version strings, and lowering the version pragmas of a source file
 to the compiler at hand.
 */
module Versions {
  import opened Base

  /** How one component is read as a number: what `fmt.Sscanf` would leave behind. */
  type Parse = string -> int

  function Split(s: string): (parts: seq<string>)
    ensures |parts| >= 1
  {
    if s == "" then [""]
    else
      var rest := Split(s[1..]);
      if s[0] == '.' then [""] + rest else [[s[0]] + rest[0]] + rest[1..]
  }

  function Join(parts: seq<string>): string
    requires |parts| >= 1
  {
    if |parts| == 1 then parts[0] else parts[0] + "." + Join(parts[1..])
  }

  lemma JoinDot(rest: seq<string>)
    requires |rest| >= 1
    ensures Join([""] + rest) == "." + Join(rest)
  {
    assert ([""] + rest)[1..] == rest;
    assert "" + "." == ".";
  }

  lemma JoinChar(c: char, rest: seq<string>)
    requires |rest| >= 1
    ensures Join([[c] + rest[0]] + rest[1..]) == [c] + Join(rest)
  {
    var parts := [[c] + rest[0]] + rest[1..];
    assert parts[0] == [c] + rest[0] && parts[1..] == rest[1..] && |parts| == |rest|;
    if |rest| > 1 { Regroup4([c], rest[0], ".", Join(rest[1..])); }
  }

  lemma Regroup4(a: string, b: string, c: string, d: string)
    ensures a + b + c + d == a + (b + c + d)
  {}

  /** Splitting cuts at every dot and nowhere else. */
  lemma {:induction false} SplitMeaning(s: string)
    ensures Join(Split(s)) == s
    ensures forall i :: 0 <= i < |Split(s)| ==> '.' !in Split(s)[i]
  {
    if s == "" {
    } else {
      var rest := Split(s[1..]);
      SplitMeaning(s[1..]);
      if s[0] == '.' { JoinDot(rest); } else { JoinChar(s[0], rest); }
      assert s == [s[0]] + s[1..];
    }
  }

  function Components(parse: Parse, v: string): seq<int> {
    var parts := Split(v);
    seq(|parts|, i requires 0 <= i < |parts| => parse(parts[i]))
  }

  /** Component `i`, zero beyond the end. */
  function Part(xs: seq<int>, i: nat): int {
    if i < |xs| then xs[i] else 0
  }

  /** Lexicographic order on the infinite sequences padded with zeros. */
  ghost predicate Less(xs: seq<int>, ys: seq<int>) {
    exists k: nat :: Part(xs, k) < Part(ys, k) && AgreeBelow(xs, ys, k)
  }

  ghost predicate AgreeBelow(xs: seq<int>, ys: seq<int>, k: nat) {
    forall i: nat :: i < k ==> Part(xs, i) == Part(ys, i)
  }

  ghost predicate Same(xs: seq<int>, ys: seq<int>) {
    forall i: nat :: Part(xs, i) == Part(ys, i)
  }

  method CompareVersion(parse: Parse, v1: string, v2: string) returns (r: int)
    ensures r == Compare(Components(parse, v1), Components(parse, v2))
  {
    var parts1, parts2 := Split(v1), Split(v2);
    ghost var xs, ys := Components(parse, v1), Components(parse, v2);
    var maxLen := |parts1|;
    if |parts2| > maxLen {
      maxLen := |parts2|;
    }
    for i := 0 to maxLen
      invariant CompareFrom(xs, ys, i) == Compare(xs, ys)
    {
      var p1, p2 := 0, 0;
      if i < |parts1| {
        p1 := parse(parts1[i]);
      }
      if i < |parts2| {
        p2 := parse(parts2[i]);
      }
      if p1 > p2 {
        return 1;
      }
      if p1 < p2 {
        return -1;
      }
    }
    return 0;
  }

  function CompareFrom(xs: seq<int>, ys: seq<int>, i: nat): int
    decreases |xs| + |ys| - i
  {
    if i >= |xs| && i >= |ys| then 0
    else if Part(xs, i) > Part(ys, i) then 1
    else if Part(xs, i) < Part(ys, i) then -1
    else CompareFrom(xs, ys, i + 1)
  }

  function Compare(xs: seq<int>, ys: seq<int>): int {
    CompareFrom(xs, ys, 0)
  }

  lemma {:induction false} CompareFromMeaning(xs: seq<int>, ys: seq<int>, i: nat)
    requires AgreeBelow(xs, ys, i)
    ensures var r := CompareFrom(xs, ys, i);
      && (r == 1 || r == 0 || r == -1)
      && (r == 1 ==> Less(ys, xs)) && (r == -1 ==> Less(xs, ys)) && (r == 0 ==> Same(xs, ys))
    decreases |xs| + |ys| - i
  {
    if i >= |xs| && i >= |ys| {
      assert forall k: nat :: Part(xs, k) == Part(ys, k);
    } else if Part(xs, i) > Part(ys, i) {
      assert AgreeBelow(ys, xs, i);
    } else if Part(xs, i) < Part(ys, i) {
      assert AgreeBelow(xs, ys, i);
    } else {
      CompareFromMeaning(xs, ys, i + 1);
    }
  }

  lemma LessExcludes(xs: seq<int>, ys: seq<int>)
    requires Less(xs, ys)
    ensures !Less(ys, xs) && !Same(xs, ys)
  {
    var k: nat :| Part(xs, k) < Part(ys, k) && AgreeBelow(xs, ys, k);
    forall j: nat | Part(ys, j) < Part(xs, j) ensures !AgreeBelow(ys, xs, j) {
      assert j < k ==> Part(xs, j) == Part(ys, j);
    }
  }

  /** The comparison is the lexicographic order on zero-padded components, whatever
      the two lengths: its sign says exactly how the sequences lie. */
  lemma CompareMeaning(xs: seq<int>, ys: seq<int>)
    ensures Compare(xs, ys) == 1 <==> Less(ys, xs)
    ensures Compare(xs, ys) == -1 <==> Less(xs, ys)
    ensures Compare(xs, ys) == 0 <==> Same(xs, ys)
    ensures Compare(xs, ys) in {-1, 0, 1} && Compare(ys, xs) == -Compare(xs, ys)
  {
    CompareFromMeaning(xs, ys, 0);
    CompareFromMeaning(ys, xs, 0);
    if Less(xs, ys) { LessExcludes(xs, ys); }
    if Less(ys, xs) { LessExcludes(ys, xs); }
  }

  lemma LessTransitive(xs: seq<int>, ys: seq<int>, zs: seq<int>)
    requires (Less(xs, ys) || Same(xs, ys)) && (Less(ys, zs) || Same(ys, zs))
    ensures Less(xs, zs) || Same(xs, zs)
    ensures Less(xs, ys) || Less(ys, zs) ==> Less(xs, zs)
  {
    if Less(xs, ys) && Less(ys, zs) {
      var j: nat :| Part(xs, j) < Part(ys, j) && AgreeBelow(xs, ys, j);
      var k: nat :| Part(ys, k) < Part(zs, k) && AgreeBelow(ys, zs, k);
      var m := if j < k then j else k;
      assert Part(xs, m) < Part(zs, m) && AgreeBelow(xs, zs, m);
    } else if Less(xs, ys) {
      var j: nat :| Part(xs, j) < Part(ys, j) && AgreeBelow(xs, ys, j);
      assert Part(xs, j) < Part(zs, j) && AgreeBelow(xs, zs, j);
    } else if Less(ys, zs) {
      var k: nat :| Part(ys, k) < Part(zs, k) && AgreeBelow(ys, zs, k);
      assert Part(xs, k) < Part(zs, k) && AgreeBelow(xs, zs, k);
    }
  }

  /** A total preorder: transitive across different lengths, in the strict sense too. */
  lemma CompareTransitive(xs: seq<int>, ys: seq<int>, zs: seq<int>)
    requires Compare(xs, ys) <= 0 && Compare(ys, zs) <= 0
    ensures Compare(xs, zs) <= 0
    ensures Compare(xs, ys) < 0 || Compare(ys, zs) < 0 ==> Compare(xs, zs) < 0
  {
    CompareMeaning(xs, ys);
    CompareMeaning(ys, zs);
    CompareMeaning(xs, zs);
    LessTransitive(xs, ys, zs);
  }

  /** Trailing zero components never matter. */
  lemma PaddingIrrelevant(xs: seq<int>, ys: seq<int>, n: nat)
    ensures Compare(xs + seq(n, _ => 0), ys) == Compare(xs, ys)
  {
    var padded := xs + seq(n, _ => 0);
    assert Same(padded, xs);
    CompareMeaning(padded, ys);
    CompareMeaning(xs, ys);
    if Less(xs, ys) {
      LessTransitive(padded, xs, ys);
    } else if Less(ys, xs) {
      LessTransitive(ys, xs, padded);
    }
  }

  // ----------------------------------------------------------------- pragmas

  predicate IsSpace(c: char) {
    c == ' ' || '\t' <= c <= '\r'
  }

  function TrimLeft(s: string): string {
    if s != "" && IsSpace(s[0]) then TrimLeft(s[1..]) else s
  }

  function TrimRight(s: string): string {
    if s != "" && IsSpace(s[|s| - 1]) then TrimRight(s[..|s| - 1]) else s
  }

  function Trim(s: string): string {
    TrimLeft(TrimRight(s))
  }

  /** The blanks that the pragma expression knows; a vertical tab is not one of them. */
  predicate IsGap(c: char) {
    IsSpace(c) && c != '\U{000B}'
  }

  function GapLength(s: string): (n: nat)
    ensures n <= |s|
  {
    if s != "" && IsGap(s[0]) then 1 + GapLength(s[1..]) else 0
  }

  /** How many characters stand before the first semicolon. */
  function BeforeSemicolon(s: string): (n: nat)
    ensures n <= |s|
  {
    if s == "" || s[0] == ';' then 0 else 1 + BeforeSemicolon(s[1..])
  }

  /** A piece of a file: one character of text, or a pragma with the blanks before
      `solidity` and all that follows it up to the semicolon. */
  datatype Segment = Text(c: char) | Pragma(gap: string, version: string)

  /** What an expression with the keywords `k1` and `k2` matches at the start of `s`:
      the first keyword, blanks, the second, and a version that begins with a blank and
      ends before a semicolon. */
  function MatchAt(k1: string, k2: string, s: string): Option<Segment> {
    if k1 <= s then MatchGap(k2, s[|k1|..]) else None
  }

  function MatchGap(k2: string, s: string): Option<Segment> {
    var n := GapLength(s);
    if n > 0 && k2 <= s[n..] then MatchVersion(s[..n], s[n..][|k2|..]) else None
  }

  function MatchVersion(gap: string, body: string): Option<Segment> {
    var m := BeforeSemicolon(body);
    if 2 <= m < |body| && IsGap(body[0]) then Some(Pragma(gap, body[..m])) else None
  }

  /** The pragma expression. */
  function PragmaAt(s: string): Option<Segment> {
    MatchAt("pragma", "solidity", s)
  }

  function RenderWith(k1: string, k2: string, s: Segment): string {
    match s
    case Text(c) => [c]
    case Pragma(gap, version) => k1 + (gap + (k2 + (version + ";")))
  }

  function Render(s: Segment): string {
    RenderWith("pragma", "solidity", s)
  }

  lemma {:induction false} GapLengthMeaning(s: string)
    ensures forall i :: 0 <= i < GapLength(s) ==> IsGap(s[i])
    ensures GapLength(s) < |s| ==> !IsGap(s[GapLength(s)])
  {
    if s == "" || !IsGap(s[0]) {
    } else {
      GapLengthMeaning(s[1..]);
      assert forall i :: 1 <= i < |s| ==> s[i] == s[1..][i - 1];
    }
  }

  lemma GapLengthUnique(s: string, n: nat)
    requires n <= |s| && (forall i :: 0 <= i < n ==> IsGap(s[i])) && (n < |s| ==> !IsGap(s[n]))
    ensures GapLength(s) == n
  {
    GapLengthMeaning(s);
  }

  lemma {:induction false} BeforeSemicolonMeaning(s: string)
    ensures forall i :: 0 <= i < BeforeSemicolon(s) ==> s[i] != ';'
    ensures BeforeSemicolon(s) < |s| ==> s[BeforeSemicolon(s)] == ';'
  {
    if s == "" || s[0] == ';' {
    } else {
      BeforeSemicolonMeaning(s[1..]);
      assert forall i :: 1 <= i < |s| ==> s[i] == s[1..][i - 1];
    }
  }

  lemma BeforeSemicolonUnique(s: string, n: nat)
    requires n < |s| && (forall i :: 0 <= i < n ==> s[i] != ';') && s[n] == ';'
    ensures BeforeSemicolon(s) == n
  {
    BeforeSemicolonMeaning(s);
  }

  /** A pragma the expression can match. */
  ghost predicate Matched(s: Segment) {
    s.Pragma? ==>
      && s.gap != "" && (forall i :: 0 <= i < |s.gap| ==> IsGap(s.gap[i]))
      && |s.version| >= 2 && IsGap(s.version[0]) && ';' !in s.version
  }

  lemma VersionMeaning(body: string, m: nat)
    requires m == BeforeSemicolon(body) && 2 <= m < |body| && IsGap(body[0])
    ensures |body[..m]| >= 2 && IsGap(body[..m][0]) && ';' !in body[..m]
    ensures body == body[..m] + (";" + body[m + 1..])
  {
    BeforeSemicolonMeaning(body);
  }

  lemma Regroup(a: string, b: string, c: string, d: string, e: string, f: string)
    ensures (a + (b + (c + (d + e)))) + f == a + (b + (c + (d + (e + f))))
  {}

  lemma MatchMeaning(k1: string, k2: string, s: string) returns (tail: string)
    requires MatchAt(k1, k2, s).Some?
    ensures var p := MatchAt(k1, k2, s).value;
      && p.Pragma? && Matched(p) && s == k1 + (p.gap + (k2 + (p.version + (";" + tail))))
      && s == RenderWith(k1, k2, p) + tail
  {
    var p := MatchAt(k1, k2, s).value;
    tail := GapMeaning(k2, s[|k1|..]);
    assert s == k1 + s[|k1|..];
    Regroup(k1, p.gap, k2, p.version, ";", tail);
  }

  lemma GapMeaning(k2: string, s: string) returns (tail: string)
    requires MatchGap(k2, s).Some?
    ensures var p := MatchGap(k2, s).value; p.Pragma? && Matched(p) && s == p.gap + (k2 + (p.version + (";" + tail)))
  {
    var n := GapLength(s);
    var rest := s[n..];
    GapLengthMeaning(s);
    VersionMeaning(rest[|k2|..], BeforeSemicolon(rest[|k2|..]));
    tail := rest[|k2|..][BeforeSemicolon(rest[|k2|..]) + 1..];
    assert rest == k2 + rest[|k2|..];
    assert s == s[..n] + rest;
  }

  lemma Drop(a: string, b: string)
    ensures a <= a + b && (a + b)[..|a|] == a && (a + b)[|a|..] == b
  {}

  lemma GapBack(gap: string, rest: string)
    requires (forall i :: 0 <= i < |gap| ==> IsGap(gap[i])) && rest != "" && !IsGap(rest[0])
    ensures GapLength(gap + rest) == |gap|
  {
    GapLengthUnique(gap + rest, |gap|);
  }

  lemma VersionBack(version: string, tail: string)
    requires ';' !in version
    ensures BeforeSemicolon(version + (";" + tail)) == |version|
  {
    BeforeSemicolonUnique(version + (";" + tail), |version|);
  }

  lemma MatchOf(k1: string, gap: string, k2: string, body: string)
    requires gap != "" && (forall i :: 0 <= i < |gap| ==> IsGap(gap[i])) && k2 != "" && !IsGap(k2[0])
    requires 2 <= BeforeSemicolon(body) < |body| && IsGap(body[0])
    ensures MatchAt(k1, k2, k1 + (gap + (k2 + body))) == Some(Pragma(gap, body[..BeforeSemicolon(body)]))
  {
    Drop(k1, gap + (k2 + body));
    GapBack(gap, k2 + body);
    Drop(gap, k2 + body);
    Drop(k2, body);
  }

  lemma MatchBack(k1: string, k2: string, p: Segment, tail: string)
    requires p.Pragma? && Matched(p) && k2 != "" && !IsGap(k2[0])
    ensures MatchAt(k1, k2, RenderWith(k1, k2, p) + tail) == Some(p)
  {
    var body := p.version + (";" + tail);
    Regroup(k1, p.gap, k2, p.version, ";", tail);
    VersionBack(p.version, tail);
    MatchOf(k1, p.gap, k2, body);
    assert body[..|p.version|] == p.version;
  }

  /** From `x` to `y` nothing changes before the first pragma that is replaced, and
      that one begins with the same letter. */
  ghost predicate ChangedAt(x: string, y: string, m: nat) {
    m < |x| && m < |y| && x[..m] == y[..m] && x[m] == y[m] == 'p' && ';' in x[m..]
  }

  /** The letter `p` begins the first keyword and is nowhere else in the two. */
  ghost predicate OneP(k1: string, k2: string) {
    k1 != "" && k2 != "" && !IsGap(k2[0]) && (forall i :: 1 <= i < |k1| ==> k1[i] != 'p') && 'p' !in k2
  }

  /** In a match there is no `p` after its first letter and before the version. */
  lemma MatchPrefix(k1: string, gap: string, k2: string, body: string, i: nat)
    requires OneP(k1, k2) && (forall j :: 0 <= j < |gap| ==> IsGap(gap[j])) && body != "" && IsGap(body[0])
    requires 1 <= i <= |k1| + |gap| + |k2|
    ensures (k1 + (gap + (k2 + body)))[i] != 'p'
  {}

  lemma LongVersion(x: string, y: string, m: nat, start: nat)
    requires ChangedAt(x, y, m) && start < m && start + 2 <= |y| && IsGap(y[start]) && y[start + 1] != ';'
    ensures var k := BeforeSemicolon(x[start..]); 2 <= k < |x[start..]|
  {
    var body := x[start..];
    BeforeSemicolonMeaning(body);
    assert x[start] == x[..m][start] == y[..m][start] == y[start];
    assert start + 1 < m ==> x[start + 1] == x[..m][start + 1] == y[..m][start + 1] == y[start + 1];
    assert body[0] != ';' && body[1] != ';';
    var j :| 0 <= j < |x[m..]| && x[m..][j] == ';';
    assert body[m - start + j] == ';';
  }

  /** So no match starts before a replaced pragma that did not start there already. */
  lemma NoNewMatch(k1: string, k2: string, x: string, y: string, m: nat)
    requires OneP(k1, k2) && ChangedAt(x, y, m) && m >= 1 && MatchAt(k1, k2, y).Some?
    ensures MatchAt(k1, k2, x).Some?
  {
    var p := MatchAt(k1, k2, y).value;
    var tail := MatchMeaning(k1, k2, y);
    BodySurvives(k1, p.gap, k2, p.version + (";" + tail), x, m);
    MatchOf(k1, p.gap, k2, x[|k1| + |p.gap| + |k2|..]);
  }

  lemma BodySurvives(k1: string, gap: string, k2: string, body: string, x: string, m: nat)
    requires OneP(k1, k2) && (forall j :: 0 <= j < |gap| ==> IsGap(gap[j])) && |body| >= 2 && IsGap(body[0]) &&
        body[1] != ';'
    requires ChangedAt(x, k1 + (gap + (k2 + body)), m) && m >= 1
    ensures var start := |k1| + |gap| + |k2|;
      && start < |x| && x == k1 + (gap + (k2 + x[start..]))
      && 2 <= BeforeSemicolon(x[start..]) < |x[start..]| && IsGap(x[start])
  {
    var y, start := k1 + (gap + (k2 + body)), |k1| + |gap| + |k2|;
    forall i | 1 <= i <= start ensures y[i] != 'p' { MatchPrefix(k1, gap, k2, body, i); }
    assert m > start;
    assert y[start] == body[0] && y[start + 1] == body[1];
    LongVersion(x, y, m, start);
    SamePrefix(k1, gap, k2, body, x, m);
    assert x[start] == x[..m][start] == y[..m][start] == y[start];
  }

  lemma SamePrefix(k1: string, gap: string, k2: string, body: string, x: string, m: nat)
    requires var y := k1 + (gap + (k2 + body)); |k1| + |gap| + |k2| < m <= |x| && m <= |y| && x[..m] == y[..m]
    ensures x == k1 + (gap + (k2 + x[|k1| + |gap| + |k2|..]))
  {
    var y, start := k1 + (gap + (k2 + body)), |k1| + |gap| + |k2|;
    assert x[..start] == x[..m][..start] == y[..m][..start] == y[..start];
    assert y[..start] == k1 + (gap + k2);
    assert x == x[..start] + x[start..];
  }

  // ------------------------------------------------------- cutting a file up

  /** How pragmas are found and written. */
  datatype Syntax = Syntax(at: string -> Option<Segment>, render: Segment -> string)

  const Solidity := Syntax(PragmaAt, Render)

  /** What is found was written so, what is written is found again, and replacing one
      pragma by another makes none start where none did. */
  ghost predicate Lawful(x: Syntax) {
    && (forall s :: x.at(s).Some? ==> x.at(s).value.Pragma? && Matched(x.at(s).value) && x.render(x.at(s).value) <= s)
    && (forall p: Segment, tail :: p.Pragma? && Matched(p) ==> x.at(x.render(p) + tail) == Some(p))
    && (forall a, b, m: nat :: ChangedAt(a, b, m) && m >= 1 && x.at(b).Some? ==> x.at(a).Some?)
    && (forall c :: x.render(Text(c)) == [c])
    && (forall p: Segment :: p.Pragma? ==> Delimited(x.render(p)))
  }

  predicate Delimited(text: string) {
    |text| > 1 && text[0] == 'p' && text[|text| - 1] == ';'
  }

  lemma SolidityLawful()
    ensures Lawful(Solidity)
  {
    assert OneP("pragma", "solidity");
    forall s | PragmaAt(s).Some?
      ensures PragmaAt(s).value.Pragma? && Matched(PragmaAt(s).value) && Render(PragmaAt(s).value) <= s
    {
      var _ := MatchMeaning("pragma", "solidity", s);
    }
    forall p: Segment, tail | p.Pragma? && Matched(p) ensures PragmaAt(Render(p) + tail) == Some(p) {
      MatchBack("pragma", "solidity", p, tail);
    }
    forall a, b, m: nat | ChangedAt(a, b, m) && m >= 1 && PragmaAt(b).Some? ensures PragmaAt(a).Some? {
      NoNewMatch("pragma", "solidity", a, b, m);
    }
    forall p: Segment | p.Pragma? ensures Delimited(Render(p)) { RenderDelimited("pragma", "solidity", p); }
  }

  lemma RenderDelimited(k1: string, k2: string, p: Segment)
    requires p.Pragma? && k1 != "" && k1[0] == 'p'
    ensures Delimited(RenderWith(k1, k2, p))
  {}

  /** The file cut at its pragmas, from left to right. */
  function Cut(x: Syntax, s: string): seq<Segment>
    requires Lawful(x)
    decreases |s|
  {
    if s == "" then [] else [Head(x, s)] + Cut(x, s[|x.render(Head(x, s))|..])
  }

  function Head(x: Syntax, s: string): (h: Segment)
    requires Lawful(x) && s != ""
    ensures x.render(h) <= s && |x.render(h)| > 0 && Matched(h)
    ensures h == if x.at(s).Some? then x.at(s).value else Text(s[0])
  {
    match x.at(s)
    case None => Text(s[0])
    case Some(p) => assert Delimited(x.render(p)); p
  }

  function Print(x: Syntax, file: seq<Segment>): string {
    if file == [] then "" else x.render(file[0]) + Print(x, file[1..])
  }

  /** Cutting loses nothing. */
  lemma {:induction false} PrintCut(x: Syntax, s: string)
    requires Lawful(x)
    ensures Print(x, Cut(x, s)) == s
    decreases |s|
  {
    if s == "" {
    } else {
      PrintCut(x, s[|x.render(Head(x, s))|..]);
    }
  }

  /** The compiler's view: how components are read, and the first `>=x.y.z` in a
      version expression, if there is one. */
  datatype Reader = Reader(parse: Parse, floor: string -> Option<string>) {
    predicate Above(v: string, target: string) {
      Compare(Components(parse, v), Components(parse, target)) > 0
    }
  }

  /** The version behind a caret. */
  function Caret(version: string): Option<string> {
    var v := Trim(version);
    if v != "" && v[0] == '^' then Some(Trim(v[1..])) else None
  }

  predicate MustLower(r: Reader, target: string, s: Segment) {
    && s.Pragma?
    && if Caret(s.version).Some? then r.Above(Caret(s.version).value, target)
       else r.floor(Trim(s.version)).Some? && r.Above(r.floor(Trim(s.version)).value, target)
  }

  /** The pragma written for a target. */
  function Lowered(target: string): Segment {
    Pragma(" ", " ^" + target)
  }

  function AdjustSegment(r: Reader, target: string, s: Segment): Segment {
    if MustLower(r, target, s) then Lowered(target) else s
  }

  function Adjust(r: Reader, target: string, file: seq<Segment>): (out: seq<Segment>)
    ensures |out| == |file|
  {
    if file == [] then [] else [AdjustSegment(r, target, file[0])] + Adjust(r, target, file[1..])
  }

  /** The whole pass over the text of a file. */
  function AdjustText(x: Syntax, r: Reader, target: string, s: string): string
    requires Lawful(x)
  {
    Print(x, Adjust(r, target, Cut(x, s)))
  }

  lemma AdjustTextFirst(x: Syntax, r: Reader, target: string, s: string)
    requires Lawful(x) && s != ""
    ensures var rest := s[|x.render(Head(x, s))|..];
      && s == x.render(Head(x, s)) + rest && |rest| < |s|
      && Adjust(r, target, Cut(x, s)) == [AdjustSegment(r, target, Head(x, s))] + Adjust(r, target, Cut(x, rest))
      && AdjustText(x, r, target, s) == x.render(AdjustSegment(r, target, Head(x, s))) + AdjustText(x, r, target, rest)
  {
    var h := Head(x, s);
    var rest := s[|x.render(h)|..];
    assert Cut(x, s)[1..] == Cut(x, rest);
    var out := Adjust(r, target, Cut(x, s));
    assert out[1..] == Adjust(r, target, Cut(x, rest));
  }

  /** Each segment stays in its place, and only pragmas above the target change. */
  lemma {:induction false} AdjustAt(r: Reader, target: string, file: seq<Segment>, i: nat)
    requires i < |file|
    ensures Adjust(r, target, file)[i] == AdjustSegment(r, target, file[i])
  {
    if i == 0 {
    } else {
      AdjustAt(r, target, file[1..], i - 1);
    }
  }

  // ------------------------------------------- adjusting creates no new match

  lemma ChangedLater(a: string, x: string, y: string, m: nat)
    requires ChangedAt(x, y, m)
    ensures ChangedAt(a + x, a + y, |a| + m)
  {
    assert (a + x)[..|a| + m] == a + x[..m] && (a + y)[..|a| + m] == a + y[..m];
    assert (a + x)[|a| + m..] == x[m..];
  }

  lemma ChangedFirst(a: string, b: string, x: string, y: string)
    requires Delimited(a) && Delimited(b)
    ensures ChangedAt(a + x, b + y, 0)
  {
    assert (a + x)[0..][|a| - 1] == ';';
  }

  lemma {:induction false} FirstChange(x: Syntax, r: Reader, target: string, s: string)
    requires Lawful(x)
    ensures AdjustText(x, r, target, s) == s || exists m :: ChangedAt(s, AdjustText(x, r, target, s), m)
    decreases |s|
  {
    if s == "" {
    } else {
      AdjustTextFirst(x, r, target, s);
      var head := Head(x, s);
      var rest := s[|x.render(head)|..];
      var out := AdjustText(x, r, target, rest);
      if MustLower(r, target, head) {
        ChangedFirst(x.render(head), x.render(Lowered(target)), rest, out);
      } else {
        FirstChange(x, r, target, rest);
        if m: nat :| ChangedAt(rest, out, m) { ChangedLater(x.render(head), rest, out, m); }
      }
    }
  }

  lemma TextStaysText(x: Syntax, r: Reader, target: string, c: char, rest: string)
    requires Lawful(x) && x.at([c] + rest).None?
    ensures x.at([c] + AdjustText(x, r, target, rest)).None?
  {
    var out := AdjustText(x, r, target, rest);
    FirstChange(x, r, target, rest);
    if m: nat :| ChangedAt(rest, out, m) { ChangedLater([c], rest, out, m); }
  }

  lemma CutPiece(x: Syntax, p: Segment, rest: string)
    requires Lawful(x) && Matched(p) && (p.Text? ==> x.at(x.render(p) + rest).None?)
    ensures Cut(x, x.render(p) + rest) == [p] + Cut(x, rest)
  {
    var s := x.render(p) + rest;
    assert p.Pragma? ==> Delimited(x.render(p));
    assert Head(x, s) == p;
    assert s[|x.render(p)|..] == rest;
  }

  lemma LoweredMatched(target: string)
    ensures Matched(Lowered(target)) <==> ';' !in target
  {
    var v := Lowered(target).version;
    if ';' in v {
      var i :| 0 <= i < |v| && v[i] == ';';
      assert target[i - 2] == ';';
    }
    if ';' in target {
      var i :| 0 <= i < |target| && target[i] == ';';
      assert v[i + 2] == ';';
    }
  }

  /** What was written is cut as it was written, so long as the target holds no
      semicolon: the pragmas of the adjusted text are the adjusted pragmas. */
  lemma {:induction false} CutAdjusted(x: Syntax, r: Reader, target: string, s: string)
    requires Lawful(x) && ';' !in target
    ensures Cut(x, AdjustText(x, r, target, s)) == Adjust(r, target, Cut(x, s))
    decreases |s|
  {
    if s == "" {
    } else {
      AdjustTextFirst(x, r, target, s);
      var head := Head(x, s);
      var rest := s[|x.render(head)|..];
      CutAdjusted(x, r, target, rest);
      LoweredMatched(target);
      if head.Text? { TextStaysText(x, r, target, head.c, rest); }
      CutPiece(x, AdjustSegment(r, target, head), AdjustText(x, r, target, rest));
    }
  }

  /** The written pragma reads back as itself exactly when the target has no semicolon. */
  lemma LoweredReadBack(target: string, tail: string)
    ensures PragmaAt(Render(Lowered(target)) + tail) == Some(Lowered(target)) <==> ';' !in target
  {
    LoweredMatched(target);
    var s := Render(Lowered(target)) + tail;
    if ';' !in target { MatchBack("pragma", "solidity", Lowered(target), tail); }
    if PragmaAt(s).Some? { var _ := MatchMeaning("pragma", "solidity", s); }
  }

  /** The part of a target that a written pragma shows to a reader. */
  function Shown(target: string): string {
    target[..BeforeSemicolon(target)]
  }

  /** For every target: what is read back is the pragma of the part before its first
      semicolon, whatever follows. */
  lemma ReadBackShown(target: string, tail: string)
    ensures PragmaAt(Render(Lowered(target)) + tail) == Some(Lowered(Shown(target)))
  {
    BeforeSemicolonMeaning(target);
    LoweredMatched(Shown(target));
    var n := BeforeSemicolon(target);
    if n == |target| {
      assert Shown(target) == target;
      MatchBack("pragma", "solidity", Lowered(target), tail);
    } else {
      ShownThenRest(target, target[n + 1..], tail);
    }
  }

  lemma ShownThenRest(target: string, after: string, tail: string)
    requires target == Shown(target) + (";" + after) && Matched(Lowered(Shown(target)))
    ensures PragmaAt(Render(Lowered(target)) + tail) == Some(Lowered(Shown(target)))
  {
    var v := " ^" + Shown(target);
    RenderSplit("pragma", " ", "solidity", v, after, tail);
    assert Lowered(target).version == v + (";" + after);
    MatchBack("pragma", "solidity", Lowered(Shown(target)), after + (";" + tail));
  }

  lemma RenderSplit(k1: string, gap: string, k2: string, v: string, w: string, tail: string)
    ensures RenderWith(k1, k2, Pragma(gap, v + (";" + w))) + tail ==
        RenderWith(k1, k2, Pragma(gap, v)) + (w + (";" + tail))
  {}

  /** So a second pass lowers a written pragma again exactly when the part before the
      semicolon is above the target. */
  lemma LoweredAgain(r: Reader, target: string, tail: string)
    ensures PragmaAt(Render(Lowered(target)) + tail).Some?
    ensures MustLower(r, target, PragmaAt(Render(Lowered(target)) + tail).value) <==>
        r.Above(Trim(Shown(target)), target)
  {
    ReadBackShown(target, tail);
    CaretOfAdjusted(Shown(target));
  }

  // ---------------------------------------------------------- what it achieves

  lemma {:induction false} TrimRightAfter(c: char, t: string)
    requires !IsSpace(c)
    ensures TrimRight([c] + t) == [c] + TrimRight(t)
  {
    if t == "" || !IsSpace(t[|t| - 1]) {
    } else {
      TrimRightAfter(c, t[..|t| - 1]);
      assert ([c] + t)[..|t|] == [c] + t[..|t| - 1];
    }
  }

  lemma {:induction false} TrimRightTwice(s: string)
    ensures TrimRight(TrimRight(s)) == TrimRight(s)
  {
    if s == "" || !IsSpace(s[|s| - 1]) {
    } else {
      TrimRightTwice(s[..|s| - 1]);
    }
  }

  lemma {:induction false} TrimRightBlank(t: string)
    requires t != "" && !IsSpace(t[0])
    ensures TrimRight(" " + t) == " " + TrimRight(t)
  {
    if !IsSpace(t[|t| - 1]) {
    } else {
      TrimRightBlank(t[..|t| - 1]);
      assert (" " + t)[..|t|] == " " + t[..|t| - 1];
    }
  }

  /** The pragma written for `target` names `target`, without surrounding blanks. */
  lemma CaretOfAdjusted(target: string)
    ensures Caret(Lowered(target).version) == Some(Trim(target))
  {
    var v := ['^'] + target;
    assert Lowered(target).version == " " + v;
    TrimRightBlank(v);
    TrimRightAfter('^', target);
    TrimRightTwice(target);
    var t := ['^'] + TrimRight(target);
    assert (" " + t)[1..] == t;
    assert TrimRight(" " + v) == " " + t && TrimLeft(" " + t) == TrimLeft(t) == t;
    assert t[1..] == TrimRight(target);
  }

  /** Adjusting segments twice is adjusting them once. */
  lemma AdjustIdempotent(r: Reader, target: string, file: seq<Segment>)
    ensures Adjust(r, target, Adjust(r, target, file)) == Adjust(r, target, file)
  {
    var once := Adjust(r, target, file);
    var twice := Adjust(r, target, once);
    forall i | 0 <= i < |file| ensures twice[i] == once[i] {
      AdjustAt(r, target, file, i);
      AdjustAt(r, target, once, i);
    }
  }

  /** And so with the text of a file: the second pass finds the pragmas that the first
      one left and changes none. */
  lemma AdjustTextIdempotent(r: Reader, target: string, s: string)
    requires ';' !in target
    ensures Lawful(Solidity)
    ensures AdjustText(Solidity, r, target, AdjustText(Solidity, r, target, s)) == AdjustText(Solidity, r, target, s)
  {
    SolidityLawful();
    CutAdjusted(Solidity, r, target, s);
    AdjustIdempotent(r, target, Cut(Solidity, s));
  }

  /** A caret pragma that asks for more than the target. */
  predicate CaretAbove(r: Reader, target: string, s: Segment) {
    s.Pragma? && Caret(s.version).Some? && r.Above(Caret(s.version).value, target)
  }

  /** After adjusting, a caret pragma is above the target exactly where one had to be
      lowered and the target falls below its own trimmed form. */
  lemma CaretAfterAdjust(r: Reader, target: string, file: seq<Segment>, i: nat)
    requires i < |file|
    ensures CaretAbove(r, target, Adjust(r, target, file)[i]) <==>
        MustLower(r, target, file[i]) && r.Above(Trim(target), target)
  {
    CaretOfAdjusted(target);
    AdjustAt(r, target, file, i);
  }

  /** So with a target without surrounding blanks and without semicolon none is left in
      the text. */
  lemma NoCaretAboveTarget(r: Reader, target: string, s: string, p: Segment)
    requires Trim(target) == target && ';' !in target
    ensures Lawful(Solidity)
    ensures p in Cut(Solidity, AdjustText(Solidity, r, target, s)) ==> !CaretAbove(r, target, p)
  {
    SolidityLawful();
    CutAdjusted(Solidity, r, target, s);
    var file := Cut(Solidity, s);
    if p in Adjust(r, target, file) {
      var i :| 0 <= i < |file| && Adjust(r, target, file)[i] == p;
      CaretAfterAdjust(r, target, file, i);
    }
    var xs := Components(r.parse, target);
    CompareMeaning(xs, xs);
  }

  /** A reader for which a line break before the number hides it, and a target with one. */
  const LineReader := Reader(s => if s == "9" then 9 else if s == "10" then 10 else 0, _ => None)

  lemma {:induction false} SplitUndotted(s: string)
    requires '.' !in s
    ensures Split(s) == [s]
  {
    if s == "" {
    } else {
      SplitUndotted(s[1..]);
      assert s == [s[0]] + s[1..];
    }
  }

  lemma CaretLeftAbove()
    ensures var file := [Pragma(" ", " ^10")];
      CaretAbove(LineReader, "\n9", Adjust(LineReader, "\n9", file)[0])
  {
    var file := [Pragma(" ", " ^10")];
    SplitUndotted("\n9");
    SplitUndotted("9");
    SplitUndotted("10");
    assert Components(LineReader.parse, "\n9") == [0];
    assert Components(LineReader.parse, "9") == [9];
    assert Components(LineReader.parse, "10") == [10];
    CaretOfAdjusted("10");
    assert Trim("10") == "10" && Trim("\n9") == "9";
    assert " ^10" == Lowered("10").version;
    CaretAfterAdjust(LineReader, "\n9", file, 0);
  }

  /** A reader for which a semicolon hides the number before it. */
  const StrictReader := Reader(s => if s == "1" then 1 else if s == "2" then 2 else 0, _ => None)

  /** With such a target the second pass lowers the pragma again, and the text grows. */
  lemma SemicolonGrows()
    ensures Lawful(Solidity)
    ensures var s := Render(Lowered("2"));
      && AdjustText(Solidity, StrictReader, "1;", s) == Render(Lowered("1;"))
      && AdjustText(Solidity, StrictReader, "1;", Render(Lowered("1;"))) == Render(Lowered("1;")) + ";"
  {
    SolidityLawful();
    StrictAbove();
    ShownParts();
    RenderParts();
    LowersFirst("2", "2", "");
    LowersFirst("1;", "1", ";");
    AdjustSemicolon();
    var all := Render(Lowered("1;"));
    assert all + "" == all;
  }

  lemma ShownParts()
    ensures Trim("2") == "2" && Trim("1") == "1" && Shown("2") == "2" && Shown("1;") == "1"
  {
    assert "2"[1..] == "" && "1;"[1..] == ";";
    assert BeforeSemicolon("2") == 1 && BeforeSemicolon("1;") == 1;
  }

  lemma RenderParts()
    ensures Render(Lowered("2")) == Render(Lowered("2")) + ""
    ensures Render(Lowered("1;")) == Render(Lowered("1")) + ";"
  {
    var whole, part := Render(Lowered("1;")), Render(Lowered("1"));
    RenderSplit("pragma", " ", "solidity", " ^1", "", "");
    assert " ^" + "1;" == " ^1" + (";" + "") && " ^" + "1" == " ^1";
    assert whole + "" == whole;
    assert "" + (";" + "") == ";";
  }

  lemma StrictAbove()
    ensures StrictReader.Above("2", "1;") && StrictReader.Above("1", "1;")
  {
    SplitUndotted("2");
    SplitUndotted("1");
    SplitUndotted("1;");
    assert Components(StrictReader.parse, "2") == [2];
    assert Components(StrictReader.parse, "1") == [1];
    assert Components(StrictReader.parse, "1;") == [0];
  }

  /** A text that is the pragma of `from`, of which `left` is not read as part of it. */
  lemma LowersFirst(from: string, shown: string, left: string)
    requires Lawful(Solidity) && shown == Shown(from) && Trim(shown) == shown && StrictReader.Above(shown, "1;")
    requires Render(Lowered(from)) == Render(Lowered(shown)) + left
    ensures AdjustText(Solidity, StrictReader, "1;", Render(Lowered(from))) ==
      Render(Lowered("1;")) + AdjustText(Solidity, StrictReader, "1;", left)
  {
    var s := Render(Lowered(from));
    assert s + "" == s;
    ReadBackShown(from, "");
    CaretOfAdjusted(shown);
    AdjustTextFirst(Solidity, StrictReader, "1;", s);
    assert s[|Render(Lowered(shown))|..] == left;
  }

  lemma AdjustSemicolon()
    requires Lawful(Solidity)
    ensures AdjustText(Solidity, StrictReader, "1;", ";") == ";"
  {
    AdjustTextFirst(Solidity, StrictReader, "1;", ";");
    assert PragmaAt(";").None?;
    assert ";"[1..] == "";
  }
}
