/**
 * Character classes and the string primitives of Go's `strings` package that both parsers use,
 * together with the small scanning helpers the line recognisers are built from.
 */
module Text {
  import opened Wrappers

  // ---------------------------------------------------------------------------------------------
  // Character classes

  /** Go's `unicode.IsSpace`: what `strings.TrimSpace` removes and `strings.Fields` splits on. */
  predicate IsSpace(c: char) {
    c == '\t' || c == '\n' || c == '\U{0B}' || c == '\U{0C}' || c == '\r' || c == ' ' ||
    c == '\U{85}' || c == '\U{A0}' || c == '\U{1680}' || ('\U{2000}' <= c <= '\U{200A}') ||
    c == '\U{2028}' || c == '\U{2029}' || c == '\U{202F}' || c == '\U{205F}' || c == '\U{3000}'
  }

  predicate IsNotSpace(c: char) {
    !IsSpace(c)
  }

  /** `\s` of Go's regular expressions: tab, line feed, form feed, carriage return and space. */
  predicate IsRegexSpace(c: char) {
    c == '\t' || c == '\n' || c == '\U{0C}' || c == '\r' || c == ' '
  }

  /** `\S`, the complement of `\s`. */
  predicate IsRegexNonSpace(c: char) {
    !IsRegexSpace(c)
  }

  /** `\d` of Go's regular expressions. */
  predicate IsDigit(c: char) {
    '0' <= c <= '9'
  }

  /** `\w` of Go's regular expressions. */
  predicate IsWordChar(c: char) {
    IsDigit(c) || ('a' <= c <= 'z') || ('A' <= c <= 'Z') || c == '_'
  }

  predicate AllDigits(s: string) {
    forall k | 0 <= k < |s| :: IsDigit(s[k])
  }

  /** What `.` of a regular expression matches: anything but a line feed. */
  predicate NoNewline(s: string) {
    forall k | 0 <= k < |s| :: s[k] != '\n'
  }

  lemma {:induction false} RegexSpaceIsSpace(c: char)
    ensures IsRegexSpace(c) ==> IsSpace(c)
  {
  }

  // ---------------------------------------------------------------------------------------------
  // Scanning helpers: each returns the position after what it recognised, starting at `i`

  /** End of the longest run of characters satisfying `p` that starts at `i`. */
  function Span(s: string, i: nat, p: char -> bool): (j: nat)
    requires i <= |s|
    ensures i <= j <= |s|
    ensures forall k | i <= k < j :: p(s[k])
    ensures j == |s| || !p(s[j])
    decreases |s| - i
  {
    if i < |s| && p(s[i]) then Span(s, i + 1, p) else i
  }

  /** A run is the longest one exactly when the character after it does not satisfy `p`. */
  lemma {:induction false} SpanIs(s: string, i: nat, p: char -> bool, k: nat)
    requires i <= k <= |s|
    requires forall m | i <= m < k :: p(s[m])
    requires k == |s| || !p(s[k])
    ensures Span(s, i, p) == k
  {
  }

  /** Start of the longest run of characters satisfying `p` that ends at `hi` and stays at or after `lo`. */
  function SpanBack(s: string, lo: nat, hi: nat, p: char -> bool): (j: nat)
    requires lo <= hi <= |s|
    ensures lo <= j <= hi
    ensures forall k | j <= k < hi :: p(s[k])
    ensures j == lo || !p(s[j - 1])
    decreases hi - lo
  {
    if lo < hi && p(s[hi - 1]) then SpanBack(s, lo, hi - 1, p) else hi
  }

  /** A non-empty maximal run, as `X+` matches when what follows cannot start with an `X`. */
  function RunOf(s: string, i: nat, p: char -> bool): (r: Option<nat>)
    requires i <= |s|
    ensures r.Some? <==> i < |s| && p(s[i])
    ensures r.Some? ==> i < r.value <= |s| && r.value == Span(s, i, p)
  {
    var j := Span(s, i, p);
    if j == i then None else Some(j)
  }

  /** Between one and `n` characters satisfying `p`, as many as there are: `X{1,n}` taken greedily. */
  function UpTo(s: string, i: nat, p: char -> bool, n: nat): (r: Option<nat>)
    requires i <= |s|
    ensures r.Some? <==> n > 0 && i < |s| && p(s[i])
    ensures r.Some? ==> i < r.value <= i + n && r.value <= |s|
    ensures r.Some? ==> forall k | i <= k < r.value :: p(s[k])
    ensures r.Some? && r.value < i + n ==> r.value == |s| || !p(s[r.value])
  {
    var j := Span(s, i, p);
    if j == i || n == 0 then None else if j - i <= n then Some(j) else Some(i + n)
  }

  /** Exactly `n` characters satisfying `p`: `X{n}`. */
  function Exactly(s: string, i: nat, p: char -> bool, n: nat): (r: Option<nat>)
    requires i <= |s|
    ensures r.Some? <==> i + n <= |s| && forall k | i <= k < i + n :: p(s[k])
    ensures r.Some? ==> r.value == i + n
  {
    if i + n <= |s| && forall k | i <= k < i + n :: p(s[k]) then Some(i + n) else None
  }

  /** The literal text `lit` at position `i`. */
  function Literal(s: string, i: nat, lit: string): (r: Option<nat>)
    requires i <= |s|
    ensures r.Some? <==> i + |lit| <= |s| && s[i..i + |lit|] == lit
    ensures r.Some? ==> r.value == i + |lit|
  {
    if i + |lit| <= |s| && s[i..i + |lit|] == lit then Some(i + |lit|) else None
  }

  // ---------------------------------------------------------------------------------------------
  // strings.HasPrefix, strings.Contains

  predicate HasPrefix(s: string, prefix: string) {
    |prefix| <= |s| && s[..|prefix|] == prefix
  }

  predicate OccursAt(s: string, sub: string, k: nat) {
    k + |sub| <= |s| && s[k..k + |sub|] == sub
  }

  /** Position of the first occurrence of `sub` in `s` at or after `i`. */
  function IndexFrom(s: string, sub: string, i: nat): (r: Option<nat>)
    requires i <= |s|
    ensures r.Some? ==> i <= r.value && OccursAt(s, sub, r.value)
    ensures r.Some? ==> forall k | i <= k < r.value :: !OccursAt(s, sub, k)
    ensures r.None? ==> forall k | i <= k :: !OccursAt(s, sub, k)
    decreases |s| - i
  {
    if OccursAt(s, sub, i) then Some(i)
    else if i == |s| then None
    else IndexFrom(s, sub, i + 1)
  }

  function IndexOf(s: string, sub: string): (r: Option<nat>)
    ensures r.Some? ==> OccursAt(s, sub, r.value) && forall k: nat | k < r.value :: !OccursAt(s, sub, k)
    ensures r.None? ==> forall k: nat :: !OccursAt(s, sub, k)
  {
    IndexFrom(s, sub, 0)
  }

  /** `strings.Contains`. */
  predicate Contains(s: string, sub: string) {
    IndexOf(s, sub).Some?
  }

  lemma {:induction false} ContainsIff(s: string, sub: string)
    ensures Contains(s, sub) <==> exists k :: OccursAt(s, sub, k)
  {
  }

  lemma {:induction false} ContainsCharIff(s: string, c: char)
    ensures Contains(s, [c]) <==> c in s
  {
    if c in s {
      var k :| 0 <= k < |s| && s[k] == c;
      assert OccursAt(s, [c], k);
    }
    if Contains(s, [c]) {
      var k := IndexOf(s, [c]).value;
      assert s[k] == s[k..k + 1][0];
    }
  }

  /** When the first character of `sep` does not occur before `m` and `sep` occurs at `m`, the first occurrence is at `m`. */
  lemma {:induction false} IndexOfFirst(s: string, sep: string, m: nat)
    requires |sep| > 0 && OccursAt(s, sep, m)
    requires forall k | 0 <= k < m :: s[k] != sep[0]
    ensures IndexOf(s, sep) == Some(m)
  {
    var r := IndexOf(s, sep);
    assert r.Some?;
    assert s[r.value..r.value + |sep|][0] == s[r.value];
  }

  lemma {:induction false} IndexOfAbsent(s: string, sep: string)
    requires |sep| > 0 && sep[0] !in s
    ensures IndexOf(s, sep) == None
  {
    forall k: nat | k + |sep| <= |s| ensures !OccursAt(s, sep, k) {
      assert s[k..k + |sep|][0] == s[k];
    }
  }

  // ---------------------------------------------------------------------------------------------
  // strings.Split and strings.Join

  /** `strings.Split` for a non-empty separator: the pieces between the non-overlapping occurrences, left to right. */
  function SplitOn(s: string, sep: string): (parts: seq<string>)
    requires |sep| > 0
    ensures |parts| >= 1
    decreases |s|
  {
    match IndexOf(s, sep)
    case None => [s]
    case Some(k) => [s[..k]] + SplitOn(s[k + |sep|..], sep)
  }

  function Join(parts: seq<string>, sep: string): string {
    if |parts| == 0 then ""
    else if |parts| == 1 then parts[0]
    else parts[0] + sep + Join(parts[1..], sep)
  }

  /** `strings.Join(parts, "")`. */
  function Concat(parts: seq<string>): string {
    Join(parts, "")
  }

  /** Joining the pieces back with the separator gives the original text. */
  lemma {:induction false} JoinSplit(s: string, sep: string)
    requires |sep| > 0
    ensures Join(SplitOn(s, sep), sep) == s
    decreases |s|
  {
    var r := IndexOf(s, sep);
    if r.Some? {
      var k := r.value;
      var rest := s[k + |sep|..];
      JoinSplit(rest, sep);
      JoinSplitStep(s, sep, k, SplitOn(rest, sep));
    }
  }

  lemma {:induction false} JoinSplitStep(s: string, sep: string, k: nat, tail: seq<string>)
    requires OccursAt(s, sep, k) && |tail| >= 1 && Join(tail, sep) == s[k + |sep|..]
    ensures Join([s[..k]] + tail, sep) == s
  {
    JoinCons(s[..k], tail, sep);
    SplitAround(s, sep, k);
  }

  lemma {:induction false} JoinCons(p: string, tail: seq<string>, sep: string)
    requires |tail| >= 1
    ensures Join([p] + tail, sep) == p + sep + Join(tail, sep)
  {
    assert ([p] + tail)[1..] == tail;
  }

  /** One more part is joined after the others, behind a separator. */
  lemma {:induction false} JoinSnoc(parts: seq<string>, p: string, sep: string)
    requires |parts| >= 1
    ensures Join(parts + [p], sep) == Join(parts, sep) + sep + p
    decreases |parts|
  {
    var q := parts + [p];
    assert q[1..] == parts[1..] + [p];
    if |parts| > 1 {
      JoinSnoc(parts[1..], p, sep);
    }
  }

  /** Text around an occurrence of `sep` is what comes before it, `sep`, and what comes after. */
  lemma {:induction false} SplitAround(s: string, sep: string, k: nat)
    requires OccursAt(s, sep, k)
    ensures s == s[..k] + sep + s[k + |sep|..]
  {
    assert s[..k] + s[k..k + |sep|] == s[..k + |sep|];
  }

  /** Splitting a join gives back the parts, provided no part contains the separator's first character. */
  lemma {:induction false} SplitJoin(parts: seq<string>, sep: string)
    requires |sep| > 0 && |parts| >= 1
    requires forall i | 0 <= i < |parts| :: sep[0] !in parts[i]
    ensures SplitOn(Join(parts, sep), sep) == parts
  {
    if |parts| == 1 {
      IndexOfAbsent(parts[0], sep);
    } else {
      var p, tail := parts[0], Join(parts[1..], sep);
      var s := p + sep + tail;
      assert OccursAt(s, sep, |p|) by { assert s[|p|..|p| + |sep|] == sep; }
      IndexOfFirst(s, sep, |p|);
      assert s[..|p|] == p && s[|p| + |sep|..] == tail;
      SplitJoin(parts[1..], sep);
    }
  }

  /** Pieces split on a single character never contain it. */
  lemma {:induction false} SplitAvoids(s: string, c: char)
    ensures forall i | 0 <= i < |SplitOn(s, [c])| :: c !in SplitOn(s, [c])[i]
    decreases |s|
  {
    match IndexOf(s, [c])
    case None =>
      forall k | 0 <= k < |s| ensures s[k] != c {
        assert !OccursAt(s, [c], k);
      }
    case Some(m) =>
      forall k | 0 <= k < m ensures s[k] != c {
        assert !OccursAt(s, [c], k);
      }
      SplitAvoids(s[m + 1..], c);
  }

  // ---------------------------------------------------------------------------------------------
  // strings.TrimSpace, strings.TrimRight, strings.Trim, strings.Fields

  /** What is left after removing every leading and trailing character that satisfies `p`. */
  function TrimWith(s: string, p: char -> bool): (t: string)
    ensures |t| <= |s|
    ensures t == [] || (!p(t[0]) && !p(t[|t| - 1]))
    ensures t == [] <==> forall k | 0 <= k < |s| :: p(s[k])
    ensures forall k | 0 <= k < |t| :: t[k] in s
  {
    var a := Span(s, 0, p);
    var b := SpanBack(s, a, |s|, p);
    assert forall k | 0 <= k < b - a :: s[a..b][k] == s[a + k];
    s[a..b]
  }

  /** What is left after removing every trailing character that satisfies `p`. */
  function TrimRightWith(s: string, p: char -> bool): (t: string)
    ensures |t| <= |s| && t == s[..|t|]
    ensures t == [] || !p(t[|t| - 1])
    ensures forall k | |t| <= k < |s| :: p(s[k])
  {
    s[..SpanBack(s, 0, |s|, p)]
  }

  /** `strings.TrimSpace`. */
  function TrimSpace(s: string): (t: string)
    ensures t == [] <==> forall k | 0 <= k < |s| :: IsSpace(s[k])
    ensures t == [] || (!IsSpace(t[0]) && !IsSpace(t[|t| - 1]))
  {
    TrimWith(s, IsSpace)
  }

  predicate IsCarriageReturn(c: char) {
    c == '\r'
  }

  /** `strings.TrimRight(s, "\r")`. */
  function TrimRightCR(s: string): (t: string)
    ensures |t| <= |s| && t == s[..|t|]
    ensures t == [] || t[|t| - 1] != '\r'
  {
    TrimRightWith(s, IsCarriageReturn)
  }

  /** Trimming carriage returns twice trims nothing more, and what is left keeps out whatever the line kept out. */
  lemma {:induction false} TrimRightCRStable(s: string, c: char)
    ensures TrimRightCR(TrimRightCR(s)) == TrimRightCR(s)
    ensures c !in s ==> c !in TrimRightCR(s)
  {
    var t := TrimRightCR(s);
    assert t[..|t|] == t;
    forall k | 0 <= k < |t| ensures t[k] == s[k] {
      assert t[k] == s[..|t|][k];
    }
  }

  predicate IsParen(c: char) {
    c == '(' || c == ')'
  }

  /** `strings.Trim(s, "()")`. */
  function TrimParens(s: string): (t: string)
    ensures t == [] || (!IsParen(t[0]) && !IsParen(t[|t| - 1]))
  {
    TrimWith(s, IsParen)
  }

  /** `strings.Fields`: the maximal runs of non-space characters, in order. */
  function Fields(s: string): (fs: seq<string>)
    ensures forall i | 0 <= i < |fs| :: fs[i] != [] && forall k | 0 <= k < |fs[i]| :: !IsSpace(fs[i][k])
    decreases |s|
  {
    if s == [] then []
    else if IsSpace(s[0]) then Fields(s[1..])
    else
      var b := Span(s, 0, IsNotSpace);
      [s[..b]] + Fields(s[b..])
  }

  /** A leading space does not change the fields. */
  lemma {:induction false} FieldsSkipSpace(c: char, x: string)
    requires IsSpace(c)
    ensures Fields([c] + x) == Fields(x)
  {
    assert ([c] + x)[1..] == x;
  }

  /** Splitting on spaces undoes joining with single spaces, when no token is empty or holds a space. */
  lemma {:induction false} FieldsJoin(tokens: seq<string>)
    requires forall i | 0 <= i < |tokens| :: tokens[i] != [] && forall k | 0 <= k < |tokens[i]| :: !IsSpace(tokens[i][k])
    ensures Fields(Join(tokens, " ")) == tokens
  {
    if |tokens| == 0 {
    } else {
      var t := tokens[0];
      var rest := if |tokens| == 1 then "" else " " + Join(tokens[1..], " ");
      var s := t + rest;
      assert Join(tokens, " ") == s;
      assert s[0] == t[0];
      assert forall k | 0 <= k < |t| :: IsNotSpace(s[k]) by {
        assert forall k | 0 <= k < |t| :: s[k] == t[k];
      }
      assert |s| > |t| ==> !IsNotSpace(s[|t|]);
      var b := Span(s, 0, IsNotSpace);
      assert b == |t|;
      assert s[..b] == t && s[b..] == rest;
      if |tokens| > 1 {
        FieldsSkipSpace(' ', Join(tokens[1..], " "));
        FieldsJoin(tokens[1..]);
      }
    }
  }
}
