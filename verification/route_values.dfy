/**
 * The value coercers of route.go: BGP communities (RFC 1997) written `(a,b)`, large communities
 * (section 2 of RFC 8092) written `(a, b, c)`, the duplicate-free merge the collector applies to both,
 * and the AS path.
 */
module RouteValues {
  import opened Wrappers
  import opened Text
  import opened Util
  import opened Subsequences

  // ---------------------------------------------------------------------------------------------
  // Lists of communities

  /** No entry occurs twice. */
  predicate NoDup(cs: seq<seq<int>>) {
    forall i, j | 0 <= i < j < |cs| :: cs[i] != cs[j]
  }

  /** Every entry holds exactly `n` numbers. */
  predicate Width(cs: seq<seq<int>>, n: nat) {
    forall i | 0 <= i < |cs| :: |cs[i]| == n
  }

  /** The position of the first occurrence of `c` in `cs`. */
  function FirstIndex(cs: seq<seq<int>>, c: seq<int>): (k: nat)
    requires c in cs
    ensures k < |cs| && cs[k] == c
    ensures forall j | 0 <= j < k :: cs[j] != c
  {
    if cs[0] == c then 0 else 1 + FirstIndex(cs[1..], c)
  }

  /**
   * Every entry of `tail` comes from `incoming`, and the entries follow the order in which they first
   * occur there.
   */
  predicate FirstSeenOrder(tail: seq<seq<int>>, incoming: seq<seq<int>>) {
    && (forall i | 0 <= i < |tail| :: tail[i] in incoming)
    && (forall i, j | 0 <= i < j < |tail| :: FirstIndex(incoming, tail[i]) < FirstIndex(incoming, tail[j]))
  }

  /** Every entry holds numbers that are not negative. */
  predicate NonNegative(cs: seq<seq<int>>) {
    forall i, k | 0 <= i < |cs| && 0 <= k < |cs[i]| :: cs[i][k] >= 0
  }

  // ---------------------------------------------------------------------------------------------
  // parseCommunities

  /** The two numbers of a token that starts `(digits,digits)`; whatever follows the `)` is ignored. */
  function MatchCommunityToken(t: string): (r: Option<(string, string)>)
    ensures r.Some? ==> r.value.0 != [] && AllDigits(r.value.0) && r.value.1 != [] && AllDigits(r.value.1)
  {
    var a :- Literal(t, 0, "(");
    var b :- RunOf(t, a, IsDigit);
    var c :- Literal(t, b, ",");
    var d :- RunOf(t, c, IsDigit);
    var e :- Literal(t, d, ")");
    Some((t[a..b], t[c..d]))
  }

  /** The communities of a list of tokens, in token order; a token that is not a community is skipped. */
  function CommunitiesOf(tokens: seq<string>): (cs: seq<seq<int>>)
    ensures |cs| <= |tokens|
    ensures Width(cs, 2) && NonNegative(cs)
  {
    if tokens == [] then []
    else
      var rest := CommunitiesOf(tokens[1..]);
      match MatchCommunityToken(tokens[0])
      case Some((x, y)) =>
        (match (StrconvAtoi(x), StrconvAtoi(y))
         case (Some(a), Some(b)) => [[a, b]] + rest
         case _ => rest)
      case None => rest
  }

  /** route.go's `parseCommunities`: one community per whitespace-separated token that starts like one. */
  function ParseCommunities(s: string): seq<seq<int>> {
    CommunitiesOf(Fields(TrimSpace(s)))
  }

  /** How the daemon prints a community. */
  function FormatCommunity(c: (nat, nat)): string {
    "(" + DecimalString(c.0) + "," + DecimalString(c.1) + ")"
  }

  function FormatCommunities(cs: seq<(nat, nat)>): (ts: seq<string>)
    ensures |ts| == |cs|
    ensures forall i | 0 <= i < |cs| :: ts[i] == FormatCommunity(cs[i])
  {
    if cs == [] then [] else [FormatCommunity(cs[0])] + FormatCommunities(cs[1..])
  }

  function CommunityValues(cs: seq<(nat, nat)>): (r: seq<seq<int>>)
    ensures |r| == |cs|
    ensures forall i | 0 <= i < |cs| :: r[i] == [cs[i].0, cs[i].1]
  {
    if cs == [] then [] else [[cs[0].0, cs[0].1]] + CommunityValues(cs[1..])
  }

  /** A token `(x,y)` of two digit strings is recognised as exactly those two strings. */
  lemma {:induction false} MatchCommunityParts(x: string, y: string)
    requires x != [] && AllDigits(x) && y != [] && AllDigits(y)
    ensures MatchCommunityToken("(" + x + "," + y + ")") == Some((x, y))
  {
    var t := "(" + x + "," + y + ")";
    var p := 2 + |x|;
    assert t[..1] == "(";
    assert t[1..1 + |x|] == x;
    assert t[p..p + |y|] == y;
    assert t[1 + |x|..p] == ",";
    assert t[p + |y|..p + |y| + 1] == ")";
    DigitRunAt(t, 1, x);
    DigitRunAt(t, p, y);
  }

  /** Each printed community token is recognised with the numbers it was printed from. */
  lemma {:induction false} MatchFormattedCommunity(c: (nat, nat))
    ensures MatchCommunityToken(FormatCommunity(c)) == Some((DecimalString(c.0), DecimalString(c.1)))
  {
    MatchCommunityParts(DecimalString(c.0), DecimalString(c.1));
  }

  lemma {:induction false} CommunitiesOfFormatted(cs: seq<(nat, nat)>)
    ensures CommunitiesOf(FormatCommunities(cs)) == CommunityValues(cs)
  {
    if cs != [] {
      var ts := FormatCommunities(cs);
      assert ts[1..] == FormatCommunities(cs[1..]);
      CommunitiesOfFormatted(cs[1..]);
      MatchFormattedCommunity(cs[0]);
      DigitsValueOfDecimal(cs[0].0);
      DigitsValueOfDecimal(cs[0].1);
    }
  }

  /** A token of a printed community list never holds a space. */
  lemma {:induction false} FormattedCommunityHasNoSpace(c: (nat, nat))
    ensures FormatCommunity(c) != [] && forall k | 0 <= k < |FormatCommunity(c)| :: !IsSpace(FormatCommunity(c)[k])
  {
    var x, y := DecimalString(c.0), DecimalString(c.1);
    var t := FormatCommunity(c);
    forall k | 0 <= k < |t| ensures !IsSpace(t[k]) {
      if 1 <= k < 1 + |x| {
        assert t[k] == x[k - 1];
      } else if 2 + |x| <= k < 2 + |x| + |y| {
        assert t[k] == y[k - 2 - |x|];
      }
    }
  }

  /** Trimming a string that starts and ends with a non-space character changes nothing. */
  lemma {:induction false} TrimSpaceKeeps(s: string)
    requires s != [] && !IsSpace(s[0]) && !IsSpace(s[|s| - 1])
    ensures TrimSpace(s) == s
  {
    assert Span(s, 0, IsSpace) == 0;
    assert SpanBack(s, 0, |s|, IsSpace) == |s|;
    assert s[0..|s|] == s;
  }

  /** Parsing a printed, space-separated list of communities gives back that list, in order and with repeats. */
  lemma {:induction false} ParseCommunitiesRoundTrip(cs: seq<(nat, nat)>)
    ensures ParseCommunities(Join(FormatCommunities(cs), " ")) == CommunityValues(cs)
  {
    var ts := FormatCommunities(cs);
    forall i | 0 <= i < |ts|
      ensures ts[i] != [] && forall k | 0 <= k < |ts[i]| :: !IsSpace(ts[i][k])
    {
      FormattedCommunityHasNoSpace(cs[i]);
    }
    var s := Join(ts, " ");
    if s != [] {
      JoinEnds(ts, " ");
      TrimSpaceKeeps(s);
    }
    FieldsJoin(ts);
    CommunitiesOfFormatted(cs);
  }

  /**
   * The daemon wraps long attribute lines wherever the width runs out, even inside a number; joined back
   * without a separator, the pieces `(0,2` and `5133)` read as the single pair (0, 25133).
   */
  lemma {:induction false} WrappedCommunityExample()
    ensures ParseCommunities("(0,2" + "5133)") == [[0, 25133]]
  {
    ParseCommunitiesRoundTrip([(0, 25133)]);
    PrintedWrappedCommunity();
  }

  lemma {:induction false} PrintedWrappedCommunity()
    ensures Join(FormatCommunities([(0, 25133)]), " ") == "(0,2" + "5133)"
  {
    Decimal25133();
    assert DecimalString(0) == "0";
    var t := FormatCommunity((0, 25133));
    assert t == "(0,25133)";
    assert FormatCommunities([(0, 25133)]) == [t];
  }

  lemma {:induction false} Decimal25133()
    ensures DecimalString(25133) == "25133"
  {
    assert DecimalString(2) == "2";
    assert DecimalString(25) == "25";
    assert DecimalString(251) == "251";
    assert DecimalString(2513) == "2513";
  }

  /** A join of non-empty pieces starts with the first piece's first character and ends with the last piece's last. */
  lemma {:induction false} JoinEnds(parts: seq<string>, sep: string)
    requires |parts| >= 1 && forall i | 0 <= i < |parts| :: parts[i] != []
    ensures Join(parts, sep) != []
    ensures Join(parts, sep)[0] == parts[0][0]
    ensures Join(parts, sep)[|Join(parts, sep)| - 1] == parts[|parts| - 1][|parts[|parts| - 1]| - 1]
  {
    if |parts| > 1 {
      JoinEnds(parts[1..], sep);
    }
  }

  // ---------------------------------------------------------------------------------------------
  // parseLargeCommunities

  /** The three numbers at the start of a segment `digits,\s*digits,\s*digits`; whatever follows is ignored. */
  function MatchLargeSegment(t: string): (r: Option<(string, string, string)>)
    ensures r.Some? ==> r.value.0 != [] && AllDigits(r.value.0) && r.value.1 != [] && AllDigits(r.value.1)
                        && r.value.2 != [] && AllDigits(r.value.2)
  {
    var a :- RunOf(t, 0, IsDigit);
    var b :- Literal(t, a, ",");
    var c := Span(t, b, IsRegexSpace);
    var d :- RunOf(t, c, IsDigit);
    var e :- Literal(t, d, ",");
    var f := Span(t, e, IsRegexSpace);
    var g :- RunOf(t, f, IsDigit);
    Some((t[..a], t[c..d], t[f..g]))
  }

  /** The large communities of a list of segments, in order; a segment that is not one is skipped. */
  function LargeCommunitiesOf(segments: seq<string>): (cs: seq<seq<int>>)
    ensures |cs| <= |segments|
    ensures Width(cs, 3) && NonNegative(cs)
  {
    if segments == [] then []
    else
      var rest := LargeCommunitiesOf(segments[1..]);
      match MatchLargeSegment(segments[0])
      case Some((x, y, z)) =>
        (match (StrconvAtoi(x), StrconvAtoi(y), StrconvAtoi(z))
         case (Some(a), Some(b), Some(c)) => [[a, b, c]] + rest
         case _ => rest)
      case None => rest
  }

  /**
   * route.go's `parseLargeCommunities`: trim spaces, then the outer parentheses, split at `) (` and read
   * one large community per segment.
   */
  function ParseLargeCommunities(s: string): seq<seq<int>> {
    LargeCommunitiesOf(SplitOn(TrimParens(TrimSpace(s)), ") ("))
  }

  /** How the daemon prints the inside of a large community. */
  function FormatLargeInner(c: (nat, nat, nat)): string {
    DecimalString(c.0) + ", " + DecimalString(c.1) + ", " + DecimalString(c.2)
  }

  /** How the daemon prints a large community. */
  function FormatLargeCommunity(c: (nat, nat, nat)): string {
    "(" + FormatLargeInner(c) + ")"
  }

  function FormatLargeCommunities(cs: seq<(nat, nat, nat)>): (ts: seq<string>)
    ensures |ts| == |cs|
    ensures forall i | 0 <= i < |cs| :: ts[i] == FormatLargeCommunity(cs[i])
  {
    if cs == [] then [] else [FormatLargeCommunity(cs[0])] + FormatLargeCommunities(cs[1..])
  }

  function LargeInners(cs: seq<(nat, nat, nat)>): (ts: seq<string>)
    ensures |ts| == |cs|
    ensures forall i | 0 <= i < |cs| :: ts[i] == FormatLargeInner(cs[i])
  {
    if cs == [] then [] else [FormatLargeInner(cs[0])] + LargeInners(cs[1..])
  }

  function LargeCommunityValues(cs: seq<(nat, nat, nat)>): (r: seq<seq<int>>)
    ensures |r| == |cs|
    ensures forall i | 0 <= i < |cs| :: r[i] == [cs[i].0, cs[i].1, cs[i].2]
  {
    if cs == [] then [] else [[cs[0].0, cs[0].1, cs[0].2]] + LargeCommunityValues(cs[1..])
  }

  /** A run of digits written at `i` and followed by a non-digit is recognised as exactly that run. */
  lemma {:induction false} DigitRunAt(t: string, i: nat, x: string)
    requires i + |x| <= |t| && t[i..i + |x|] == x && x != [] && AllDigits(x)
    requires i + |x| == |t| || !IsDigit(t[i + |x|])
    ensures RunOf(t, i, IsDigit) == Some(i + |x|)
  {
    forall m | i <= m < i + |x| ensures IsDigit(t[m]) {
      assert t[m] == t[i..i + |x|][m - i];
    }
    SpanIs(t, i, IsDigit, i + |x|);
  }

  lemma {:induction false} CommaAt(t: string, j: nat)
    requires j < |t| && t[j] == ','
    ensures Literal(t, j, ",") == Some(j + 1)
  {
    assert t[j..j + 1] == [t[j]];
  }

  lemma {:induction false} OneSpaceAt(t: string, j: nat)
    requires j + 1 < |t| && t[j] == ' ' && IsDigit(t[j + 1])
    ensures Span(t, j, IsRegexSpace) == j + 1
  {
    SpanIs(t, j, IsRegexSpace, j + 1);
  }

  /** Digits written at `i`, then `, ` and a digit: the run, the comma and the single space are recognised. */
  lemma {:induction false} DigitsThenSeparator(t: string, i: nat, x: string)
    requires i + |x| + 2 < |t| && t[i..i + |x|] == x && x != [] && AllDigits(x)
    requires t[i + |x|] == ',' && t[i + |x| + 1] == ' ' && IsDigit(t[i + |x| + 2])
    ensures RunOf(t, i, IsDigit) == Some(i + |x|)
    ensures Literal(t, i + |x|, ",") == Some(i + |x| + 1)
    ensures Span(t, i + |x| + 1, IsRegexSpace) == i + |x| + 2
  {
    DigitRunAt(t, i, x);
    CommaAt(t, i + |x|);
    OneSpaceAt(t, i + |x| + 1);
  }

  /** Where the parts of `x, y, z` sit. */
  lemma {:induction false} LargeLayout(x: string, y: string, z: string)
    requires x != [] && AllDigits(x) && y != [] && AllDigits(y) && z != [] && AllDigits(z)
    ensures var t, p, q := x + ", " + y + ", " + z, |x| + 2, |x| + 2 + |y| + 2;
      && |t| == q + |z|
      && t[..|x|] == x && t[p..p + |y|] == y && t[q..] == z
      && t[|x|] == ',' && t[|x| + 1] == ' ' && t[p + |y|] == ',' && t[p + |y| + 1] == ' '
      && IsDigit(t[p]) && IsDigit(t[q])
  {
    var t, p, q := x + ", " + y + ", " + z, |x| + 2, |x| + 2 + |y| + 2;
    assert t[..|x|] == x;
    assert t[p..p + |y|] == y;
    assert t[q..] == z;
    assert t[p] == y[0] && t[q] == z[0];
  }

  /** Three digit strings separated by `, ` are recognised as a large community. */
  lemma {:induction false} MatchLargeParts(x: string, y: string, z: string)
    requires x != [] && AllDigits(x) && y != [] && AllDigits(y) && z != [] && AllDigits(z)
    ensures MatchLargeSegment(x + ", " + y + ", " + z) == Some((x, y, z))
  {
    LargeLayout(x, y, z);
    MatchLargeAt(x + ", " + y + ", " + z, x, y, z);
  }

  /** A segment laid out as `x, y, z` yields the three digit strings. */
  lemma {:induction false} MatchLargeAt(t: string, x: string, y: string, z: string)
    requires x != [] && AllDigits(x) && y != [] && AllDigits(y) && z != [] && AllDigits(z)
    requires var p, q := |x| + 2, |x| + 2 + |y| + 2;
      && |t| == q + |z|
      && t[..|x|] == x && t[p..p + |y|] == y && t[q..] == z
      && t[|x|] == ',' && t[|x| + 1] == ' ' && t[p + |y|] == ',' && t[p + |y| + 1] == ' '
      && IsDigit(t[p]) && IsDigit(t[q])
    ensures MatchLargeSegment(t) == Some((x, y, z))
  {
    var p, q := |x| + 2, |x| + 2 + |y| + 2;
    assert t[0..|x|] == x;
    DigitsThenSeparator(t, 0, x);
    DigitsThenSeparator(t, p, y);
    assert t[q..q + |z|] == z;
    DigitRunAt(t, q, z);
    LargeSegmentAt(t, |x|, p, p + |y|, q, q + |z|);
  }

  /** `MatchLargeSegment` in terms of where its runs end. */
  lemma {:induction false} LargeSegmentAt(t: string, a: nat, c: nat, d: nat, f: nat, g: nat)
    requires RunOf(t, 0, IsDigit) == Some(a) && Literal(t, a, ",") == Some(a + 1)
    requires Span(t, a + 1, IsRegexSpace) == c && RunOf(t, c, IsDigit) == Some(d)
    requires Literal(t, d, ",") == Some(d + 1) && Span(t, d + 1, IsRegexSpace) == f
    requires RunOf(t, f, IsDigit) == Some(g)
    ensures MatchLargeSegment(t) == Some((t[..a], t[c..d], t[f..g]))
  {
  }

  lemma {:induction false} MatchFormattedLarge(c: (nat, nat, nat))
    ensures MatchLargeSegment(FormatLargeInner(c))
         == Some((DecimalString(c.0), DecimalString(c.1), DecimalString(c.2)))
  {
    MatchLargeParts(DecimalString(c.0), DecimalString(c.1), DecimalString(c.2));
  }

  lemma {:induction false} LargeCommunitiesOfFormatted(cs: seq<(nat, nat, nat)>)
    ensures LargeCommunitiesOf(LargeInners(cs)) == LargeCommunityValues(cs)
  {
    if cs != [] {
      var ts := LargeInners(cs);
      assert ts[1..] == LargeInners(cs[1..]);
      LargeCommunitiesOfFormatted(cs[1..]);
      MatchFormattedLarge(cs[0]);
      DigitsValueOfDecimal(cs[0].0);
      DigitsValueOfDecimal(cs[0].1);
      DigitsValueOfDecimal(cs[0].2);
    }
  }

  /** Printing each piece in parentheses and joining with spaces is the same as joining with `) (` inside one pair. */
  lemma {:induction false} JoinParenthesized(cs: seq<(nat, nat, nat)>)
    requires |cs| >= 1
    ensures Join(FormatLargeCommunities(cs), " ") == "(" + Join(LargeInners(cs), ") (") + ")"
  {
    if |cs| > 1 {
      JoinParenthesized(cs[1..]);
      assert FormatLargeCommunities(cs)[1..] == FormatLargeCommunities(cs[1..]);
      assert LargeInners(cs)[1..] == LargeInners(cs[1..]);
    }
  }

  /** Every printed piece is digits, commas and spaces: no parenthesis, and it starts and ends with a digit. */
  lemma {:induction false} LargeInnerShape(c: (nat, nat, nat))
    ensures var t := FormatLargeInner(c);
      && t != [] && IsDigit(t[0]) && IsDigit(t[|t| - 1])
      && forall k | 0 <= k < |t| :: t[k] != ')' && t[k] != '('
  {
    var x, y, z := DecimalString(c.0), DecimalString(c.1), DecimalString(c.2);
    var t := FormatLargeInner(c);
    assert t == x + ", " + y + ", " + z;
    forall k | 0 <= k < |t| ensures t[k] != ')' && t[k] != '(' {
      if k < |x| {
        assert t[k] == x[k];
      } else if |x| + 2 <= k < |x| + 2 + |y| {
        assert t[k] == y[k - |x| - 2];
      } else if |x| + 2 + |y| + 2 <= k {
        assert t[k] == z[k - |x| - 2 - |y| - 2];
      }
    }
    assert t[|t| - 1] == z[|z| - 1];
  }

  /** Trimming parentheses from `(` + s + `)` gives s back when s neither starts nor ends with one. */
  lemma {:induction false} TrimParensKeeps(s: string)
    requires s != [] && !IsParen(s[0]) && !IsParen(s[|s| - 1])
    ensures TrimParens("(" + s + ")") == s
  {
    var w := "(" + s + ")";
    assert Span(w, 0, IsParen) == 1;
    assert SpanBack(w, 1, |w|, IsParen) == |w| - 1;
    assert w[1..|w| - 1] == s;
  }

  /** The pieces joined by `) (` start and end with a digit. */
  lemma {:induction false} LargeBodyEnds(cs: seq<(nat, nat, nat)>)
    requires |cs| >= 1
    ensures var body := Join(LargeInners(cs), ") (");
      body != [] && IsDigit(body[0]) && IsDigit(body[|body| - 1])
  {
    var inners := LargeInners(cs);
    forall i | 0 <= i < |inners| ensures inners[i] != [] {
      LargeInnerShape(cs[i]);
    }
    LargeInnerShape(cs[0]);
    LargeInnerShape(cs[|cs| - 1]);
    JoinEnds(inners, ") (");
  }

  /** Trimming a printed list of large communities leaves the pieces joined by `) (`. */
  lemma {:induction false} TrimPrintedLarge(cs: seq<(nat, nat, nat)>)
    requires |cs| >= 1
    ensures TrimParens(TrimSpace(Join(FormatLargeCommunities(cs), " "))) == Join(LargeInners(cs), ") (")
  {
    JoinParenthesized(cs);
    LargeBodyEnds(cs);
    TrimWrapped(Join(LargeInners(cs), ") ("));
  }

  /** A parenthesised body that starts and ends with a digit survives both trims unchanged. */
  lemma {:induction false} TrimWrapped(body: string)
    requires body != [] && IsDigit(body[0]) && IsDigit(body[|body| - 1])
    ensures TrimParens(TrimSpace("(" + body + ")")) == body
  {
    var s := "(" + body + ")";
    assert s[0] == '(' && s[|s| - 1] == ')';
    TrimSpaceKeeps(s);
    TrimParensKeeps(body);
  }

  /** An empty value holds no large community. */
  lemma {:induction false} ParseLargeCommunitiesEmpty()
    ensures ParseLargeCommunities("") == []
  {
    assert TrimSpace("") == "";
    assert TrimParens("") == "";
    IndexOfAbsent("", ") (");
    assert SplitOn("", ") (") == [""];
  }

  /** Parsing a printed, space-separated list of large communities gives back that list. */
  lemma {:induction false} ParseLargeCommunitiesRoundTrip(cs: seq<(nat, nat, nat)>)
    ensures ParseLargeCommunities(Join(FormatLargeCommunities(cs), " ")) == LargeCommunityValues(cs)
  {
    if cs == [] {
      ParseLargeCommunitiesEmpty();
      return;
    }
    var inners := LargeInners(cs);
    forall i | 0 <= i < |inners| ensures ')' !in inners[i] {
      LargeInnerShape(cs[i]);
    }
    TrimPrintedLarge(cs);
    SplitJoin(inners, ") (");
    LargeCommunitiesOfFormatted(cs);
  }

  // ---------------------------------------------------------------------------------------------
  // containsCommunity / containsLargeCommunity and the merge the collector applies

  /** route.go's `containsCommunity`: whether a two-number entry of `cs` equals the two-number `c`. */
  function ContainsCommunity(cs: seq<seq<int>>, c: seq<int>): (b: bool)
    ensures b <==> |c| == 2 && c in cs
  {
    if cs == [] then false
    else if |cs[0]| == 2 && |c| == 2 && cs[0][0] == c[0] && cs[0][1] == c[1] then
      assert cs[0] == c;
      true
    else ContainsCommunity(cs[1..], c)
  }

  /** route.go's `containsLargeCommunity`: the same for three-number entries. */
  function ContainsLargeCommunity(cs: seq<seq<int>>, c: seq<int>): (b: bool)
    ensures b <==> |c| == 3 && c in cs
  {
    if cs == [] then false
    else if |cs[0]| == 3 && |c| == 3 && cs[0][0] == c[0] && cs[0][1] == c[1] && cs[0][2] == c[2] then
      assert cs[0] == c;
      true
    else ContainsLargeCommunity(cs[1..], c)
  }

  /** The collector's loop over parsed communities: append each one the list does not hold yet. */
  function AddCommunities(existing: seq<seq<int>>, incoming: seq<seq<int>>): seq<seq<int>>
    decreases |incoming|
  {
    if incoming == [] then existing
    else
      var next := if ContainsCommunity(existing, incoming[0]) then existing else existing + [incoming[0]];
      AddCommunities(next, incoming[1..])
  }

  /** The collector's loop over parsed large communities. */
  function AddLargeCommunities(existing: seq<seq<int>>, incoming: seq<seq<int>>): seq<seq<int>>
    decreases |incoming|
  {
    if incoming == [] then existing
    else
      var next := if ContainsLargeCommunity(existing, incoming[0]) then existing else existing + [incoming[0]];
      AddLargeCommunities(next, incoming[1..])
  }

  /**
   * Merging keeps the existing list as a prefix, never introduces a duplicate, and holds exactly the
   * entries of both lists; the entries appended come from `incoming` in the order they first appear there.
   */
  lemma {:induction false} AddCommunitiesSpec(existing: seq<seq<int>>, incoming: seq<seq<int>>)
    requires NoDup(existing) && Width(existing, 2) && Width(incoming, 2)
    ensures var r := AddCommunities(existing, incoming);
      && |existing| <= |r| && r[..|existing|] == existing
      && NoDup(r) && Width(r, 2)
      && (forall c :: c in r <==> c in existing || c in incoming)
      && IsSubsequence(r[|existing|..], incoming)
      && FirstSeenOrder(r[|existing|..], incoming)
    decreases |incoming|
  {
    if incoming != [] {
      var c := incoming[0];
      var next := if ContainsCommunity(existing, c) then existing else existing + [c];
      assert NoDup(next) && Width(next, 2);
      AddCommunitiesSpec(next, incoming[1..]);
      var r := AddCommunities(next, incoming[1..]);
      assert r[..|existing|] == next[..|existing|] == existing;
      assert forall d :: d in incoming <==> d == c || d in incoming[1..];
      SubsequenceStep(r, existing, next, incoming);
      FirstSeenMergeStep(r, existing, next, incoming);
    }
  }

  lemma {:induction false} AddLargeCommunitiesSpec(existing: seq<seq<int>>, incoming: seq<seq<int>>)
    requires NoDup(existing) && Width(existing, 3) && Width(incoming, 3)
    ensures var r := AddLargeCommunities(existing, incoming);
      && |existing| <= |r| && r[..|existing|] == existing
      && NoDup(r) && Width(r, 3)
      && (forall c :: c in r <==> c in existing || c in incoming)
      && IsSubsequence(r[|existing|..], incoming)
      && FirstSeenOrder(r[|existing|..], incoming)
    decreases |incoming|
  {
    if incoming != [] {
      var c := incoming[0];
      var next := if ContainsLargeCommunity(existing, c) then existing else existing + [c];
      assert NoDup(next) && Width(next, 3);
      AddLargeCommunitiesSpec(next, incoming[1..]);
      var r := AddLargeCommunities(next, incoming[1..]);
      assert r[..|existing|] == next[..|existing|] == existing;
      assert forall d :: d in incoming <==> d == c || d in incoming[1..];
      SubsequenceStep(r, existing, next, incoming);
      FirstSeenMergeStep(r, existing, next, incoming);
    }
  }

  /** One step of the merge: the new tail after `next` is a subsequence of the rest of `incoming`. */
  lemma {:induction false} SubsequenceStep(r: seq<seq<int>>, existing: seq<seq<int>>, next: seq<seq<int>>, incoming: seq<seq<int>>)
    requires incoming != []
    requires next == existing || next == existing + [incoming[0]]
    requires |next| <= |r| && r[..|next|] == next
    requires IsSubsequence(r[|next|..], incoming[1..])
    ensures IsSubsequence(r[|existing|..], incoming)
  {
    if next == existing {
      SubsequenceSkip(r[|existing|..], incoming);
    } else {
      var t := r[|existing|..];
      assert t != [] && t[0] == incoming[0];
      assert t[1..] == r[|next|..];
    }
  }

  /** One step of the merge: the appended entries keep the order in which `incoming` first shows them. */
  lemma {:induction false} FirstSeenMergeStep(r: seq<seq<int>>, existing: seq<seq<int>>, next: seq<seq<int>>, incoming: seq<seq<int>>)
    requires incoming != [] && NoDup(r)
    requires next == existing || (next == existing + [incoming[0]] && incoming[0] !in existing)
    requires incoming[0] in next
    requires |next| <= |r| && r[..|next|] == next
    requires FirstSeenOrder(r[|next|..], incoming[1..])
    ensures FirstSeenOrder(r[|existing|..], incoming)
  {
    NoDupTail(r, next, incoming[0]);
    if next == existing {
      FirstSeenSkip(r[|existing|..], incoming);
    } else {
      var t := r[|existing|..];
      assert t == [incoming[0]] + r[|next|..];
      FirstSeenCons(r[|next|..], incoming);
    }
  }

  /** An entry of a duplicate-free list's prefix does not occur after it. */
  lemma {:induction false} NoDupTail(r: seq<seq<int>>, p: seq<seq<int>>, c: seq<int>)
    requires NoDup(r) && |p| <= |r| && r[..|p|] == p && c in p
    ensures c !in r[|p|..]
  {
  }

  /** Positions in `incoming[1..]` shift by one in `incoming` for entries other than its head. */
  lemma {:induction false} FirstSeenSkip(t: seq<seq<int>>, incoming: seq<seq<int>>)
    requires incoming != [] && incoming[0] !in t
    requires FirstSeenOrder(t, incoming[1..])
    ensures FirstSeenOrder(t, incoming)
  {
    forall i | 0 <= i < |t|
      ensures t[i] in incoming && FirstIndex(incoming, t[i]) == 1 + FirstIndex(incoming[1..], t[i])
    {
      assert t[i] != incoming[0];
    }
  }

  /** The head of `incoming` comes first in first-seen order. */
  lemma {:induction false} FirstSeenCons(t: seq<seq<int>>, incoming: seq<seq<int>>)
    requires incoming != [] && incoming[0] !in t
    requires FirstSeenOrder(t, incoming[1..])
    ensures FirstSeenOrder([incoming[0]] + t, incoming)
  {
    FirstSeenSkip(t, incoming);
    var u := [incoming[0]] + t;
    forall i | 1 <= i < |u|
      ensures u[i] == t[i - 1] && FirstIndex(incoming, u[i]) > 0
    {
      assert t[i - 1] != incoming[0];
    }
    assert FirstIndex(incoming, u[0]) == 0;
  }

  // ---------------------------------------------------------------------------------------------
  // parseASPath

  predicate IsNotDigit(c: char) {
    !IsDigit(c)
  }

  predicate HasDigit(t: string) {
    exists k | 0 <= k < |t| :: IsDigit(t[k])
  }

  /** The leftmost run of digits in a token: what an unanchored `(\d+)` captures. */
  function FirstDigitRun(t: string): (r: Option<string>)
    ensures r.None? <==> forall k | 0 <= k < |t| :: !IsDigit(t[k])
    ensures r.Some? ==> r.value != [] && AllDigits(r.value)
  {
    var a := Span(t, 0, IsNotDigit);
    if a == |t| then None else Some(t[a..Span(t, a, IsDigit)])
  }

  /** The AS number a token of an AS path stands for: the token as a signed integer, else its first digit run. */
  function AsnOfToken(t: string): (r: Option<int>)
    ensures r.Some? <==> HasDigit(t)
    ensures IsIntegerSyntax(t) ==> r == StrconvAtoi(t)
  {
    match StrconvAtoi(t)
    case Some(n) => Some(n)
    case None =>
      match FirstDigitRun(t)
      case Some(d) => StrconvAtoi(d)
      case None => None
  }

  function AsnsOf(tokens: seq<string>): seq<int> {
    if tokens == [] then []
    else
      var rest := AsnsOf(tokens[1..]);
      match AsnOfToken(tokens[0])
      case Some(n) => [n] + rest
      case None => rest
  }

  /** route.go's `parseASPath`: one AS number per whitespace-separated token holding a digit, in order. */
  function ParseASPath(s: string): seq<int> {
    AsnsOf(Fields(s))
  }

  /** Tokens without a digit are dropped, so the path is never longer than the token list. */
  lemma {:induction false} AsnsOfLength(tokens: seq<string>)
    ensures |AsnsOf(tokens)| <= |tokens|
  {
    if tokens != [] {
      AsnsOfLength(tokens[1..]);
    }
  }

  /** When every token holds a digit nothing is dropped: the i-th AS number comes from the i-th token. */
  lemma {:induction false} AsnsOfAligned(tokens: seq<string>)
    requires forall i | 0 <= i < |tokens| :: HasDigit(tokens[i])
    ensures |AsnsOf(tokens)| == |tokens|
    ensures forall i | 0 <= i < |tokens| :: AsnOfToken(tokens[i]) == Some(AsnsOf(tokens)[i])
  {
    if tokens != [] {
      AsnsOfAligned(tokens[1..]);
      assert forall i | 1 <= i < |tokens| :: tokens[i] == tokens[1..][i - 1];
    }
  }

  function DecimalStrings(asns: seq<nat>): (ts: seq<string>)
    ensures |ts| == |asns|
    ensures forall i | 0 <= i < |asns| :: ts[i] == DecimalString(asns[i])
  {
    if asns == [] then [] else [DecimalString(asns[0])] + DecimalStrings(asns[1..])
  }

  /** A printed AS path reads back as the same path: order and repeated (prepended) AS numbers are kept. */
  lemma {:induction false} ParseASPathRoundTrip(asns: seq<nat>)
    ensures ParseASPath(Join(DecimalStrings(asns), " ")) == asns
  {
    var ts := DecimalStrings(asns);
    forall i | 0 <= i < |ts|
      ensures ts[i] != [] && forall k | 0 <= k < |ts[i]| :: !IsSpace(ts[i][k])
      ensures HasDigit(ts[i])
    {
      assert IsDigit(ts[i][0]);
      assert forall k | 0 <= k < |ts[i]| :: IsDigit(ts[i][k]);
    }
    FieldsJoin(ts);
    AsnsOfAligned(ts);
    var r := ParseASPath(Join(ts, " "));
    forall i | 0 <= i < |asns| ensures r[i] == asns[i] {
      DigitsValueOfDecimal(asns[i]);
    }
  }

  /** A decorated token such as `{64512}` or `65000+` stands for its first run of digits. */
  lemma {:induction false} AsnOfDecoratedToken(t: string, d: string)
    requires !IsIntegerSyntax(t) && FirstDigitRun(t) == Some(d)
    ensures AsnOfToken(t) == Some(DigitsValue(d))
  {
  }
}
