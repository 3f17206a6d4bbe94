/**
 * Recognisers for the lines of a `show protocols all` dump (bgp_protocol.go): the BGP header line and
 * the indented `Label:  value` lines, tried in the source's order so that the first pattern that
 * matches decides what a line is.
 */
module BgpProtocolLines {
  import opened Wrappers
  import opened Text
  import opened Util
  import opened BgpProtocolModel

  // ---------------------------------------------------------------------------------------------
  // The header line

  /** `[-\w]`: a table name in the header. */
  predicate IsTableChar(c: char) {
    IsWordChar(c) || c == '-'
  }

  predicate IsDot(c: char) {
    c == '.'
  }

  /** `[-\w]+|\.{3,}|-+` at `i`: where it ends. A dash run is already a `[-\w]` run, so the third choice adds nothing. */
  function MatchHeaderTable(s: string, i: nat): (r: Option<nat>)
    requires i <= |s|
    ensures r.Some? ==> i < r.value <= |s|
  {
    if i < |s| && IsTableChar(s[i]) then Some(Span(s, i, IsTableChar))
    else if Span(s, i, IsDot) >= i + 3 then Some(Span(s, i, IsDot))
    else None
  }

  /** `[0-9]{4}-[0-9]{2}-[0-9]{2}|[0-9]{1,2}:[0-9]{1,2}:[0-9]{1,2}(\.[0-9]{1,3})?` at `i`, taken as long as the engine takes it. */
  function MatchHeaderStamp(s: string, i: nat): (r: Option<nat>)
    requires i <= |s|
    ensures r.Some? ==> i < r.value <= |s|
  {
    match MatchHeaderDate(s, i)
    case Some(j) => Some(j)
    case None =>
      var a :- UpTo(s, i, IsDigit, 2);
      var b :- Literal(s, a, ":");
      var c :- UpTo(s, b, IsDigit, 2);
      var d :- Literal(s, c, ":");
      var e :- UpTo(s, d, IsDigit, 2);
      if e + 1 < |s| && s[e] == '.' && IsDigit(s[e + 1]) then UpTo(s, e + 1, IsDigit, 3) else Some(e)
  }

  function MatchHeaderDate(s: string, i: nat): (r: Option<nat>)
    requires i <= |s|
    ensures r.Some? ==> r.value == i + 10 && r.value <= |s|
  {
    var a :- Exactly(s, i, IsDigit, 4);
    var b :- Literal(s, a, "-");
    var c :- Exactly(s, b, IsDigit, 2);
    var d :- Literal(s, c, "-");
    Exactly(s, d, IsDigit, 2)
  }

  /**
   * One piece of the header pattern. Each piece is matched as long as it goes: in this pattern what
   * follows a piece can never continue it, so the engine would not backtrack into it.
   */
  datatype Piece =
    | OneOrMore(p: char -> bool, capture: bool)   // `X+`, a group when `capture`
    | ZeroOrMore(p: char -> bool)                 // `X*`
    | Text(lit: string)                           // literal text
    | TableName                                   // `([-\w]+|\.{3,}|-+)`
    | Stamp                                       // the date or time the state changed
    | RestOfLine                                  // `(.*)$`

  predicate Captures(piece: Piece) {
    (piece.OneOrMore? && piece.capture) || piece.TableName? || piece.RestOfLine?
  }

  /** Where `piece` ends when it starts at `i`. */
  function MatchPiece(s: string, i: nat, piece: Piece): (r: Option<nat>)
    requires i <= |s|
    ensures r.Some? ==> i <= r.value <= |s|
    ensures r.Some? && piece.OneOrMore? ==> i < r.value && forall k | i <= k < r.value :: piece.p(s[k])
    ensures r.Some? && piece.Text? ==> s[i..r.value] == piece.lit
    ensures r.Some? && piece.TableName? ==> i < r.value
    ensures r.Some? && piece.RestOfLine? ==> r.value == |s| && NoNewline(s[i..])
  {
    match piece
    case OneOrMore(p, _) => RunOf(s, i, p)
    case ZeroOrMore(p) => Some(Span(s, i, p))
    case Text(lit) => Literal(s, i, lit)
    case TableName => MatchHeaderTable(s, i)
    case Stamp => MatchHeaderStamp(s, i)
    case RestOfLine => if NoNewline(s[i..]) then Some(|s|) else None
  }

  function CaptureCount(pieces: seq<Piece>): nat {
    if pieces == [] then 0 else (if Captures(pieces[0]) then 1 else 0) + CaptureCount(pieces[1..])
  }

  /** The pieces matched one after the other from `i`: the text of each group, in order. */
  function MatchPieces(s: string, i: nat, pieces: seq<Piece>): (r: Option<seq<string>>)
    requires i <= |s|
    ensures r.Some? ==> |r.value| == CaptureCount(pieces)
    decreases |pieces|
  {
    if pieces == [] then Some([])
    else
      var j :- MatchPiece(s, i, pieces[0]);
      var groups :- MatchPieces(s, j, pieces[1..]);
      Some((if Captures(pieces[0]) then [s[i..j]] else []) + groups)
  }

  /** `^(\S+)\s+BGP\s+([-\w]+|\.{3,}|-+)\s+(\w+)\s+(DATE|TIME)\s*(.*)$`. */
  const HeaderPattern: seq<Piece> := [
    OneOrMore(IsRegexNonSpace, true), OneOrMore(IsRegexSpace, false), Text("BGP"), OneOrMore(IsRegexSpace, false),
    TableName, OneOrMore(IsRegexSpace, false), OneOrMore(IsWordChar, true), OneOrMore(IsRegexSpace, false),
    Stamp, ZeroOrMore(IsRegexSpace), RestOfLine]

  lemma {:induction false} CaptureCountCons(p: Piece, rest: seq<Piece>)
    ensures CaptureCount([p] + rest) == (if Captures(p) then 1 else 0) + CaptureCount(rest)
  {
    assert ([p] + rest)[1..] == rest;
  }

  /** The pieces from the table name on: the table and the state are groups, and so is the rest of the line. */
  lemma {:induction false} HeaderTailGroups()
    ensures CaptureCount(HeaderPattern[4..]) == 3
  {
    var space := OneOrMore(IsRegexSpace, false);
    var p10 := [RestOfLine];
    var p9 := [ZeroOrMore(IsRegexSpace)] + p10;
    var p8 := [Stamp] + p9;
    var p7 := [space] + p8;
    var p6 := [OneOrMore(IsWordChar, true)] + p7;
    var p5 := [space] + p6;
    var p4 := [TableName] + p5;
    CaptureCountCons(RestOfLine, []);
    CaptureCountCons(ZeroOrMore(IsRegexSpace), p10);
    CaptureCountCons(Stamp, p9);
    CaptureCountCons(space, p8);
    CaptureCountCons(OneOrMore(IsWordChar, true), p7);
    CaptureCountCons(space, p6);
    CaptureCountCons(TableName, p5);
    assert HeaderPattern[4..] == p4;
  }

  /** The header pattern has four groups: the name, the table, the state and the rest. */
  lemma {:induction false} HeaderGroupCount()
    ensures CaptureCount(HeaderPattern) == 4
  {
    var space := OneOrMore(IsRegexSpace, false);
    var p4 := HeaderPattern[4..];
    var p3 := [space] + p4;
    var p2 := [Text("BGP")] + p3;
    var p1 := [space] + p2;
    var p0 := [OneOrMore(IsRegexNonSpace, true)] + p1;
    HeaderTailGroups();
    CaptureCountCons(space, p4);
    CaptureCountCons(Text("BGP"), p3);
    CaptureCountCons(space, p2);
    CaptureCountCons(OneOrMore(IsRegexNonSpace, true), p1);
    assert HeaderPattern == p0;
  }

  /** A header starts with its non-empty name, which holds no space, and the word `BGP` follows. */
  lemma {:induction false} HeaderStart(line: string)
    requires MatchPieces(line, 0, HeaderPattern).Some?
    ensures line != [] && IsRegexNonSpace(line[0]) && 'B' in line
    ensures var groups := MatchPieces(line, 0, HeaderPattern).value; groups != [] && groups[0] != []
  {
    var P := HeaderPattern;
    var a := MatchPiece(line, 0, P[0]).value;
    assert P[1..][0] == OneOrMore(IsRegexSpace, false) && P[1..][1..][0] == Text("BGP");
    var b := MatchPiece(line, a, P[1..][0]).value;
    assert MatchPieces(line, b, P[1..][1..]).Some?;
    var c := MatchPiece(line, b, P[1..][1..][0]).value;
    assert line[b..c] == "BGP";
    assert line[b] == 'B';
  }

  /** The groups of a header line: the protocol name, the table, the state and what follows the stamp. */
  datatype HeaderMatch = HeaderMatch(protocol: string, table: string, state: string, rest: string)

  /** The header of a BGP protocol block: `NAME  BGP  TABLE  STATE  STAMP  INFO`. */
  function MatchHeader(line: string): (r: Option<HeaderMatch>)
    ensures r.Some? ==> line != [] && IsRegexNonSpace(line[0])
    ensures r.Some? ==> r.value.protocol != [] && 'B' in line
  {
    var groups :- MatchPieces(line, 0, HeaderPattern);
    HeaderGroupCount();
    HeaderStart(line);
    Some(HeaderMatch(groups[0], groups[1], groups[2], groups[3]))
  }

  /** bgp_protocol.go's `isBGPHeaderLine`. */
  predicate IsBGPHeaderLine(line: string) {
    MatchHeader(line).Some?
  }

  /** A header starts with a non-space character and holds `BGP`, so an indented line or a blank line is never one. */
  lemma {:induction false} HeaderShape(line: string)
    ensures IsBGPHeaderLine(line) ==> line != [] && !IsRegexSpace(line[0]) && TrimSpace(line) != []
  {
    if IsBGPHeaderLine(line) {
      var k :| 0 <= k < |line| && line[k] == 'B';
      assert !IsSpace(line[k]);
    }
  }

  // ---------------------------------------------------------------------------------------------
  // The field lines: `^\s+LABEL\s+VALUE`

  /** `^\s+TAG\s+` at the start of `line`: the position after the spaces that follow the tag. */
  function AfterTag(line: string, tag: string): (r: Option<nat>)
    ensures r.Some? ==> 0 < r.value <= |line| && IsRegexSpace(line[0])
  {
    var a :- RunOf(line, 0, IsRegexSpace);
    var b :- Literal(line, a, tag);
    RunOf(line, b, IsRegexSpace)
  }

  /** `^\s+TAG\s+(.*)$`: the value after the tag and the longest run of spaces. */
  function FieldText(line: string, tag: string): (r: Option<string>)
    ensures r.Some? ==> NoNewline(r.value) && (r.value == [] || !IsRegexSpace(r.value[0]))
  {
    var p :- AfterTag(line, tag);
    if NoNewline(line[p..]) then Some(line[p..]) else None
  }

  /** `^\s+TAG\s+(\d+)$`. */
  function FieldDigits(line: string, tag: string): (r: Option<string>)
    ensures r.Some? ==> r.value != [] && AllDigits(r.value)
  {
    var v :- FieldText(line, tag);
    if v != [] && AllDigits(v) then Some(v) else None
  }

  /** `^\s+TAG\s+([^\s]+)$`. */
  function FieldToken(line: string, tag: string): (r: Option<string>)
    ensures r.Some? ==> r.value != [] && forall k | 0 <= k < |r.value| :: IsRegexNonSpace(r.value[k])
  {
    var v :- FieldText(line, tag);
    if v != [] && forall k | 0 <= k < |v| :: IsRegexNonSpace(v[k]) then Some(v) else None
  }

  /** `^\s+TAG\s+(\w+)$`. */
  function FieldWord(line: string, tag: string): (r: Option<string>)
    ensures r.Some? ==> r.value != [] && forall k | 0 <= k < |r.value| :: IsWordChar(r.value[k])
  {
    var v :- FieldText(line, tag);
    if v != [] && forall k | 0 <= k < |v| :: IsWordChar(v[k]) then Some(v) else None
  }

  predicate IsDigitOrDot(c: char) {
    IsDigit(c) || c == '.'
  }

  /** `^\s+TAG\s+(\d+)/(\d+)$` or, for timers, `^\s+TAG\s+([\d.]+)/([\d.]+)$`: the two halves. */
  function FieldPair(line: string, tag: string, part: char -> bool): (r: Option<(string, string)>)
    ensures r.Some? ==> r.value.0 != [] && r.value.1 != []
    ensures r.Some? ==> (forall k | 0 <= k < |r.value.0| :: part(r.value.0[k]))
                        && (forall k | 0 <= k < |r.value.1| :: part(r.value.1[k]))
  {
    var p :- AfterTag(line, tag);
    var a :- RunOf(line, p, part);
    var b :- Literal(line, a, "/");
    var c :- RunOf(line, b, part);
    if c == |line| then Some((line[p..a], line[b..c])) else None
  }

  /** A counter followed by spaces and a word, as in `0 filtered,`: the counter and where the word ends. */
  function CounterThen(line: string, i: nat, word: string): (r: Option<(string, nat)>)
    requires i <= |line|
    ensures r.Some? ==> r.value.0 != [] && AllDigits(r.value.0) && i < r.value.1 <= |line|
  {
    var a :- RunOf(line, i, IsDigit);
    assert forall k | 0 <= k < a - i :: line[i..a][k] == line[i + k];
    var b :- RunOf(line, a, IsRegexSpace);
    var c :- Literal(line, b, word);
    Some((line[i..a], c))
  }

  /** `(\d+)\s+W1\s+(\d+)\s+W2 ...` for the words `words`, not anchored at the end: the counters in order. */
  function Counters(line: string, i: nat, words: seq<string>): (r: Option<seq<string>>)
    requires i <= |line|
    ensures r.Some? ==> |r.value| == |words| && forall k | 0 <= k < |words| :: r.value[k] != [] && AllDigits(r.value[k])
    decreases |words|
  {
    if words == [] then Some([])
    else
      var c :- CounterThen(line, i, words[0]);
      if |words| == 1 then Some([c.0])
      else
        var a :- RunOf(line, c.1, IsRegexSpace);
        var rest :- Counters(line, a, words[1..]);
        Some([c.0] + rest)
  }

  /** `^\s+Routes:\s+(\d+)\s+imported,\s+(\d+)\s+exported`, which need not reach the end of the line. */
  function MatchRoutesShort(line: string): (r: Option<seq<string>>)
    ensures r.Some? ==> |r.value| == 2 && forall k | 0 <= k < 2 :: r.value[k] != [] && AllDigits(r.value[k])
  {
    var p :- AfterTag(line, "Routes:");
    Counters(line, p, ["imported,", "exported"])
  }

  /** `^\s+Routes:\s+(\d+)\s+imported,\s+(\d+)\s+filtered,\s+(\d+)\s+exported,\s+(\d+)\s+preferred`. */
  function MatchRoutesFull(line: string): (r: Option<seq<string>>)
    ensures r.Some? ==> |r.value| == 4 && forall k | 0 <= k < 4 :: r.value[k] != [] && AllDigits(r.value[k])
  {
    var p :- AfterTag(line, "Routes:");
    Counters(line, p, ["imported,", "filtered,", "exported,", "preferred"])
  }

  // ---------------------------------------------------------------------------------------------
  // Route change statistics

  predicate IsDash(c: char) {
    c == '-'
  }

  /** A placeholder column: two or more dashes. */
  predicate IsPlaceholder(col: string) {
    |col| >= 2 && forall k | 0 <= k < |col| :: col[k] == '-'
  }

  /** A column of the statistics: digits, or also a placeholder where the pattern allows one. */
  predicate IsColumn(col: string, placeholders: bool) {
    (col != [] && AllDigits(col)) || (placeholders && IsPlaceholder(col))
  }

  /** `\d+`, or `\d+|--+` where placeholders are allowed, at `i`: where the column ends. */
  function MatchColumn(s: string, i: nat, placeholders: bool): (r: Option<nat>)
    requires i <= |s|
    ensures r.Some? ==> i < r.value <= |s| && IsColumn(s[i..r.value], placeholders)
  {
    if i < |s| && IsDigit(s[i]) then
      var e := Span(s, i, IsDigit);
      assert forall k | 0 <= k < e - i :: s[i..e][k] == s[i + k];
      Some(e)
    else if placeholders && i + 1 < |s| && s[i] == '-' && s[i + 1] == '-' then
      var e := Span(s, i, IsDash);
      assert forall k | 0 <= k < e - i :: s[i..e][k] == s[i + k];
      Some(e)
    else None
  }

  /** `count` more columns, each after a run of spaces, the last one ending the line. */
  function ColumnsFrom(s: string, i: nat, count: nat, placeholders: bool): (r: Option<seq<string>>)
    requires i <= |s|
    ensures r.Some? ==> |r.value| == count && forall k | 0 <= k < count :: IsColumn(r.value[k], placeholders)
    decreases count
  {
    if count == 0 then (if i == |s| then Some([]) else None)
    else
      var w :- RunOf(s, i, IsRegexSpace);
      var e :- MatchColumn(s, w, placeholders);
      var rest :- ColumnsFrom(s, e, count - 1, placeholders);
      Some([s[w..e]] + rest)
  }

  /**
   * `^\s+TAG\s+(\d+)\s+C\s+C\s+C\s+C$` where C is `\d+`, or `(\d+|--+)` when placeholders are allowed:
   * the five columns received, rejected, filtered, ignored and accepted.
   */
  function MatchChangeLine(line: string, tag: string, placeholders: bool): (r: Option<seq<string>>)
    ensures r.Some? ==> |r.value| == 5 && r.value[0] != [] && AllDigits(r.value[0])
    ensures r.Some? ==> forall k | 0 <= k < 5 :: IsColumn(r.value[k], placeholders)
  {
    var p :- AfterTag(line, tag);
    var e :- RunOf(line, p, IsDigit);
    assert forall k | 0 <= k < e - p :: line[p..e][k] == line[p + k];
    var rest :- ColumnsFrom(line, e, 4, placeholders);
    Some([line[p..e]] + rest)
  }

  /** A column's count: `parseOptionalInt`, so a placeholder counts as 0. */
  function ColumnValue(col: string): int {
    ParseOptionalInt(col)
  }

  /** The five columns of a change line. */
  type Row = cols: seq<string> | |cols| == 5 witness ["0", "0", "0", "0", "0"]

  /** The row a change line describes. */
  function ChangeDetail(cols: Row): BgpProtocolRouteChangeDetail
  {
    BgpProtocolRouteChangeDetail(
      ColumnValue(cols[0]), ColumnValue(cols[1]), ColumnValue(cols[2]), ColumnValue(cols[3]), ColumnValue(cols[4]))
  }

  /** Each column counts as the number its digits denote, and a placeholder as 0. */
  lemma {:induction false} ColumnValueSpec(col: string, placeholders: bool)
    requires IsColumn(col, placeholders)
    ensures IsPlaceholder(col) ==> ColumnValue(col) == 0
    ensures !IsPlaceholder(col) ==> AllDigits(col) && ColumnValue(col) == DigitsValue(col)
  {
    if IsPlaceholder(col) {
      assert col[0] == '-';
      ParseOptionalIntDash(col);
    } else {
      assert '-' !in col by {
        assert forall k | 0 <= k < |col| :: IsDigit(col[k]);
      }
      ParseOptionalIntNoDash(col);
      AtoiOfDigits(col);
    }
  }

  /** The row `7473 0 --- 6616 857` counts 7473, 0, 0, 6616 and 857. */
  lemma {:induction false} ChangeDetailExample()
    ensures ChangeDetail(["7473", "0", "---", "6616", "857"]) == BgpProtocolRouteChangeDetail(7473, 0, 0, 6616, 857)
  {
    assert DecimalString(7473) == "7473" by {
      assert DecimalString(7) == "7";
      assert DecimalString(74) == "74";
      assert DecimalString(747) == "747";
    }
    assert DecimalString(6616) == "6616" by {
      assert DecimalString(6) == "6";
      assert DecimalString(66) == "66";
      assert DecimalString(661) == "661";
    }
    assert DecimalString(857) == "857" by {
      assert DecimalString(8) == "8";
      assert DecimalString(85) == "85";
    }
    assert DecimalString(0) == "0";
    ParseOptionalIntOfDecimal(7473);
    ParseOptionalIntOfDecimal(0);
    ParseOptionalIntPlaceholder();
    ParseOptionalIntOfDecimal(6616);
    ParseOptionalIntOfDecimal(857);
  }

  // ---------------------------------------------------------------------------------------------
  // Classification, first match first

  /** The four rows of the route change statistics. */
  datatype ChangeKind = ImportUpdates | ImportWithdraws | ExportUpdates | ExportWithdraws

  /** Only the `Import updates` row insists on digits in every column. */
  predicate AllowsPlaceholders(kind: ChangeKind) {
    kind != ImportUpdates
  }

  /** What a line of a protocol block is, with the text its pattern captured. */
  datatype ProtocolLine =
    | Header(protocol: string, table: string, state: string, connection: string)
    | DescriptionLine(text: string)
    | TableLine(table: string)
    | PreferenceLine(value: string)
    | InputFilterLine(name: string)
    | OutputFilterLine(name: string)
    | ImportLimitLine(value: string)
    | ActionLine(action: string)
    | RoutesLine(imported: string, exported: string)
    | RoutesFullLine(imported: string, filtered: string, exported: string, preferred: string)
    | BgpStateLine(state: string)
    | NeighborAddressLine(address: string)
    | NeighborASLine(asn: string)
    | NeighborIDLine(id: string)
    | SessionLine(text: string)
    | SourceAddressLine(address: string)
    | RouteLimitLine(at: string, limit: string)
    | HoldTimerLine(now: string, limit: string)
    | KeepaliveTimerLine(now: string, limit: string)
    | ChangeLine(kind: ChangeKind, columns: Row)
    | OtherLine

  /** The field patterns of `ParseBGPProtocol`'s loop. */
  datatype FieldPattern =
    | DescriptionField | TableField | PreferenceField | InputFilterField | OutputFilterField | ImportLimitField
    | ActionField | RoutesField | RoutesFullField | BgpStateField | NeighborAddressField | NeighborASField
    | NeighborIDField | SessionField | SourceAddressField | RouteLimitField | HoldTimerField | KeepaliveTimerField
    | ChangeField(kind: ChangeKind)

  /** The order in which the loop tries the field patterns, after the header. */
  const FieldOrder: seq<FieldPattern> := [
    DescriptionField, TableField, PreferenceField, InputFilterField, OutputFilterField, ImportLimitField,
    ActionField, RoutesField, RoutesFullField, BgpStateField, NeighborAddressField, NeighborASField,
    NeighborIDField, SessionField, SourceAddressField, RouteLimitField, HoldTimerField, KeepaliveTimerField,
    ChangeField(ImportUpdates), ChangeField(ImportWithdraws), ChangeField(ExportUpdates), ChangeField(ExportWithdraws)]

  function ChangeTag(kind: ChangeKind): string {
    match kind
    case ImportUpdates => "Import updates:"
    case ImportWithdraws => "Import withdraws:"
    case ExportUpdates => "Export updates:"
    case ExportWithdraws => "Export withdraws:"
  }

  /** One field pattern applied to a line: what it captured, if it matched. */
  function TryField(line: string, f: FieldPattern): (r: Option<ProtocolLine>)
    ensures r.Some? ==> !r.value.Header? && !r.value.OtherLine?
    ensures r.Some? && r.value.ChangeLine? ==>
              f == ChangeField(r.value.kind) && forall k | 0 <= k < 5 :: IsColumn(r.value.columns[k], AllowsPlaceholders(r.value.kind))
  {
    match f
    case DescriptionField => var v :- FieldText(line, "Description:"); Some(DescriptionLine(v))
    case TableField => var v :- FieldText(line, "Table:"); Some(TableLine(v))
    case PreferenceField => var v :- FieldDigits(line, "Preference:"); Some(PreferenceLine(v))
    case InputFilterField => var v :- FieldToken(line, "Input filter:"); Some(InputFilterLine(v))
    case OutputFilterField => var v :- FieldToken(line, "Output filter:"); Some(OutputFilterLine(v))
    case ImportLimitField => var v :- FieldDigits(line, "Import limit:"); Some(ImportLimitLine(v))
    case ActionField => var v :- FieldWord(line, "Action:"); Some(ActionLine(v))
    case RoutesField => var v :- MatchRoutesShort(line); Some(RoutesLine(v[0], v[1]))
    case RoutesFullField => var v :- MatchRoutesFull(line); Some(RoutesFullLine(v[0], v[1], v[2], v[3]))
    case BgpStateField => var v :- FieldWord(line, "BGP state:"); Some(BgpStateLine(v))
    case NeighborAddressField => var v :- FieldToken(line, "Neighbor address:"); Some(NeighborAddressLine(v))
    case NeighborASField => var v :- FieldDigits(line, "Neighbor AS:"); Some(NeighborASLine(v))
    case NeighborIDField => var v :- FieldToken(line, "Neighbor ID:"); Some(NeighborIDLine(v))
    case SessionField => var v :- FieldText(line, "Session:"); Some(SessionLine(v))
    case SourceAddressField => var v :- FieldToken(line, "Source address:"); Some(SourceAddressLine(v))
    case RouteLimitField => var v :- FieldPair(line, "Route limit:", IsDigit); Some(RouteLimitLine(v.0, v.1))
    case HoldTimerField => var v :- FieldPair(line, "Hold timer:", IsDigitOrDot); Some(HoldTimerLine(v.0, v.1))
    case KeepaliveTimerField => var v :- FieldPair(line, "Keepalive timer:", IsDigitOrDot); Some(KeepaliveTimerLine(v.0, v.1))
    case ChangeField(kind) => var v :- MatchChangeLine(line, ChangeTag(kind), AllowsPlaceholders(kind)); Some(ChangeLine(kind, v))
  }

  /** The value `f` gives the first entry of `xs` it gives one for. */
  function FirstSome<T, U>(xs: seq<T>, f: T -> Option<U>): (r: Option<U>)
    ensures r.Some? ==> exists k | 0 <= k < |xs| :: f(xs[k]) == r
    decreases |xs|
  {
    if xs == [] then None
    else
      match f(xs[0])
      case Some(u) => Some(u)
      case None => FirstSome(xs[1..], f)
  }

  lemma {:induction false} FirstSomeWins<T, U>(xs: seq<T>, f: T -> Option<U>, k: nat)
    requires k < |xs| && f(xs[k]).Some?
    requires forall j | 0 <= j < k :: f(xs[j]).None?
    ensures FirstSome(xs, f) == f(xs[k])
    decreases k
  {
    if k > 0 {
      assert f(xs[0]).None?;
      assert forall j | 0 <= j < k - 1 :: xs[1..][j] == xs[j + 1];
      FirstSomeWins(xs[1..], f, k - 1);
    }
  }

  lemma {:induction false} FirstSomeNone<T, U>(xs: seq<T>, f: T -> Option<U>)
    requires forall j | 0 <= j < |xs| :: f(xs[j]).None?
    ensures FirstSome(xs, f) == None
    decreases |xs|
  {
    if xs != [] {
      assert forall j | 0 <= j < |xs| - 1 :: xs[1..][j] == xs[j + 1];
      FirstSomeNone(xs[1..], f);
    }
  }

  /** The line the first matching pattern of `fields` reads, or `OtherLine` when none matches. */
  function FirstField(line: string, fields: seq<FieldPattern>): (l: ProtocolLine)
    ensures !l.Header?
    ensures l.ChangeLine? ==> forall k | 0 <= k < 5 :: IsColumn(l.columns[k], AllowsPlaceholders(l.kind))
  {
    match FirstSome(fields, (f: FieldPattern) => TryField(line, f))
    case Some(l) => l
    case None => OtherLine
  }

  /** The patterns of `ParseBGPProtocol`'s loop, in its order: the header first, then the fields. */
  function ClassifyLine(line: string): (l: ProtocolLine)
    ensures l.ChangeLine? ==> forall k | 0 <= k < 5 :: IsColumn(l.columns[k], AllowsPlaceholders(l.kind))
  {
    match MatchHeader(line)
    case Some(h) => Header(h.protocol, h.table, h.state, TrimSpace(h.rest))
    case None => FirstField(line, FieldOrder)
  }

  /** The first pattern that matches wins: patterns before it did not match, and later ones are not tried. */
  lemma {:induction false} FirstMatchWins(line: string, fields: seq<FieldPattern>, k: nat)
    requires k < |fields| && TryField(line, fields[k]).Some?
    requires forall j | 0 <= j < k :: TryField(line, fields[j]).None?
    ensures FirstField(line, fields) == TryField(line, fields[k]).value
  {
    FirstSomeWins(fields, (f: FieldPattern) => TryField(line, f), k);
  }

  /** A line no pattern matches changes nothing. */
  lemma {:induction false} NoMatchIgnored(line: string, fields: seq<FieldPattern>)
    requires forall j | 0 <= j < |fields| :: TryField(line, fields[j]).None?
    ensures FirstField(line, fields) == OtherLine
  {
    FirstSomeNone(fields, (f: FieldPattern) => TryField(line, f));
  }

  /** A header line is classified as a header, whatever else it would match. */
  lemma {:induction false} HeaderFirst(line: string)
    requires IsBGPHeaderLine(line)
    ensures ClassifyLine(line).Header?
  {
  }

  /** Only a header line is classified as one, so the protocol name, state and connection come only from headers. */
  lemma {:induction false} OnlyHeadersAreHeaders(line: string)
    ensures ClassifyLine(line).Header? <==> IsBGPHeaderLine(line)
  {
  }

  /**
   * Each column of a change row counts as the number its digits denote, and a placeholder as 0;
   * a placeholder never appears in an `Import updates` row.
   */
  lemma {:induction false} ChangeRowValues(line: string)
    requires ClassifyLine(line).ChangeLine?
    ensures var l := ClassifyLine(line);
      forall k | 0 <= k < 5 ::
        && (IsPlaceholder(l.columns[k]) ==> l.kind != ImportUpdates && ColumnValue(l.columns[k]) == 0)
        && (!IsPlaceholder(l.columns[k]) ==> AllDigits(l.columns[k]) && ColumnValue(l.columns[k]) == DigitsValue(l.columns[k]))
        && ColumnValue(l.columns[k]) >= 0
  {
    var l := ClassifyLine(line);
    forall k | 0 <= k < 5
      ensures IsPlaceholder(l.columns[k]) ==> l.kind != ImportUpdates && ColumnValue(l.columns[k]) == 0
      ensures !IsPlaceholder(l.columns[k]) ==> AllDigits(l.columns[k]) && ColumnValue(l.columns[k]) == DigitsValue(l.columns[k])
    {
      var col := l.columns[k];
      ColumnValueSpec(col, AllowsPlaceholders(l.kind));
      if IsPlaceholder(col) {
        assert !IsDigit(col[0]);
      }
    }
  }
}
