/**
 * Recognisers for the lines of a route dump (route.go). Each pattern of the source is written out as a
 * scan that returns the same capture groups: every greedy repetition in these patterns is followed by
 * something that cannot continue it, so it takes the longest run, and the time stamp's bounded
 * repetitions are taken greedily as the engine would.
 */
module RouteLines {
  import opened Wrappers
  import opened Text

  // ---------------------------------------------------------------------------------------------
  // Character classes of the route patterns

  /** `[0-9a-f.:/]`: a network or a `from` address. */
  predicate IsNetworkChar(c: char) {
    IsDigit(c) || ('a' <= c <= 'f') || c == '.' || c == ':' || c == '/'
  }

  /** `[0-9a-f.:]`: a gateway or next-hop address. */
  predicate IsAddressChar(c: char) {
    IsDigit(c) || ('a' <= c <= 'f') || c == '.' || c == ':'
  }

  /** `[a-zA-Z0-9_.\-/]`: an interface name. */
  predicate IsInterfaceChar(c: char) {
    ('a' <= c <= 'z') || ('A' <= c <= 'Z') || IsDigit(c) || c == '_' || c == '.' || c == '-' || c == '/'
  }

  // ---------------------------------------------------------------------------------------------
  // Pieces of the route-line pattern

  /** `via\s+ADDRESS\s+on\s+INTERFACE` at `i`: where it ends, the address and the interface. */
  function MatchVia(s: string, i: nat): (r: Option<(nat, string, string)>)
    requires i <= |s|
    ensures r.Some? ==> i < r.value.0 <= |s| && r.value.1 != [] && r.value.2 != []
  {
    var a :- Literal(s, i, "via");
    var b :- RunOf(s, a, IsRegexSpace);
    var c :- RunOf(s, b, IsAddressChar);
    var d :- RunOf(s, c, IsRegexSpace);
    var e :- Literal(s, d, "on");
    var f :- RunOf(s, e, IsRegexSpace);
    var g :- RunOf(s, f, IsInterfaceChar);
    Some((g, s[b..c], s[f..g]))
  }

  /** `[0-9]{4}-[0-9]{1,2}-[0-9]{1,2}` at `i`. */
  function MatchRouteDate(s: string, i: nat): (r: Option<nat>)
    requires i <= |s|
    ensures r.Some? ==> i < r.value <= |s|
  {
    var a :- Exactly(s, i, IsDigit, 4);
    var b :- Literal(s, a, "-");
    var c :- UpTo(s, b, IsDigit, 2);
    var d :- Literal(s, c, "-");
    UpTo(s, d, IsDigit, 2)
  }

  /** `[0-9]{1,2}:[0-9]{1,2}:[0-9]{1,2}(\.[0-9]+)?` at `i`. */
  function MatchRouteTime(s: string, i: nat): (r: Option<nat>)
    requires i <= |s|
    ensures r.Some? ==> i < r.value <= |s|
  {
    var a :- UpTo(s, i, IsDigit, 2);
    var b :- Literal(s, a, ":");
    var c :- UpTo(s, b, IsDigit, 2);
    var d :- Literal(s, c, ":");
    var e :- UpTo(s, d, IsDigit, 2);
    if e + 1 < |s| && s[e] == '.' && IsDigit(s[e + 1]) then Some(Span(s, e + 1, IsDigit)) else Some(e)
  }

  /** The stamp of a route line: a date, or else a time of day. */
  function MatchRouteStamp(s: string, i: nat): (r: Option<nat>)
    requires i <= |s|
    ensures r.Some? ==> i < r.value <= |s|
  {
    match MatchRouteDate(s, i)
    case Some(j) => Some(j)
    case None => MatchRouteTime(s, i)
  }

  /** `(\s+from\s+ADDRESS)?]` at `i`: where it ends and the address, "" when there is none. */
  function MatchFromClause(s: string, i: nat): (r: Option<(nat, string)>)
    requires i <= |s|
    ensures r.Some? ==> i < r.value.0 <= |s|
  {
    if i < |s| && s[i] == ']' then Some((i + 1, ""))
    else
      var a :- RunOf(s, i, IsRegexSpace);
      var b :- Literal(s, a, "from");
      var c :- RunOf(s, b, IsRegexSpace);
      var d :- RunOf(s, c, IsNetworkChar);
      var e :- Literal(s, d, "]");
      Some((e, s[c..d]))
  }

  /** `(\s+(\*))?\s+\((\d+)(/(-?\d+))?\).*$` at `i`: the star, the metric and the IGP metric. */
  function MatchMetricTail(s: string, i: nat): (r: Option<(string, string, string)>)
    requires i <= |s|
    ensures r.Some? ==> r.value.0 in {"", "*"} && r.value.1 != [] && AllDigits(r.value.1)
  {
    var a :- RunOf(s, i, IsRegexSpace);
    var star := if a < |s| && s[a] == '*' then "*" else "";
    var b := if star == "*" then a + 1 else i;
    var c :- RunOf(s, b, IsRegexSpace);
    var d :- Literal(s, c, "(");
    var m :- MatchMetrics(s, d);
    Some((star, m.0, m.1))
  }

  /** `(\d+)(/(-?\d+))?\).*$` at `d`: the metric and the IGP metric. */
  function MatchMetrics(s: string, d: nat): (r: Option<(string, string)>)
    requires d <= |s|
    ensures r.Some? ==> r.value.0 != [] && AllDigits(r.value.0)
  {
    var e :- RunOf(s, d, IsDigit);
    if e < |s| && s[e] == '/' then
      var f := if e + 1 < |s| && s[e + 1] == '-' then e + 2 else e + 1;
      var g :- RunOf(s, f, IsDigit);
      var h :- Literal(s, g, ")");
      if NoNewline(s[h..]) then Some((s[d..e], s[e + 1..g])) else None
    else
      var h :- Literal(s, e, ")");
      if NoNewline(s[h..]) then Some((s[d..e], "")) else None
  }

  /** `\s+\[PROTOCOL\s+STAMP(\s+from\s+ADDRESS)?]` and the metric tail: groups 5 to 10. */
  function MatchAfterGateway(s: string, j: nat): (r: Option<seq<string>>)
    requires j <= |s|
    ensures r.Some? ==> |r.value| == 6 && r.value[0] != [] && r.value[3] in {"", "*"}
                        && r.value[4] != [] && AllDigits(r.value[4])
  {
    var a :- RunOf(s, j, IsRegexSpace);
    var b :- Literal(s, a, "[");
    var c :- RunOf(s, b, IsWordChar);
    var d :- RunOf(s, c, IsRegexSpace);
    var e :- MatchRouteStamp(s, d);
    var from :- MatchFromClause(s, e);
    var tail :- MatchMetricTail(s, from.0);
    Some([s[b..c], s[d..e], from.1, tail.0, tail.1, tail.2])
  }

  /**
   * What follows the network (or the indentation of a continuation line): groups 2 to 10. The gateway
   * is the `via ADDRESS on INTERFACE` clause when the rest of the line matches after it, else a word.
   */
  function MatchRouteBody(s: string, i: nat): (r: Option<seq<string>>)
    requires i <= |s|
    ensures r.Some? ==> |r.value| == 9
    ensures r.Some? ==> r.value[0] != [] && (r.value[1] == "" <==> r.value[2] == "")
    ensures r.Some? ==> r.value[3] != [] && r.value[6] in {"", "*"} && r.value[7] != [] && AllDigits(r.value[7])
  {
    var via := MatchVia(s, i);
    var afterVia := if via.Some? then MatchAfterGateway(s, via.value.0) else None;
    if via.Some? && afterVia.Some? then
      Some(BodyGroups(s[i..via.value.0], via.value.1, via.value.2, afterVia.value))
    else
      var w :- RunOf(s, i, IsWordChar);
      var rest :- MatchAfterGateway(s, w);
      Some(BodyGroups(s[i..w], "", "", rest))
  }

  /** The gateway part, the via address and interface, then the six groups after the gateway. */
  function BodyGroups(gateway: string, address: string, iface: string, rest: seq<string>): (g: seq<string>)
    requires |rest| == 6
    ensures |g| == 9 && g[0] == gateway && g[1] == address && g[2] == iface
    ensures forall k | 3 <= k < 9 :: g[k] == rest[k - 3]
  {
    [gateway, address, iface] + rest
  }

  /**
   * The pattern of a route's first line: a network, its gateway, `[protocol stamp from]`, an optional
   * `*` for the primary route and `(metric/igp)`. The groups are numbered as the source numbers them:
   * 0 the line, 1 the network, 2 the gateway part, 3 and 4 the via address and interface, 5 the
   * protocol, 6 the stamp, 7 the from address, 8 the star, 9 the metric, 10 the IGP metric.
   */
  function MatchRouteLine(s: string): (r: Option<seq<string>>)
    ensures r.Some? ==> |r.value| == 11 && r.value[0] == s && r.value[1] != [] && r.value[2] != []
    ensures r.Some? ==> (r.value[3] == "" <==> r.value[4] == "") && r.value[5] != []
    ensures r.Some? ==> r.value[8] in {"", "*"} && r.value[9] != [] && AllDigits(r.value[9])
    ensures r.Some? ==> s != [] && IsNetworkChar(s[0])
  {
    var n :- RunOf(s, 0, IsNetworkChar);
    var w :- RunOf(s, n, IsRegexSpace);
    var body :- MatchRouteBody(s, w);
    Some([s, s[..n]] + body)
  }

  /** The pattern of an alternate path: an indented line with the same shape but no network (groups 0, 2 to 10). */
  function MatchContinuationLine(s: string): (r: Option<seq<string>>)
    ensures r.Some? ==> |r.value| == 10 && r.value[0] == s && r.value[1] != []
    ensures r.Some? ==> (r.value[2] == "" <==> r.value[3] == "") && r.value[4] != []
    ensures r.Some? ==> r.value[7] in {"", "*"} && r.value[8] != [] && AllDigits(r.value[8])
    ensures r.Some? ==> s != [] && IsRegexSpace(s[0])
  {
    var w :- RunOf(s, 0, IsRegexSpace);
    var body :- MatchRouteBody(s, w);
    Some([s] + body)
  }

  /** A line is never both a route's first line and an alternate path: one starts with an address character, the other with a space. */
  lemma {:induction false} RouteLineKinds(s: string)
    ensures !(MatchRouteLine(s).Some? && MatchContinuationLine(s).Some?)
  {
  }

  // ---------------------------------------------------------------------------------------------
  // Attribute lines

  /** The attribute a line opens, or Inactive for a line that opens none. */
  datatype Collector =
    | Inactive
    | Gateway
    | TypeSource
    | BGPPrefix
    | BGPASPath
    | BGPNextHop
    | BGPLocalPref
    | BGPMED
    | BGPAtomicAggr
    | BGPAggregator
    | BGPCommunity
    | BGPLargeCommunity

  /** The attribute a trimmed line opens, by its leading keyword, tried in the source's order. */
  function DetectCollector(trimmed: string): (c: Collector)
    ensures c == Gateway <==> HasPrefix(trimmed, "via ")
  {
    if HasPrefix(trimmed, "via ") then Gateway
    else if HasPrefix(trimmed, "Type:") || HasPrefix(trimmed, "source:") then TypeSource
    else if HasPrefix(trimmed, "BGP.community:") then BGPCommunity
    else if HasPrefix(trimmed, "BGP.large_community:") then BGPLargeCommunity
    else if HasPrefix(trimmed, "BGP.as_path:") || HasPrefix(trimmed, "bgp_path:") then BGPASPath
    else if HasPrefix(trimmed, "BGP.next_hop:") then BGPNextHop
    else if HasPrefix(trimmed, "BGP.local_pref:") then BGPLocalPref
    else if HasPrefix(trimmed, "BGP.med:") then BGPMED
    else if HasPrefix(trimmed, "BGP.atomic_aggr:") then BGPAtomicAggr
    else if HasPrefix(trimmed, "BGP.aggregator:") then BGPAggregator
    else if HasPrefix(trimmed, "BGP.origin:") then BGPPrefix
    else Inactive
  }

  // ---------------------------------------------------------------------------------------------
  // The patterns applied to a collected attribute

  /** `^TAG\s+(.*)$`: the text after the tag and the longest run of spaces following it. */
  function LabelledRest(s: string, tag: string): (r: Option<string>)
    ensures r.Some? ==> HasPrefix(s, tag) && NoNewline(r.value)
    ensures r.Some? ==> r.value == [] || !IsRegexSpace(r.value[0])
  {
    var a :- Literal(s, 0, tag);
    var b :- RunOf(s, a, IsRegexSpace);
    if NoNewline(s[b..]) then Some(s[b..]) else None
  }

  /**
   * `^TAG\s+(.+)$`: as LabelledRest when text follows the spaces; when nothing does, the engine gives
   * the last space to the group if the run has at least two characters and that one is not a newline.
   */
  function LabelledNonEmpty(s: string, tag: string): (r: Option<string>)
    ensures r.Some? ==> r.value != [] && NoNewline(r.value)
  {
    var a :- Literal(s, 0, tag);
    var b :- RunOf(s, a, IsRegexSpace);
    if b < |s| then (if NoNewline(s[b..]) then Some(s[b..]) else None)
    else if b - a >= 2 && s[b - 1] != '\n' then Some(s[b - 1..])
    else None
  }

  /** `^TAG(.*)$`: everything after the tag. */
  function LabelledAny(s: string, tag: string): (r: Option<string>)
    ensures r.Some? ==> HasPrefix(s, tag) && NoNewline(r.value) && s == tag + r.value
  {
    var a :- Literal(s, 0, tag);
    if NoNewline(s[a..]) then Some(s[a..]) else None
  }

  predicate IsWord(v: string) {
    v != [] && forall k | 0 <= k < |v| :: IsWordChar(v[k])
  }

  /** `^via\s+([0-9a-f.:]+)\s+on\s+(INTERFACE).*$`: the gateway and the interface. */
  function MatchGatewayValue(full: string): (r: Option<(string, string)>)
    ensures r.Some? ==> r.value.0 != [] && r.value.1 != []
  {
    var v :- MatchVia(full, 0);
    if NoNewline(full[v.0..]) then Some((v.1, v.2)) else None
  }

  /** `^(?:Type|source):\s+(.*)$`. */
  function MatchTypeValue(full: string): Option<string> {
    match LabelledRest(full, "Type:")
    case Some(v) => Some(v)
    case None => LabelledRest(full, "source:")
  }

  /** `^(?:BGP\.as_path|bgp_path):\s+(.*)$`. */
  function MatchASPathValue(full: string): Option<string> {
    match LabelledRest(full, "BGP.as_path:")
    case Some(v) => Some(v)
    case None => LabelledRest(full, "bgp_path:")
  }

  /** `^BGP\.next_hop:\s+([0-9a-f.:]+)(?:\s+[^\s]+)*$`: the first address; what follows must be space-separated words. */
  function MatchNextHopValue(full: string): (r: Option<string>)
    ensures r.Some? ==> r.value != [] && forall k | 0 <= k < |r.value| :: IsAddressChar(r.value[k])
  {
    var a :- Literal(full, 0, "BGP.next_hop:");
    var b :- RunOf(full, a, IsRegexSpace);
    var c :- RunOf(full, b, IsAddressChar);
    if c == |full| || (IsRegexSpace(full[c]) && !IsRegexSpace(full[|full| - 1])) then Some(full[b..c]) else None
  }

  /** `^TAG\s+(\w+)$`. */
  function MatchWordValue(full: string, tag: string): (r: Option<string>)
    ensures r.Some? ==> IsWord(r.value)
  {
    var v :- LabelledRest(full, tag);
    if IsWord(v) then Some(v) else None
  }

  /** `^BGP\.med:\s+(\d+)$`. */
  function MatchMEDValue(full: string): (r: Option<string>)
    ensures r.Some? ==> r.value != [] && AllDigits(r.value)
  {
    var v :- LabelledRest(full, "BGP.med:");
    if v != [] && AllDigits(v) then Some(v) else None
  }
}
