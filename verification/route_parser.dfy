/**
 * route.go's `ParseRoutes`: a line-by-line state machine over the output of `show route all`. A route's
 * first line (or an indented alternate path) opens a route; attribute lines open a collector whose
 * buffer gathers wrapped continuation text until the next attribute or route, when it is resolved into
 * the current route.
 *
 * The scan is specified by `Step`, one line at a time, and `Run`, its left fold; the class `RouteScan`
 * holds the state the source keeps in local variables and closures, and `ParseRoutes` is proved to
 * compute `RoutesOf`.
 */
module RouteParser {
  import opened Wrappers
  import opened Text
  import opened Util
  import opened RouteModel
  import opened RouteValues
  import opened RouteLines

  // ---------------------------------------------------------------------------------------------
  // mainRouteDetail

  /** route.go's `mainRouteDetail`: a route from the groups of a route-line match; too few groups give the zero route. */
  function MainRouteDetail(m: seq<string>): Route {
    if |m| < 9 then EmptyRoute
    else
      var hasVia := m[3] != "";
      Route(
        network := m[1],
        gateway := if hasVia then m[3] else m[2],
        iface := if hasVia then (if m[4] != "" then m[4] else "none") else m[2],
        fromProtocol := m[5],
        fromAddress := m[7],
        primary := m[8] == "*",
        metric := if |m| >= 10 && m[9] != "" then StrconvAtoi(m[9]).GetOr(0) else 0,
        igpMetric := if |m| >= 11 && m[10] != "" then StrconvAtoi(m[10]).GetOr(0) else 0,
        routeType := [],
        bgp := None)
  }

  /**
   * The route a route's first line opens: it is named after the line's network, it is primary exactly
   * when the line carries `*`, its gateway is the via address (with the interface) or else the word the
   * line shows in that place, and its metric is the number the line shows.
   */
  lemma {:induction false} MainRouteDetailOfLine(line: string, m: seq<string>)
    requires MatchRouteLine(line) == Some(m)
    ensures var r := MainRouteDetail(m);
      && r.network == m[1] && r.network != ""
      && (r.primary <==> m[8] == "*")
      && (m[3] != "" ==> r.gateway == m[3] && r.iface == m[4])
      && (m[3] == "" ==> r.gateway == m[2] && r.iface == m[2])
      && r.fromProtocol == m[5] && r.fromAddress == m[7]
      && r.metric == DigitsValue(m[9]) && r.metric >= 0
      && r.bgp == None && r.routeType == []
  {
  }

  /** Fewer than nine groups give the zero route. */
  lemma {:induction false} MainRouteDetailShort(m: seq<string>)
    requires |m| < 9
    ensures MainRouteDetail(m) == EmptyRoute && MainRouteDetail(m).network == ""
  {
  }

  // ---------------------------------------------------------------------------------------------
  // The collector switch

  /** The route's BGP attributes, or the zero attributes when it has none yet (`&RouteBGPInfo{}`). */
  function BgpOf(r: Route): RouteBGPInfo {
    r.bgp.GetOr(EmptyBGPInfo)
  }

  /** Its communities are duplicate-free pairs and its large communities duplicate-free triples. */
  predicate CommunitiesWellFormed(r: Route) {
    r.bgp.Some? ==>
      && NoDup(r.bgp.value.communities) && Width(r.bgp.value.communities, 2)
      && NoDup(r.bgp.value.largeCommunities) && Width(r.bgp.value.largeCommunities, 3)
  }

  /** What a collector's text resolves to: the parsed value its pattern captured, or nothing when it does not match. */
  datatype Resolution =
    | Unresolved
    | GatewayValue(gateway: string, iface: string)
    | TypeValue(routeType: seq<string>)
    | CommunitiesValue(communities: seq<seq<int>>)
    | LargeCommunitiesValue(largeCommunities: seq<seq<int>>)
    | ASPathValue(asPath: seq<int>)
    | NextHopValue(nextHop: string)
    | LocalPrefValue(localPref: int)
    | MEDValue(med: int)
    | AtomicAggrValue(atomicAggr: string)
    | AggregatorValue(aggregator: string)
    | OriginValue(origin: string)

  /**
   * The matching half of route.go's `processCollector` switch: the joined, trimmed text of a collector
   * is matched against its attribute's pattern and the captured value parsed.
   */
  function Resolve(kind: Collector, full: string): (res: Resolution)
    ensures res.GatewayValue? ==> kind == Gateway
    ensures res.CommunitiesValue? ==> Width(res.communities, 2)
    ensures res.LargeCommunitiesValue? ==> Width(res.largeCommunities, 3)
  {
    match kind
    case Inactive => Unresolved
    case Gateway =>
      (match MatchGatewayValue(full)
       case Some((gw, iface)) => GatewayValue(gw, iface)
       case None => Unresolved)
    case TypeSource =>
      (match MatchTypeValue(full)
       case Some(v) => TypeValue(Fields(TrimSpace(v)))
       case None => Unresolved)
    case BGPCommunity => ResolveCommunity(full)
    case BGPLargeCommunity =>
      (match LabelledNonEmpty(full, "BGP.large_community:")
       case Some(v) => LargeCommunitiesValue(ParseLargeCommunities(v))
       case None => Unresolved)
    case BGPASPath =>
      (match MatchASPathValue(full)
       case Some(v) => ASPathValue(ParseASPath(TrimSpace(v)))
       case None => Unresolved)
    case BGPNextHop =>
      (match MatchNextHopValue(full)
       case Some(v) => NextHopValue(v)
       case None => Unresolved)
    case BGPLocalPref =>
      (match MatchWordValue(full, "BGP.local_pref:")
       case Some(v) => LocalPrefValue(Atoi(v))
       case None => Unresolved)
    case BGPMED =>
      (match MatchMEDValue(full)
       case Some(v) => MEDValue(Atoi(v))
       case None => Unresolved)
    case BGPAtomicAggr =>
      (match LabelledAny(full, "BGP.atomic_aggr:")
       case Some(v) => AtomicAggrValue(TrimSpace(v))
       case None => Unresolved)
    case BGPAggregator =>
      (match LabelledAny(full, "BGP.aggregator:")
       case Some(v) => AggregatorValue(TrimSpace(v))
       case None => Unresolved)
    case BGPPrefix =>
      (match MatchWordValue(full, "BGP.origin:")
       case Some(v) => OriginValue(v)
       case None => Unresolved)
  }

  /**
   * The storing half of the switch: the value goes to its field of the route. A BGP attribute creates
   * the route's BGP record on first use; communities are merged without duplicates; nothing resolved
   * leaves the route as it was.
   */
  function Store(r: Route, res: Resolution): Route {
    var b := BgpOf(r);
    match res
    case Unresolved => r
    case GatewayValue(gw, iface) => r.(gateway := gw, iface := iface)
    case TypeValue(types) => r.(routeType := types)
    case CommunitiesValue(cs) => r.(bgp := Some(b.(communities := AddCommunities(b.communities, cs))))
    case LargeCommunitiesValue(cs) =>
      r.(bgp := Some(b.(largeCommunities := AddLargeCommunities(b.largeCommunities, cs))))
    case ASPathValue(path) => r.(bgp := Some(b.(asPath := path)))
    case NextHopValue(v) => r.(bgp := Some(b.(nextHop := v)))
    case LocalPrefValue(v) => r.(bgp := Some(b.(localPref := v)))
    case MEDValue(v) => r.(bgp := Some(b.(med := v)))
    case AtomicAggrValue(v) => r.(bgp := Some(b.(atomicAggr := v)))
    case AggregatorValue(v) => r.(bgp := Some(b.(aggregator := v)))
    case OriginValue(v) => r.(bgp := Some(b.(origin := v)))
  }

  /** route.go's `processCollector` switch: match the collector's text, then store what it gave. */
  function ResolveCollector(r: Route, kind: Collector, full: string): Route {
    Store(r, Resolve(kind, full))
  }

  /**
   * Storing never touches what the route's first line set (only a gateway value replaces the gateway
   * and interface), never drops a BGP record once made, and keeps the communities duplicate-free pairs
   * and triples.
   */
  lemma {:induction false} StoreKeeps(r: Route, res: Resolution)
    requires res.CommunitiesValue? ==> Width(res.communities, 2)
    requires res.LargeCommunitiesValue? ==> Width(res.largeCommunities, 3)
    ensures var r' := Store(r, res);
      && r'.network == r.network && r'.fromProtocol == r.fromProtocol && r'.fromAddress == r.fromAddress
      && r'.primary == r.primary && r'.metric == r.metric && r'.igpMetric == r.igpMetric
      && (!res.GatewayValue? ==> r'.gateway == r.gateway && r'.iface == r.iface)
      && (r.bgp.Some? ==> r'.bgp.Some?)
      && (CommunitiesWellFormed(r) ==> CommunitiesWellFormed(r'))
  {
    var b := BgpOf(r);
    if CommunitiesWellFormed(r) {
      assert NoDup(b.communities) && Width(b.communities, 2);
      assert NoDup(b.largeCommunities) && Width(b.largeCommunities, 3);
      if res.CommunitiesValue? {
        AddCommunitiesSpec(b.communities, res.communities);
      }
      if res.LargeCommunitiesValue? {
        AddLargeCommunitiesSpec(b.largeCommunities, res.largeCommunities);
      }
    }
  }

  /**
   * Resolving an attribute never touches what the route's first line set (only a `via` line may replace
   * the gateway and interface), never drops a BGP record once made, and keeps the communities
   * duplicate-free pairs and triples.
   */
  lemma {:induction false} ResolveCollectorKeeps(r: Route, kind: Collector, full: string)
    ensures var r' := ResolveCollector(r, kind, full);
      && r'.network == r.network && r'.fromProtocol == r.fromProtocol && r'.fromAddress == r.fromAddress
      && r'.primary == r.primary && r'.metric == r.metric && r'.igpMetric == r.igpMetric
      && (kind != Gateway ==> r'.gateway == r.gateway && r'.iface == r.iface)
      && (r.bgp.Some? ==> r'.bgp.Some?)
      && (CommunitiesWellFormed(r) ==> CommunitiesWellFormed(r'))
  {
    StoreKeeps(r, Resolve(kind, full));
  }

  /**
   * Storing communities appends the new ones after the held ones, without repeating any pair, in the
   * order in which they first occur in `incoming`.
   */
  lemma {:induction false} StoreCommunities(r: Route, incoming: seq<seq<int>>)
    requires CommunitiesWellFormed(r) && Width(incoming, 2)
    ensures var cs := Store(r, CommunitiesValue(incoming)).bgp.value.communities;
      var held := BgpOf(r).communities;
      && |held| <= |cs| && cs[..|held|] == held && NoDup(cs)
      && (forall c :: c in cs <==> c in held || c in incoming)
      && FirstSeenOrder(cs[|held|..], incoming)
  {
    AddCommunitiesSpec(BgpOf(r).communities, incoming);
  }

  /**
   * A community line adds the parsed communities the route does not hold yet: the ones it held stay in
   * front in their order, the new ones follow in the order they first occur in the line, no pair is
   * repeated, and afterwards it holds exactly the old and the new ones.
   */
  lemma {:induction false} ResolveCommunities(r: Route, full: string, v: string)
    requires CommunitiesWellFormed(r)
    requires LabelledNonEmpty(full, "BGP.community:") == Some(v)
    ensures var cs := ResolveCollector(r, BGPCommunity, full).bgp.value.communities;
      var held := BgpOf(r).communities;
      && |held| <= |cs| && cs[..|held|] == held && NoDup(cs)
      && (forall c :: c in cs <==> c in held || c in ParseCommunities(v))
      && FirstSeenOrder(cs[|held|..], ParseCommunities(v))
  {
    ResolveCommunityArm(full);
    StoreCommunities(r, ParseCommunities(v));
  }

  /** The `BGP.community:` arm of `Resolve`. */
  function ResolveCommunity(full: string): (res: Resolution)
    ensures res.CommunitiesValue? || res == Unresolved
  {
    match LabelledNonEmpty(full, "BGP.community:")
    case Some(v) => CommunitiesValue(ParseCommunities(v))
    case None => Unresolved
  }

  /** `Resolve` on a community collector is its community arm. */
  lemma {:induction false} ResolveCommunityArm(full: string)
    ensures Resolve(BGPCommunity, full) == ResolveCommunity(full)
  {
  }

  // ---------------------------------------------------------------------------------------------
  // The scan, one line at a time

  /** The variables of the scan: routes emitted, the route being built, the open collector and its buffer. */
  datatype ScanState = ScanState(routes: seq<Route>, current: Route, collector: Collector, buffer: seq<string>)

  const Initial := ScanState([], EmptyRoute, Inactive, [])

  /** route.go's `processCollector`: resolve a non-empty buffer into the current route and close the collector. */
  function Flush(st: ScanState): (r: ScanState)
    ensures st.buffer == [] ==> r == st
    ensures st.buffer != [] ==> r.collector == Inactive && r.buffer == []
    ensures r.routes == st.routes && r.current.network == st.current.network
  {
    if st.buffer == [] then st
    else
      ResolveCollectorKeeps(st.current, st.collector, TrimSpace(Concat(st.buffer)));
      ScanState(st.routes, ResolveCollector(st.current, st.collector, TrimSpace(Concat(st.buffer))), Inactive, [])
  }

  /** The routes once the current one is emitted, which happens only when it has a network. */
  function Emit(st: ScanState): seq<Route> {
    if st.current.network != "" then st.routes + [st.current] else st.routes
  }

  /** The banner lines the route scan skips. */
  predicate IsRouteBanner(line: string) {
    HasPrefix(line, "BIRD") || HasPrefix(line, "Access restricted") || HasPrefix(line, "Table ")
  }

  /** A route's first line: flush, emit the current route if it has a network, start the line's route. */
  function Started(st: ScanState, m: seq<string>): ScanState {
    var f := Flush(st);
    ScanState(Emit(f), MainRouteDetail(m), Inactive, [])
  }

  /**
   * An alternate path: flush; when the current route has a network, emit it and start a route for the
   * same network from the line's groups; otherwise nothing more.
   */
  function Continued(st: ScanState, m: seq<string>): ScanState
    requires |m| >= 1
  {
    var f := Flush(st);
    if f.current.network != "" then
      ScanState(f.routes + [f.current], MainRouteDetail([m[0], f.current.network] + m[1..]), Inactive, [])
    else f
  }

  /** Any other line: it opens an attribute's collector, or continues the open one, or is ignored. */
  function Collected(st: ScanState, line: string): ScanState {
    var trimmed := TrimSpace(line);
    var detected := DetectCollector(trimmed);
    if detected == Inactive then
      if st.collector != Inactive && trimmed != "" then st.(buffer := st.buffer + [line]) else st
    else
      Flush(st).(collector := detected, buffer := [line])
  }

  /** One pass of the loop of `ParseRoutes` over one line. */
  function Step(st: ScanState, raw: string): ScanState {
    var line := TrimRightCR(raw);
    if IsRouteBanner(line) then st
    else
      match MatchRouteLine(line)
      case Some(m) => Started(st, m)
      case None =>
        match MatchContinuationLine(line)
        case Some(m) => Continued(st, m)
        case None => Collected(st, line)
  }

  /** The state after the given lines, from `st`. */
  function Run(st: ScanState, lines: seq<string>): ScanState
    decreases |lines|
  {
    if lines == [] then st else Step(Run(st, lines[..|lines| - 1]), lines[|lines| - 1])
  }

  /** What `ParseRoutes` returns: the scan of every line, then a last flush and emit. */
  function RoutesOf(data: string): seq<Route> {
    Emit(Flush(Run(Initial, SplitOn(data, "\n"))))
  }

  /** Every emitted route has a network, communities stay well formed, and a collector is open exactly while its buffer is not empty. */
  predicate Valid(st: ScanState) {
    && (forall i | 0 <= i < |st.routes| :: st.routes[i].network != "" && CommunitiesWellFormed(st.routes[i]))
    && CommunitiesWellFormed(st.current)
    && (st.collector == Inactive <==> st.buffer == [])
  }

  lemma {:induction false} FlushValid(st: ScanState)
    requires Valid(st)
    ensures Valid(Flush(st)) && Flush(st).collector == Inactive
  {
    if st.buffer != [] {
      ResolveCollectorKeeps(st.current, st.collector, TrimSpace(Concat(st.buffer)));
    }
  }

  lemma {:induction false} MainRouteDetailWellFormed(m: seq<string>)
    ensures CommunitiesWellFormed(MainRouteDetail(m))
  {
  }

  /** Emitting the current route keeps every emitted route named and well formed. */
  lemma {:induction false} EmitValid(st: ScanState)
    requires Valid(st)
    ensures forall i | 0 <= i < |Emit(st)| :: Emit(st)[i].network != "" && CommunitiesWellFormed(Emit(st)[i])
  {
  }

  /** Every line keeps the scan valid. */
  lemma {:induction false} StepValid(st: ScanState, raw: string)
    requires Valid(st)
    ensures Valid(Step(st, raw))
  {
    FlushValid(st);
    var f := Flush(st);
    var line := TrimRightCR(raw);
    var next := Step(st, raw);
    if IsRouteBanner(line) {
      assert next == st;
    } else if MatchRouteLine(line).Some? {
      var m := MatchRouteLine(line).value;
      assert next == ScanState(Emit(f), MainRouteDetail(m), Inactive, []);
      MainRouteDetailWellFormed(m);
      EmitValid(f);
    } else if MatchContinuationLine(line).Some? {
      var m := MatchContinuationLine(line).value;
      if f.current.network != "" {
        var m' := [m[0], f.current.network] + m[1..];
        assert next == ScanState(f.routes + [f.current], MainRouteDetail(m'), Inactive, []);
        MainRouteDetailWellFormed(m');
        EmitValid(f);
      } else {
        assert next == f;
      }
    } else {
      var trimmed := TrimSpace(line);
      var detected := DetectCollector(trimmed);
      if detected == Inactive {
        assert next == st || next == st.(buffer := st.buffer + [line]);
      } else {
        assert next == f.(collector := detected, buffer := [line]);
      }
    }
  }

  lemma {:induction false} RunValid(lines: seq<string>)
    ensures Valid(Run(Initial, lines))
  {
    if lines != [] {
      RunValid(lines[..|lines| - 1]);
      StepValid(Run(Initial, lines[..|lines| - 1]), lines[|lines| - 1]);
    }
  }

  /** The last flush and emit keep every route named and well formed. */
  lemma {:induction false} FinishValid(st: ScanState)
    requires Valid(st)
    ensures var routes := Emit(Flush(st));
      forall i | 0 <= i < |routes| :: routes[i].network != "" && CommunitiesWellFormed(routes[i])
  {
    FlushValid(st);
    EmitValid(Flush(st));
  }

  /** Every route the parser returns has a network and well-formed communities. */
  lemma {:induction false} RoutesOfNamed(data: string)
    ensures var routes := RoutesOf(data);
      forall i | 0 <= i < |routes| :: routes[i].network != "" && CommunitiesWellFormed(routes[i])
  {
    var lines := SplitOn(data, "\n");
    RunValid(lines);
    FinishValid(Run(Initial, lines));
  }

  // ---------------------------------------------------------------------------------------------
  // What single lines do

  /** Banner lines change nothing. */
  lemma {:induction false} BannerLineIgnored(st: ScanState, raw: string)
    requires IsRouteBanner(TrimRightCR(raw))
    ensures Step(st, raw) == st
  {
  }

  /**
   * A route's first line closes the route being built (after resolving its open collector), emits it if
   * it has a network, and starts the route the line describes with no collector open.
   */
  lemma {:induction false} RouteLineStartsRoute(st: ScanState, raw: string, m: seq<string>)
    requires !IsRouteBanner(TrimRightCR(raw)) && MatchRouteLine(TrimRightCR(raw)) == Some(m)
    ensures var next := Step(st, raw);
      && next.routes == Emit(Flush(st))
      && next.current == MainRouteDetail(m) && next.current.network == m[1]
      && next.collector == Inactive && next.buffer == []
  {
  }

  /**
   * An alternate path inherits the network of the route being built: that route is emitted and a new
   * one with the same network starts. With no route started the line only flushes the collector.
   */
  lemma {:induction false} ContinuationLineInherits(st: ScanState, raw: string, m: seq<string>)
    requires !IsRouteBanner(TrimRightCR(raw))
    requires MatchRouteLine(TrimRightCR(raw)).None? && MatchContinuationLine(TrimRightCR(raw)) == Some(m)
    ensures var next := Step(st, raw);
      && (st.current.network != "" ==>
            && next.routes == st.routes + [Flush(st).current]
            && next.current == MainRouteDetail([m[0], st.current.network] + m[1..])
            && next.current.network == st.current.network
            && (next.current.primary <==> m[7] == "*")
            && next.collector == Inactive && next.buffer == [])
      && (st.current.network == "" ==> next == Flush(st) && next.routes == st.routes && next.current.network == "")
  {
  }

  /**
   * A line that is neither a route line nor an attribute keyword is wrapped text: while a collector is
   * open and the line is not blank it is appended, untrimmed, to the buffer; otherwise it is ignored.
   */
  lemma {:induction false} WrappedLineBuffered(st: ScanState, raw: string)
    requires var line := TrimRightCR(raw);
      && !IsRouteBanner(line) && MatchRouteLine(line).None? && MatchContinuationLine(line).None?
      && DetectCollector(TrimSpace(line)) == Inactive
    ensures var line := TrimRightCR(raw);
      && (st.collector != Inactive && TrimSpace(line) != "" ==> Step(st, raw) == st.(buffer := st.buffer + [line]))
      && (st.collector == Inactive || TrimSpace(line) == "" ==> Step(st, raw) == st)
  {
  }

  /** An attribute line resolves the collector that was open and opens its own with the line as the buffer. */
  lemma {:induction false} AttributeLineOpensCollector(st: ScanState, raw: string)
    requires var line := TrimRightCR(raw);
      && !IsRouteBanner(line) && MatchRouteLine(line).None? && MatchContinuationLine(line).None?
      && DetectCollector(TrimSpace(line)) != Inactive
    ensures var line := TrimRightCR(raw);
      && Step(st, raw).collector == DetectCollector(TrimSpace(line))
      && Step(st, raw).buffer == [line]
      && Step(st, raw).current == Flush(st).current && Step(st, raw).routes == st.routes
  {
  }

  /**
   * A wrapped line is joined to the buffered text with nothing in between, so a value broken in the
   * middle of a number is read whole when the collector is resolved.
   */
  lemma {:induction false} WrappedValueJoined(st: ScanState, raw: string)
    requires var line := TrimRightCR(raw);
      && !IsRouteBanner(line) && MatchRouteLine(line).None? && MatchContinuationLine(line).None?
      && DetectCollector(TrimSpace(line)) == Inactive && TrimSpace(line) != ""
    requires st.collector != Inactive && st.buffer != []
    ensures Flush(Step(st, raw)).current
         == ResolveCollector(st.current, st.collector, TrimSpace(Concat(st.buffer) + TrimRightCR(raw)))
  {
    WrappedLineBuffered(st, raw);
    FlushAppended(st, TrimRightCR(raw));
  }

  /** Flushing a buffer with one more line resolves the old text followed directly by that line. */
  lemma {:induction false} FlushAppended(st: ScanState, line: string)
    requires st.buffer != []
    ensures Flush(st.(buffer := st.buffer + [line])).current
         == ResolveCollector(st.current, st.collector, TrimSpace(Concat(st.buffer) + line))
  {
    var buffer := st.buffer + [line];
    assert Concat(buffer) == Concat(st.buffer) + line by {
      JoinSnoc(st.buffer, line, "");
      assert Concat(st.buffer) + "" == Concat(st.buffer);
    }
    var full := TrimSpace(Concat(buffer));
    assert Flush(st.(buffer := buffer)).current == ResolveCollector(st.current, st.collector, full);
  }

  // ---------------------------------------------------------------------------------------------
  // The scan as the source writes it

  /** The local variables `ParseRoutes` keeps and its `resetCollector` / `processCollector` closures update. */
  class RouteScan {
    var routes: seq<Route>
    var currentRoute: Route
    var currentCollector: Collector
    var collectorLines: seq<string>

    function State(): ScanState
      reads this
    {
      ScanState(routes, currentRoute, currentCollector, collectorLines)
    }

    constructor ()
      ensures State() == Initial
    {
      routes := [];
      currentRoute := EmptyRoute;
      currentCollector := Inactive;
      collectorLines := [];
    }

    /** `resetCollector`: close the collector and empty its buffer. */
    method ResetCollector()
      modifies this
      ensures State() == old(State()).(collector := Inactive, buffer := [])
    {
      currentCollector := Inactive;
      collectorLines := [];
    }

    /** `processCollector`: resolve the buffer, joined and trimmed, into the current route, then reset. */
    method ProcessCollector()
      modifies this
      ensures State() == Flush(old(State()))
    {
      if |collectorLines| == 0 {
        return;
      }
      var fullLine := TrimSpace(Concat(collectorLines));
      currentRoute := ResolveCollector(currentRoute, currentCollector, fullLine);
      ResetCollector();
    }

    /** `ParseRoutes`'s loop over the lines of the dump. */
    method ScanLines(lines: seq<string>)
      modifies this
      ensures State() == Run(old(State()), lines)
    {
      ghost var start := State();
      for i := 0 to |lines|
        invariant State() == Run(start, lines[..i])
      {
        assert lines[..i + 1][..i] == lines[..i];
        ScanLine(lines[i]);
      }
      assert lines[..|lines|] == lines;
    }

    /** After the loop: resolve the open collector and emit the last route if it has a network. */
    method Finish() returns (result: seq<Route>)
      modifies this
      ensures result == Emit(Flush(old(State())))
    {
      ProcessCollector();
      if currentRoute.network != "" {
        routes := routes + [currentRoute];
      }
      result := routes;
    }

    /** One pass of `ParseRoutes`'s loop over one line of the dump. */
    method ScanLine(raw: string)
      modifies this
      ensures State() == Step(old(State()), raw)
    {
      var line := TrimRightCR(raw);
      if IsRouteBanner(line) {
        return;
      }
      var m := MatchRouteLine(line);
      if m.Some? {
        StartRoute(m.value);
        return;
      }
      var c := MatchContinuationLine(line);
      if c.Some? {
        ContinueRoute(c.value);
        return;
      }
      CollectLine(line);
    }

    /** A route's first line. */
    method StartRoute(m: seq<string>)
      modifies this
      ensures State() == Started(old(State()), m)
    {
      ProcessCollector();
      if currentRoute.network != "" {
        routes := routes + [currentRoute];
      }
      currentRoute := MainRouteDetail(m);
      ResetCollector();
    }

    /** An alternate path's line. */
    method ContinueRoute(m: seq<string>)
      requires |m| >= 1
      modifies this
      ensures State() == Continued(old(State()), m)
    {
      ProcessCollector();
      if currentRoute.network != "" {
        routes := routes + [currentRoute];
        var network := currentRoute.network;
        var matches := [m[0], network] + m[1..];
        currentRoute := MainRouteDetail(matches);
        ResetCollector();
      }
    }

    /** Any other line: open a collector, or add the line to the open one. */
    method CollectLine(line: string)
      modifies this
      ensures State() == Collected(old(State()), line)
    {
      var trimmedLine := TrimSpace(line);
      var detected := DetectCollector(trimmedLine);
      if detected == Inactive && currentCollector != Inactive && trimmedLine != "" {
        collectorLines := collectorLines + [line];
        return;
      }
      if detected != Inactive {
        ProcessCollector();
        currentCollector := detected;
        collectorLines := [line];
      }
    }
  }

  /** route.go's `ParseRoutes`: the routes of a `show route all` dump, in the order their lines appear. */
  method ParseRoutes(data: string) returns (routes: seq<Route>)
    ensures routes == RoutesOf(data)
    ensures forall i | 0 <= i < |routes| :: routes[i].network != "" && CommunitiesWellFormed(routes[i])
  {
    var scan := new RouteScan();
    var lines := SplitOn(data, "\n");
    scan.ScanLines(lines);
    routes := scan.Finish();
    RoutesOfNamed(data);
  }

}
