/** The records a route dump is turned into (route_model.go). */
module RouteModel {
  import opened Wrappers

  /** The BGP attributes of one path. A community is a list of two integers, a large community of three. */
  datatype RouteBGPInfo = RouteBGPInfo(
    origin: string,
    asPath: seq<int>,
    nextHop: string,
    localPref: int,
    med: int,
    atomicAggr: string,
    aggregator: string,
    communities: seq<seq<int>>,
    largeCommunities: seq<seq<int>>)

  /** One path, primary or alternate, to a network. `bgp` is None until a BGP attribute is resolved. */
  datatype Route = Route(
    network: string,
    gateway: string,
    iface: string,
    fromProtocol: string,
    fromAddress: string,
    primary: bool,
    metric: int,
    igpMetric: int,
    routeType: seq<string>,
    bgp: Option<RouteBGPInfo>)

  /** `RouteBGPInfo{}`. */
  const EmptyBGPInfo := RouteBGPInfo("", [], "", 0, 0, "", "", [], [])

  /** `Route{}`, the zero route that has no network yet. */
  const EmptyRoute := Route("", "", "", "", "", false, 0, 0, [], None)
}
