/** The record a `show protocols all` block is turned into (bgp_protocol_model.go). */
module BgpProtocolModel {
  import opened Wrappers

  /** The channel's route counters. */
  datatype BgpProtocolBgpRoutes = BgpProtocolBgpRoutes(imported: int, filtered: int, exported: int, preferred: int)

  /** One row of the route change statistics. */
  datatype BgpProtocolRouteChangeDetail =
    BgpProtocolRouteChangeDetail(received: int, rejected: int, filtered: int, ignored: int, accepted: int)

  /** The four rows of the route change statistics; a row is None until its line is seen. */
  datatype BgpProtocolRouteChanges = BgpProtocolRouteChanges(
    importUpdates: Option<BgpProtocolRouteChangeDetail>,
    importWithdraws: Option<BgpProtocolRouteChangeDetail>,
    exportUpdates: Option<BgpProtocolRouteChangeDetail>,
    exportWithdraws: Option<BgpProtocolRouteChangeDetail>)

  /** `BgpProtocolRouteChanges{}`. */
  const NoRouteChanges := BgpProtocolRouteChanges(None, None, None, None)

  /** One BGP session. `routeLimitAt` is None while no value has been set. */
  datatype BgpProtocol = BgpProtocol(
    protocol: string,
    table: string,
    state: string,
    connection: string,
    description: string,
    preference: int,
    inputFilter: string,
    outputFilter: string,
    importLimit: int,
    limitAction: string,
    routes: Option<BgpProtocolBgpRoutes>,
    routeChanges: Option<BgpProtocolRouteChanges>,
    bgpState: string,
    neighborAddress: string,
    neighborAS: int,
    neighborID: string,
    bgpSession: seq<string>,
    sourceAddress: string,
    routeLimitAt: Option<int>,
    holdTimer: int,
    holdTimerNow: int,
    keepalive: int,
    keepaliveNow: int)
  {
    /** bgp_protocol_model.go's `IsValid`: a record names a protocol or a table. */
    predicate IsValid() {
      !(protocol == "" && table == "")
    }
  }

  /** `BgpProtocol{}`. */
  const EmptyProtocol := BgpProtocol("", "", "", "", "", 0, "", "", 0, "", None, None, "", "", 0, "", [], "", None, 0, 0, 0, 0)

  /** A record is invalid exactly when it names neither a protocol nor a table; either name alone is enough. */
  lemma {:induction false} IsValidIff(p: BgpProtocol)
    ensures !p.IsValid() <==> p.protocol == [] && p.table == []
    ensures p.protocol != [] ==> p.IsValid()
    ensures p.table != [] ==> p.IsValid()
  {
  }

  /** Validity looks at the protocol and the table only. */
  lemma {:induction false} IsValidOnlyNames(p: BgpProtocol, q: BgpProtocol)
    requires p.protocol == q.protocol && p.table == q.table
    ensures p.IsValid() == q.IsValid()
  {
  }

  /** The zero record is invalid. */
  lemma {:induction false} EmptyProtocolInvalid()
    ensures !EmptyProtocol.IsValid()
  {
  }
}
