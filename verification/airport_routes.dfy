/**
 * Waypoint routes for aircraft taking off from and waiting at Boston Logan
 * Airport: the origin constant, the route catalogue and the assembler that
 * stitches a route's arrival, an airport dwell and its departure into one
 * ordered path for an animation layer.
 */
module AirportRoutes {

  /** A waypoint (longitude, latitude), both in millionths of a degree.
      Waypoints are only copied around, never computed on. */
  datatype Coord = Coord(lonE6: int, latE6: int)

  /** Logan Airport, (-71.0096, 42.3656): the shared origin and dwell fill. */
  const LoganAirport: Coord := Coord(-71009600, 42365600)

  /** Number of origin copies inserted while the aircraft waits at the airport. */
  const AirportWaitPoints: nat := 10

  /** Number of origin copies appended when the aircraft stays put. */
  const DestinationStayPoints: nat := 20

  /** A named route: the path flown to reach the origin and the path flown from it. */
  datatype Route = Route(arrival: seq<Coord>, departure: seq<Coord>)

  /** Route name to route; a name is an own property of the catalogue object. */
  type Catalog = map<string, Route>

  /** The shipped catalogue: Logan to Hull (Pemberton Point) and Logan to Gloucester (Cape Ann). */
  const FlightRoutes: Catalog := map[
    "loganToHullSmooth" := Route([LoganAirport], HullDeparture),
    "loganToGloucester" := Route([LoganAirport], GloucesterDeparture)
  ]

  // Each departure starts at the origin itself, as in the source tables.

  const HullDeparture: seq<Coord> := [LoganAirport] + [
      Coord(-71007500, 42365000), Coord(-71006500, 42364000), Coord(-71005500, 42363000),
      Coord(-71004500, 42362000), Coord(-71003500, 42361000), Coord(-71002500, 42360000), Coord(-71001000, 42359000),
      Coord(-71000000, 42358000), Coord(-70998000, 42356500), Coord(-70996000, 42355000), Coord(-70994000, 42353500),
      Coord(-70992000, 42352000), Coord(-70990000, 42350500), Coord(-70988000, 42349000), Coord(-70986000, 42347500),
      Coord(-70984000, 42346000), Coord(-70982000, 42344500), Coord(-70980000, 42343000), Coord(-70977500, 42341000),
      Coord(-70975000, 42339000), Coord(-70972500, 42337000), Coord(-70970000, 42335000), Coord(-70967500, 42333000),
      Coord(-70965000, 42331000), Coord(-70962500, 42329000), Coord(-70960000, 42327000), Coord(-70957500, 42325000),
      Coord(-70955000, 42323000), Coord(-70952500, 42321000), Coord(-70950000, 42319000), Coord(-70945000, 42315000),
      Coord(-70940000, 42311000), Coord(-70935000, 42307000), Coord(-70930000, 42303000), Coord(-70925000, 42299000),
      Coord(-70920000, 42295000), Coord(-70915000, 42291000), Coord(-70910000, 42287000), Coord(-70905000, 42283000),
      Coord(-70900000, 42280000), Coord(-70895000, 42277500), Coord(-70890000, 42275000), Coord(-70885000, 42272500),
      Coord(-70880000, 42270000), Coord(-70875000, 42267500), Coord(-70870000, 42265000), Coord(-70865000, 42262500),
      Coord(-70860000, 42260000), Coord(-70855000, 42257500), Coord(-70850000, 42255000), Coord(-70845000, 42252500),
      Coord(-70840000, 42250000), Coord(-70837500, 42247500), Coord(-70835000, 42245000), Coord(-70832500, 42242500),
      Coord(-70830000, 42240000), Coord(-70827028, 42238021)
  ]

  const GloucesterDeparture: seq<Coord> := [LoganAirport] + [
      Coord(-71007500, 42367000), Coord(-71005500, 42369000), Coord(-71003500, 42371000),
      Coord(-71001500, 42373000), Coord(-70999500, 42375000), Coord(-70997500, 42378000), Coord(-70995500, 42381000),
      Coord(-70993500, 42384000), Coord(-70991500, 42387000), Coord(-70989500, 42390000), Coord(-70987500, 42393000),
      Coord(-70985500, 42396000), Coord(-70983500, 42399000), Coord(-70981500, 42402000), Coord(-70979500, 42405000),
      Coord(-70977500, 42408000), Coord(-70975500, 42411000), Coord(-70973500, 42414000), Coord(-70971500, 42417000),
      Coord(-70969500, 42420000), Coord(-70967500, 42423000), Coord(-70965500, 42426000), Coord(-70963500, 42429000),
      Coord(-70961500, 42432000), Coord(-70959500, 42435000), Coord(-70957500, 42438000), Coord(-70955000, 42441000),
      Coord(-70952500, 42444000), Coord(-70950000, 42447000), Coord(-70947500, 42450000), Coord(-70945000, 42453000),
      Coord(-70942500, 42456000), Coord(-70940000, 42459000), Coord(-70937500, 42462000), Coord(-70935000, 42465000),
      Coord(-70932500, 42468000), Coord(-70930000, 42471000), Coord(-70927000, 42474000), Coord(-70924000, 42477000),
      Coord(-70921000, 42480000), Coord(-70918000, 42483000), Coord(-70915000, 42486000), Coord(-70912000, 42489000),
      Coord(-70909000, 42492000), Coord(-70906000, 42495000), Coord(-70903000, 42498000), Coord(-70900000, 42501000),
      Coord(-70897000, 42504000), Coord(-70894000, 42507000), Coord(-70891000, 42510000), Coord(-70888000, 42513000),
      Coord(-70885000, 42516000), Coord(-70882000, 42519000), Coord(-70879000, 42522000), Coord(-70876000, 42525000),
      Coord(-70873000, 42528000), Coord(-70870000, 42531000), Coord(-70867000, 42534000), Coord(-70864000, 42537000),
      Coord(-70861000, 42540000), Coord(-70858000, 42543000), Coord(-70855000, 42546000), Coord(-70852000, 42549000),
      Coord(-70849000, 42552000), Coord(-70846000, 42555000), Coord(-70843000, 42558000), Coord(-70840000, 42561000),
      Coord(-70837000, 42564000), Coord(-70834000, 42567000), Coord(-70831000, 42570000), Coord(-70828000, 42573000),
      Coord(-70825000, 42576000), Coord(-70822000, 42579000), Coord(-70819000, 42582000), Coord(-70816000, 42585000),
      Coord(-70813000, 42588000), Coord(-70810000, 42591000), Coord(-70807000, 42594000), Coord(-70804000, 42597000),
      Coord(-70801000, 42600000), Coord(-70859136, 42603925)
  ]

  // ---------------------------------------------------------------------------
  // Sequence building blocks

  /** `Array(n).fill(c)`: a sequence of n copies of c. */
  function Fill<T>(c: T, n: nat): (r: seq<T>)
    ensures |r| == n
    ensures forall i :: 0 <= i < n ==> r[i] == c
  {
    if n == 0 then [] else Fill(c, n - 1) + [c]
  }

  /** `s.slice(1)`: every element after the first, and nothing for an empty `s`. */
  function SliceFromOne<T>(s: seq<T>): (r: seq<T>)
    ensures |s| == 0 ==> r == []
    ensures |s| > 0 ==> |r| == |s| - 1
    ensures forall i :: 0 <= i < |r| ==> r[i] == s[i + 1]
  {
    if |s| == 0 then [] else s[1..]
  }

  // ---------------------------------------------------------------------------
  // The route assembler

  /** The path for a known route: stay at the destination when asked to and the
      departure is a single point, else arrival then (optionally) the dwell then
      the departure without its first point, which duplicates the origin. */
  function Assemble(route: Route, waitAtAirport: bool, stayAtDestination: bool): (r: seq<Coord>)
    ensures route.arrival <= r
    ensures forall i :: 0 <= i < |r| ==>
      r[i] == LoganAirport || r[i] in route.arrival || r[i] in route.departure
  {
    if stayAtDestination && |route.departure| == 1 then
      route.arrival + Fill(LoganAirport, DestinationStayPoints)
    else if !waitAtAirport then
      route.arrival + SliceFromOne(route.departure)
    else
      route.arrival + Fill(LoganAirport, AirportWaitPoints) + SliceFromOne(route.departure)
  }

  /** The route assembler over an arbitrary catalogue. A name that is not a
      route of the catalogue yields the empty path; the diagnostic logged for
      it is not modelled. */
  function CompleteRoute(catalog: Catalog, routeName: string, waitAtAirport: bool, stayAtDestination: bool): (r: seq<Coord>)
    ensures routeName !in catalog ==> r == []
    ensures routeName in catalog ==> catalog[routeName].arrival <= r
  {
    if routeName !in catalog then []
    else Assemble(catalog[routeName], waitAtAirport, stayAtDestination)
  }

  /** The exported entry point, over the shipped catalogue, with its defaults. */
  function GetCompleteRoute(routeName: string, waitAtAirport: bool := true, stayAtDestination: bool := false): (r: seq<Coord>)
    ensures routeName !in FlightRoutes ==> r == []
    ensures routeName in FlightRoutes ==> |r| > 0 && r[0] == LoganAirport
  {
    FlightRoutesShape();
    CompleteRoute(FlightRoutes, routeName, waitAtAirport, stayAtDestination)
  }

  // ---------------------------------------------------------------------------
  // The three branches for a known route

  /** Staying at the destination: the arrival followed by 20 copies of the origin. */
  lemma StayAtDestinationPath(catalog: Catalog, routeName: string, waitAtAirport: bool)
    requires routeName in catalog && |catalog[routeName].departure| == 1
    ensures var arrival, r := catalog[routeName].arrival, CompleteRoute(catalog, routeName, waitAtAirport, true);
      |r| == |arrival| + 20 && r[..|arrival|] == arrival &&
      forall i :: |arrival| <= i < |r| ==> r[i] == LoganAirport
  {
  }

  /** Without a wait: the arrival followed by the departure minus its first point. */
  lemma NoWaitPath(catalog: Catalog, routeName: string, stayAtDestination: bool)
    requires routeName in catalog
    requires !(stayAtDestination && |catalog[routeName].departure| == 1)
    ensures var arrival, departure := catalog[routeName].arrival, catalog[routeName].departure;
      var r := CompleteRoute(catalog, routeName, false, stayAtDestination);
      (if |departure| == 0 then r == arrival else |r| == |arrival| + |departure| - 1) &&
      r[..|arrival|] == arrival &&
      forall i :: 0 < i < |departure| ==> r[|arrival| + i - 1] == departure[i]
  {
  }

  /** With the wait (the default): the arrival, 10 copies of the origin, then
      the departure minus its first point. */
  lemma WaitAtAirportPath(catalog: Catalog, routeName: string, stayAtDestination: bool)
    requires routeName in catalog
    requires !(stayAtDestination && |catalog[routeName].departure| == 1)
    ensures var arrival, departure := catalog[routeName].arrival, catalog[routeName].departure;
      var r := CompleteRoute(catalog, routeName, true, stayAtDestination);
      (if |departure| == 0 then |r| == |arrival| + 10 else |r| == |arrival| + 10 + |departure| - 1) &&
      r[..|arrival|] == arrival &&
      (forall i :: |arrival| <= i < |arrival| + 10 ==> r[i] == LoganAirport) &&
      forall i :: 0 < i < |departure| ==> r[|arrival| + 10 + i - 1] == departure[i]
  {
  }

  /** Asking to stay at the destination changes nothing unless the departure is a single point. */
  lemma StayIgnoredUnlessSinglePoint(catalog: Catalog, routeName: string, waitAtAirport: bool)
    requires routeName !in catalog || |catalog[routeName].departure| != 1
    ensures CompleteRoute(catalog, routeName, waitAtAirport, true) == CompleteRoute(catalog, routeName, waitAtAirport, false)
  {
  }

  /** The only path of a known route that waits is the no-wait path with the
      dwell inserted right after the arrival. */
  lemma WaitInsertsDwellAfterArrival(catalog: Catalog, routeName: string, stayAtDestination: bool)
    requires routeName in catalog
    requires !(stayAtDestination && |catalog[routeName].departure| == 1)
    ensures var n := |catalog[routeName].arrival|;
      var noWait := CompleteRoute(catalog, routeName, false, stayAtDestination);
      CompleteRoute(catalog, routeName, true, stayAtDestination) ==
        noWait[..n] + Fill(LoganAirport, AirportWaitPoints) + noWait[n..]
  {
  }

  // ---------------------------------------------------------------------------
  // Catalogues shaped like the shipped one

  /** Every arrival is the origin alone and every departure starts at the origin. */
  ghost predicate ShapedLikeShipped(catalog: Catalog) {
    forall name :: name in catalog ==>
      catalog[name].arrival == [LoganAirport] &&
      |catalog[name].departure| > 0 && catalog[name].departure[0] == LoganAirport
  }

  /** Every arrival is non-empty: then the path is empty exactly for unknown names. */
  lemma EmptyExactlyWhenUnknown(catalog: Catalog, routeName: string, waitAtAirport: bool, stayAtDestination: bool)
    requires forall name :: name in catalog ==> |catalog[name].arrival| > 0
    ensures CompleteRoute(catalog, routeName, waitAtAirport, stayAtDestination) == [] <==> routeName !in catalog
  {
  }

  /** On such a catalogue the stay branch fills with copies of the departure's
      last point, i.e. of the destination, since that point is the origin. */
  lemma StayFillIsDestination(catalog: Catalog, routeName: string, waitAtAirport: bool)
    requires ShapedLikeShipped(catalog)
    requires routeName in catalog && |catalog[routeName].departure| == 1
    ensures var departure := catalog[routeName].departure;
      CompleteRoute(catalog, routeName, waitAtAirport, true) ==
        catalog[routeName].arrival + Fill(departure[|departure| - 1], DestinationStayPoints)
  {
  }

  /** Off such a catalogue the fill is the airport, not the destination: a
      route whose one departure point lies elsewhere still ends at Logan. */
  lemma StayFillIsAirportNotDestination()
    ensures var destination := Coord(1, 2);
      var catalog := map["r" := Route([LoganAirport], [destination])];
      var r := CompleteRoute(catalog, "r", true, true);
      r[1] == LoganAirport && r != catalog["r"].arrival + Fill(destination, DestinationStayPoints)
  {
    var destination := Coord(1, 2);
    var catalog := map["r" := Route([LoganAirport], [destination])];
    var r := CompleteRoute(catalog, "r", true, true);
    StayAtDestinationPath(catalog, "r", true);
    assert r[1] == LoganAirport;
    assert (catalog["r"].arrival + Fill(destination, DestinationStayPoints))[1] == destination;
  }

  /** With the defaults, positions 0..10 are the origin and the path ends where the departure ends. */
  lemma DefaultPathShape(catalog: Catalog, routeName: string)
    requires ShapedLikeShipped(catalog) && routeName in catalog
    ensures var departure, r := catalog[routeName].departure, CompleteRoute(catalog, routeName, true, false);
      |r| == 10 + |departure| &&
      (forall i :: 0 <= i <= 10 ==> r[i] == LoganAirport) &&
      r[|r| - 1] == departure[|departure| - 1]
  {
  }

  // ---------------------------------------------------------------------------
  // The shipped catalogue

  /** The shipped catalogue has its two routes, both shaped as above, neither with a single-point departure. */
  lemma FlightRoutesShape()
    ensures FlightRoutes.Keys == {"loganToHullSmooth", "loganToGloucester"}
    ensures ShapedLikeShipped(FlightRoutes)
    ensures |FlightRoutes["loganToHullSmooth"].departure| == 58
    ensures |FlightRoutes["loganToGloucester"].departure| == 82
  {
    forall name | name in FlightRoutes
      ensures name == "loganToHullSmooth" || name == "loganToGloucester"
    {
    }
  }

  /** With the shipped data the stay-at-destination branch never fires. */
  lemma ShippedStayNeverFires(routeName: string, waitAtAirport: bool)
    ensures GetCompleteRoute(routeName, waitAtAirport, true) == GetCompleteRoute(routeName, waitAtAirport, false)
  {
  }

  /** The Hull route with the defaults: 68 waypoints, the first 11 at Logan, the last at Hull. */
  lemma HullDefaultPath()
    ensures var r := GetCompleteRoute("loganToHullSmooth");
      |r| == 68 &&
      (forall i :: 0 <= i <= 10 ==> r[i] == LoganAirport) &&
      r[67] == Coord(-70827028, 42238021)
  {
    FlightRoutesShape();
    DefaultPathShape(FlightRoutes, "loganToHullSmooth");
    WaitAtAirportPath(FlightRoutes, "loganToHullSmooth", false);
    assert HullDeparture[57] == Coord(-70827028, 42238021);
  }

  /** The Gloucester route without a wait: 82 waypoints, from Logan to Cape Ann. */
  lemma GloucesterNoWaitPath()
    ensures var r := GetCompleteRoute("loganToGloucester", false);
      |r| == 82 && r[0] == LoganAirport &&
      r[81] == Coord(-70859136, 42603925)
  {
    FlightRoutesShape();
    NoWaitPath(FlightRoutes, "loganToGloucester", false);
    assert GloucesterDeparture[81] == Coord(-70859136, 42603925);
  }

  /** The usage example's route name is not in the catalogue, so it yields the empty path. */
  lemma UsageExampleIsEmpty()
    ensures GetCompleteRoute("westArrival") == []
  {
  }

  // ---------------------------------------------------------------------------
  // The lookup as written. `flightRoutes[routeName]` reads any property of a
  // plain JavaScript object, including those inherited from Object.prototype.
  // Such a property is truthy, passes the "not found" guard, and has no
  // `arrival` or `departure`, so the assembler then fails with a TypeError
  // instead of returning the empty path. `CompleteRoute` above is the
  // intended behaviour, which looks only at the catalogue's own routes.

  /** The property names every plain object inherits from Object.prototype. */
  const ObjectPrototypeMembers: set<string> := {
    "__proto__", "constructor", "hasOwnProperty", "isPrototypeOf",
    "propertyIsEnumerable", "toLocaleString", "toString", "valueOf",
    "__defineGetter__", "__defineSetter__", "__lookupGetter__", "__lookupSetter__"
  }

  /** What a property read on the catalogue object yields. */
  datatype Property = Undefined | OwnRoute(route: Route) | InheritedMember

  function GetProperty(catalog: Catalog, name: string): (v: Property)
    ensures v.OwnRoute? <==> name in catalog
    ensures v.OwnRoute? ==> v.route == catalog[name]
    ensures v.InheritedMember? <==> name !in catalog && name in ObjectPrototypeMembers
    ensures v.Undefined? <==> name !in catalog && name !in ObjectPrototypeMembers
  {
    if name in catalog then OwnRoute(catalog[name])
    else if name in ObjectPrototypeMembers then InheritedMember
    else Undefined
  }

  /** How a call ends: with a path, or with an uncaught TypeError. */
  datatype Completion = Normal(path: seq<Coord>) | TypeError

  /** The assembler as written. For an inherited member both `arrival` and
      `departure` are undefined: `departure.length` fails when staying is
      asked for, and spreading `arrival` fails otherwise. */
  function CompleteRouteAsWritten(catalog: Catalog, routeName: string, waitAtAirport: bool, stayAtDestination: bool): (c: Completion)
    ensures c.TypeError? <==> routeName !in catalog && routeName in ObjectPrototypeMembers
  {
    match GetProperty(catalog, routeName)
    case Undefined => Normal([])
    case InheritedMember => TypeError
    case OwnRoute(route) => Normal(Assemble(route, waitAtAirport, stayAtDestination))
  }

  /** On every other name the code as written and the intended assembler agree. */
  lemma AsWrittenAgreesOffPrototype(catalog: Catalog, routeName: string, waitAtAirport: bool, stayAtDestination: bool)
    requires routeName in catalog || routeName !in ObjectPrototypeMembers
    ensures CompleteRouteAsWritten(catalog, routeName, waitAtAirport, stayAtDestination) ==
      Normal(CompleteRoute(catalog, routeName, waitAtAirport, stayAtDestination))
  {
  }

  /** `getCompleteRoute('toString')` is not a route of the shipped catalogue,
      yet it throws instead of yielding the empty path the intended assembler gives. */
  lemma ToStringThrowsAsWritten()
    ensures "toString" !in FlightRoutes
    ensures CompleteRouteAsWritten(FlightRoutes, "toString", true, false) == TypeError
    ensures GetCompleteRoute("toString") == []
  {
  }
}
