# Logan Airport routes

A Dafny model of the route module of the aviation noise map
(`src/lib/aircraftComponents/AirportRoutes.js`). The module exports the Logan
Airport coordinate, a catalogue of two named flight routes (Logan to Hull and
Logan to Gloucester), each an `arrival` path and a `departure` path, and
`getCompleteRoute`, which assembles one ordered waypoint path for the
animation layer:

- an unknown route name gives the empty path;
- when staying at the destination is asked for and the departure is a single
  point, the path is the arrival followed by 20 copies of the airport;
- without the wait at the airport, the path is the arrival followed by the
  departure minus its first point (which repeats the airport);
- by default, the arrival, 10 copies of the airport, then the departure minus
  its first point.

Everything lives in `airport_routes.dfy`, module `AirportRoutes`. The source is
pure, so the model is functions over `seq` and lemmas about them. Waypoints are
`Coord` values holding longitude and latitude in millionths of a degree. Every
shipped coordinate has at most six decimals, so the tables are reproduced
exactly. The shipped catalogue is the constant `FlightRoutes`, a
`map<string, Route>`. The assembler is stated over an arbitrary catalogue
(`CompleteRoute`), so the stay-at-destination branch, which the shipped data
never reaches, is covered too. `GetCompleteRoute` is the exported entry point
over `FlightRoutes`, with the same defaults (`waitAtAirport := true`,
`stayAtDestination := false`). It looks names up among the catalogue's own
routes only. On the twelve names every JavaScript object inherits from
Object.prototype it therefore returns the empty path, where the source throws;
`CompleteRouteAsWritten` models that behaviour (see "## Findings"). The airport
is the constant `LoganAirport`, (-71.0096, 42.3656), as at
src/lib/aircraftComponents/AirportRoutes.js:7; the catalogue constant is pinned
down by `FlightRoutesShape`.

The comment above the stay branch speaks of copies of the destination point,
while the code fills with the airport coordinate. The model follows the code.
`StayFillIsDestination` shows the two agree on any catalogue shaped like the
shipped one: there, a single-point departure is the airport itself.
`StayFillIsAirportNotDestination` shows they differ elsewhere: a route whose one
departure point is not the airport still gets copies of the airport.

## Model

| member | source | states |
|---|---|---|
| `AirportRoutes.Fill` | src/lib/aircraftComponents/AirportRoutes.js:195 | `Array(n).fill(c)` has exactly n elements, every one equal to c |
| `AirportRoutes.SliceFromOne` | src/lib/aircraftComponents/AirportRoutes.js:191 | `slice(1)` of an empty array is empty; otherwise it is one shorter and element i is the original element i+1 |
| `AirportRoutes.Assemble` | src/lib/aircraftComponents/AirportRoutes.js:180-197 | for a known route, in every branch, the arrival is a prefix of the path, and every waypoint of the path is the airport or a point of the route's arrival or departure (points are only copied) |
| `AirportRoutes.CompleteRoute` | src/lib/aircraftComponents/AirportRoutes.js:174-198 | a name that is not a route of the catalogue yields the empty path; a known name yields a path that starts with its arrival |
| `AirportRoutes.GetCompleteRoute` | src/lib/aircraftComponents/AirportRoutes.js:174 | over the shipped catalogue, an unknown name yields the empty path and a known one a non-empty path starting at Logan |
| `AirportRoutes.StayAtDestinationPath` | src/lib/aircraftComponents/AirportRoutes.js:183-187 | staying with a one-point departure gives the arrival followed by exactly 20 copies of the airport, length \|arrival\| + 20, whatever `waitAtAirport` is |
| `AirportRoutes.NoWaitPath` | src/lib/aircraftComponents/AirportRoutes.js:190-191 | without the wait (stay branch not taken), the path is the arrival followed by departure[1..], of length \|arrival\| + \|departure\| - 1 (just the arrival for an empty departure) |
| `AirportRoutes.WaitAtAirportPath` | src/lib/aircraftComponents/AirportRoutes.js:195-197 | with the wait, the path is the arrival, 10 copies of the airport, then departure[1..], of length \|arrival\| + 10 + \|departure\| - 1 |
| `AirportRoutes.WaitInsertsDwellAfterArrival` | src/lib/aircraftComponents/AirportRoutes.js:190-197 | the waiting path is the no-wait path with the 10 airport copies inserted right after the arrival |
| `AirportRoutes.StayIgnoredUnlessSinglePoint` | src/lib/aircraftComponents/AirportRoutes.js:183 | `stayAtDestination` changes nothing unless the route is known and its departure has exactly one point |
| `AirportRoutes.EmptyExactlyWhenUnknown` | src/lib/aircraftComponents/AirportRoutes.js:175-178 | when every arrival is non-empty, the path is empty if and only if the name is not a route |
| `AirportRoutes.StayFillIsAirportNotDestination` | src/lib/aircraftComponents/AirportRoutes.js:184-185 | for a catalogue whose one-point departure is not the airport, the stay branch appends the airport, not copies of the destination the comment names |
| `AirportRoutes.StayFillIsDestination` | src/lib/aircraftComponents/AirportRoutes.js:184-186 | when every departure starts at the airport, the stay branch appends 20 copies of the departure's last point, as the comment says |
| `AirportRoutes.DefaultPathShape` | src/lib/aircraftComponents/AirportRoutes.js:195-197 | with arrival = [airport] and departures starting at the airport, the default path has length 10 + \|departure\|, positions 0 to 10 are the airport and its last point is the departure's last point |
| `AirportRoutes.FlightRoutesShape` | src/lib/aircraftComponents/AirportRoutes.js:13-171 | the shipped catalogue holds exactly `loganToHullSmooth` and `loganToGloucester`, each arrival is [Logan], each departure starts at Logan, with 58 and 82 points |
| `AirportRoutes.ShippedStayNeverFires` | src/lib/aircraftComponents/AirportRoutes.js:183 | on the shipped catalogue `stayAtDestination` never changes the result |
| `AirportRoutes.HullDefaultPath` | src/lib/aircraftComponents/AirportRoutes.js:19-77 | the Hull route with defaults has 68 points, the first 11 at Logan and the last (-70.827028, 42.238021) |
| `AirportRoutes.GloucesterNoWaitPath` | src/lib/aircraftComponents/AirportRoutes.js:86-168 | the Gloucester route without the wait has 82 points, from Logan to (-70.859136, 42.603925) |
| `AirportRoutes.UsageExampleIsEmpty` | src/lib/aircraftComponents/AirportRoutes.js:201 | the usage example's `westArrival` is not a route, so it yields the empty path |
| `AirportRoutes.GetProperty` | src/lib/aircraftComponents/AirportRoutes.js:175-180 | the read `flightRoutes[routeName]` yields the catalogue's own route when the name is one, else an inherited (truthy) member for the twelve Object.prototype names, else undefined |
| `AirportRoutes.CompleteRouteAsWritten` | src/lib/aircraftComponents/AirportRoutes.js:175-180 | the code as written ends in a TypeError exactly for names that are not routes but are inherited members of a plain object |
| `AirportRoutes.AsWrittenAgreesOffPrototype` | src/lib/aircraftComponents/AirportRoutes.js:175-178 | on every other name, the code as written returns the intended path |
| `AirportRoutes.ToStringThrowsAsWritten` | src/lib/aircraftComponents/AirportRoutes.js:175 | `toString` is not a shipped route, yet the code as written throws for it, while the intended assembler yields the empty path |

## Left out

- The diagnostic that `getCompleteRoute` logs for an unknown name is a side effect only. The model returns the empty path.
- `airportStayDuration` (three minutes) is an exported timing hint that nothing in the module reads.
- Coordinates are JavaScript doubles. The model holds them as exact integers in millionths of a degree. This loses nothing, because the module only copies them and never computes with them.
- `Array(n).fill(loganAirport)` repeats one shared array object n times. The model has values, not references, so that aliasing is not captured.
- A `routeName` that is not a string is coerced to one by JavaScript, and `waitAtAirport` and `stayAtDestination` may be any value, tested for truthiness (`0`, `null` and `''` are false; an explicit `undefined` takes the default). The model takes a string name and two `bool` flags only.
- The catalogue is never modified, and equal calls return equal paths. Both hold by construction here and are not stated as lemmas: the catalogue is a `const`, and a Dafny function is deterministic.
- `generate_town_boundaries.py` and `simplified_noise_generator.py` are not part of this model. They are file and JSON plumbing around geometry-library and random-sampling calls.

## Findings

| source | as written | input that shows it | evidently intended | confidence | as-written member | corrected member |
|---|---|---|---|---|---|---|
| src/lib/aircraftComponents/AirportRoutes.js:175 | `!flightRoutes[routeName]` also reads properties inherited from Object.prototype. These are truthy, so the name passes the guard. `arrival` and `departure` are then undefined, and spreading `arrival` (or reading `departure.length`) throws a TypeError | `getCompleteRoute('toString')` (likewise `constructor`, `valueOf`, `__proto__`, ...) | any name that is not a route of the catalogue yields the empty path without throwing | high; not executed | `AirportRoutes.CompleteRouteAsWritten` with `AirportRoutes.ToStringThrowsAsWritten` | `AirportRoutes.CompleteRoute` (used by `GetCompleteRoute`) |
