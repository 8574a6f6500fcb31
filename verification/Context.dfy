/** What the checks see: prepared feeds, and an API server whose replies are arbitrary. */
module Context {
  import opened Strings
  import opened Gtfs

  /* ----- Realtime feeds; `None` is a nil pointer ----- */

  datatype VehicleID = VehicleID(id: string, title: string)
  datatype TripRef = TripRef(id: string, routeID: string)
  datatype Position = Position(latitude: Option<real>, longitude: Option<real>)
  datatype Vehicle = Vehicle(id: Option<VehicleID>, trip: Option<TripRef>, position: Option<Position>)

  /** `predicted` when the update carries an arrival or a departure. */
  datatype StopTimeUpdate = StopTimeUpdate(stopID: Option<string>, predicted: bool)
  datatype TripUpdate = TripUpdate(trip: TripRef, updates: seq<StopTimeUpdate>)

  /** The stop ids of the alert's informed entities. */
  datatype Alert = Alert(id: string, stopIDs: seq<Option<string>>)

  datatype Realtime = Realtime(createdAt: Option<int>, vehicles: seq<Vehicle>, trips: seq<TripUpdate>, alerts: seq<Alert>)

  /** One data source after preparation. */
  datatype Source = Source(
    title: string,
    agencyMapping: map<string, string>,
    static_: Option<ParsedStatic>,
    vehiclePositions: Option<Realtime>,
    tripUpdates: Option<Realtime>,
    serviceAlerts: Option<Realtime>,
    prepErrors: map<string, string>
  ) {
    /** `MapAgency`: the mapped id, or the id itself and `false`. */
    function MapAgency(gtfsID: string): (string, bool) {
      if gtfsID in agencyMapping then (agencyMapping[gtfsID], true) else (gtfsID, false)
    }
  }

  class SourceContext {
    const title: string
    const agencyMapping: map<string, string>
    var static_: Option<ParsedStatic>
    var vehiclePositions: Option<Realtime>
    var tripUpdates: Option<Realtime>
    var serviceAlerts: Option<Realtime>
    var prepErrors: map<string, string>

    constructor (i: nat, agencyMapping: map<string, string>)
      ensures View() == Source(SourceLabel(i), agencyMapping, None, None, None, None, map[])
    {
      title, this.agencyMapping := SourceLabel(i), agencyMapping;
      static_, vehiclePositions, tripUpdates, serviceAlerts := None, None, None, None;
      prepErrors := map[];
    }

    function View(): Source
      reads this
    {
      Source(title, agencyMapping, static_, vehiclePositions, tripUpdates, serviceAlerts, prepErrors)
    }

    /** `prepErr`: the latest error of one feed; the other feeds keep theirs. */
    method PrepErr(feed: string, err: string)
      modifies this`prepErrors
      ensures View() == old(View()).(prepErrors := old(prepErrors)[feed := err])
    {
      prepErrors := prepErrors[feed := err];
    }
  }

  /* ----- The OBA server ----- */

  /** An API call fails, gives a null body, or gives data. */
  datatype Reply<+T> = Failed(error: string) | Null | Got(value: T)

  predicate GotSome(r: Reply<seq<string>>) {
    r.Got? && r.value != []
  }

  datatype Stop = Stop(id: string, lat: real, lon: real)
  datatype Nearby = Nearby(outOfRange: bool, stops: nat)
  datatype Arrival = Arrival(tripID: string, situationIDs: seq<string>)
  datatype Arrivals = Arrivals(arrivals: seq<Arrival>, situations: seq<string>)

  /** Any behaviour: every reply depends on the number of the call and on its arguments. */
  datatype Server = Server(
    agencies: nat -> Reply<seq<string>>,
    currentTime: nat -> Reply<int>,
    routesForAgency: (nat, string) -> Reply<seq<string>>,
    stopsForRoute: (nat, string) -> Reply<seq<string>>,
    stop: (nat, string) -> Reply<Stop>,
    stopsForLocation: (nat, real, real) -> Reply<Nearby>,
    arrivals: (nat, string) -> Reply<Arrivals>,
    vehiclesForAgency: (nat, string) -> Reply<seq<string>>,
    tripForVehicle: (nat, string) -> Reply<string>,
    tripsForLocation: (nat, real, real) -> Reply<seq<string>>
  )

  /** The SDK client; `calls` counts the logical calls made so far. */
  class Client {
    const server: Server
    var calls: nat

    constructor (server: Server)
      ensures this.server == server && calls == 0
    {
      this.server, calls := server, 0;
    }

    method AgenciesWithCoverage() returns (r: Reply<seq<string>>)
      modifies this
      ensures calls == old(calls) + 1 && r == server.agencies(old(calls))
    {
      r := server.agencies(calls);
      calls := calls + 1;
    }

    method CurrentTime() returns (r: Reply<int>)
      modifies this
      ensures calls == old(calls) + 1 && r == server.currentTime(old(calls))
    {
      r := server.currentTime(calls);
      calls := calls + 1;
    }

    method RoutesForAgency(agencyID: string) returns (r: Reply<seq<string>>)
      modifies this
      ensures calls == old(calls) + 1 && r == server.routesForAgency(old(calls), agencyID)
    {
      r := server.routesForAgency(calls, agencyID);
      calls := calls + 1;
    }

    method StopsForRoute(routeID: string) returns (r: Reply<seq<string>>)
      modifies this
      ensures calls == old(calls) + 1 && r == server.stopsForRoute(old(calls), routeID)
    {
      r := server.stopsForRoute(calls, routeID);
      calls := calls + 1;
    }

    method GetStop(stopID: string) returns (r: Reply<Stop>)
      modifies this
      ensures calls == old(calls) + 1 && r == server.stop(old(calls), stopID)
    {
      r := server.stop(calls, stopID);
      calls := calls + 1;
    }

    method StopsForLocation(lat: real, lon: real) returns (r: Reply<Nearby>)
      modifies this
      ensures calls == old(calls) + 1 && r == server.stopsForLocation(old(calls), lat, lon)
    {
      r := server.stopsForLocation(calls, lat, lon);
      calls := calls + 1;
    }

    method ArrivalsForStop(stopID: string) returns (r: Reply<Arrivals>)
      modifies this
      ensures calls == old(calls) + 1 && r == server.arrivals(old(calls), stopID)
    {
      r := server.arrivals(calls, stopID);
      calls := calls + 1;
    }

    method VehiclesForAgency(agencyID: string) returns (r: Reply<seq<string>>)
      modifies this
      ensures calls == old(calls) + 1 && r == server.vehiclesForAgency(old(calls), agencyID)
    {
      r := server.vehiclesForAgency(calls, agencyID);
      calls := calls + 1;
    }

    method TripForVehicle(vehicleID: string) returns (r: Reply<string>)
      modifies this
      ensures calls == old(calls) + 1 && r == server.tripForVehicle(old(calls), vehicleID)
    {
      r := server.tripForVehicle(calls, vehicleID);
      calls := calls + 1;
    }

    method TripsForLocation(lat: real, lon: real) returns (r: Reply<seq<string>>)
      modifies this
      ensures calls == old(calls) + 1 && r == server.tripsForLocation(old(calls), lat, lon)
    {
      r := server.tripsForLocation(calls, lat, lon);
      calls := calls + 1;
    }
  }
}
