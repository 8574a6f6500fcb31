/** The lookup indexes over a parsed static feed. */
module Gtfs {
  import opened Strings
  import opened Sampling

  datatype Agency = Agency(id: string, name: string)
  datatype Route = Route(id: string, agency: Option<Agency>)
  datatype Trip = Trip(id: string, route: Option<Route>)

  /** `gtfs.Static`, as far as the program reads it; `None` is a nil link. */
  datatype Static = Static(agencies: seq<Agency>, routes: seq<Route>, trips: seq<Trip>, stops: nat)

  datatype ParsedStatic = ParsedStatic(
    static_: Static,
    agencyIDs: seq<string>,
    agencyNames: map<string, string>,
    tripAgency: map<string, string>,
    routeAgency: map<string, string>
  ) {
    function AgencyForTrip(tripID: string): Option<string> {
      if tripID in tripAgency then Some(tripAgency[tripID]) else None
    }

    function AgencyForRoute(routeID: string): Option<string> {
      if routeID in routeAgency then Some(routeAgency[routeID]) else None
    }
  }

  /* ----- Linear scans, from the last entry backwards ----- */

  function AgencyOfRoute(routes: seq<Route>, id: string): Option<string> {
    if routes == [] then None
    else
      var r := routes[|routes| - 1];
      if r.id == id && r.agency.Some? then Some(r.agency.value.id) else AgencyOfRoute(routes[..|routes| - 1], id)
  }

  function AgencyOfTrip(trips: seq<Trip>, id: string): Option<string> {
    if trips == [] then None
    else
      var t := trips[|trips| - 1];
      if t.id == id && t.route.Some? && t.route.value.agency.Some? then Some(t.route.value.agency.value.id)
      else AgencyOfTrip(trips[..|trips| - 1], id)
  }

  function NameOfAgency(agencies: seq<Agency>, id: string): Option<string> {
    if agencies == [] then None
    else if agencies[|agencies| - 1].id == id then Some(agencies[|agencies| - 1].name)
    else NameOfAgency(agencies[..|agencies| - 1], id)
  }

  /** The scan finds the last entry with this id whose links are there. */
  lemma {:induction false} AgencyOfTripIsLast(trips: seq<Trip>, id: string)
    ensures match AgencyOfTrip(trips, id)
            case None => forall t <- trips :: t.id == id ==> t.route.None? || t.route.value.agency.None?
            case Some(a) =>
              exists i :: 0 <= i < |trips| && trips[i].id == id && trips[i].route.Some?
                && trips[i].route.value.agency.Some? && trips[i].route.value.agency.value.id == a
                && forall j :: i < j < |trips| && trips[j].id == id ==>
                     trips[j].route.None? || trips[j].route.value.agency.None?
    decreases |trips|
  {
    if trips != [] {
      AgencyOfTripIsLast(trips[..|trips| - 1], id);
    }
  }

  lemma {:induction false} AgencyOfRouteIsLast(routes: seq<Route>, id: string)
    ensures match AgencyOfRoute(routes, id)
            case None => forall r <- routes :: r.id == id ==> r.agency.None?
            case Some(a) =>
              exists i :: 0 <= i < |routes| && routes[i].id == id && routes[i].agency.Some? && routes[i].agency.value.id == a
                && forall j :: i < j < |routes| && routes[j].id == id ==> routes[j].agency.None?
    decreases |routes|
  {
    if routes != [] {
      AgencyOfRouteIsLast(routes[..|routes| - 1], id);
    }
  }

  /** The index agrees with the scans, for every feed and every id. */
  ghost predicate Indexes(p: ParsedStatic, s: Static) {
    && p.static_ == s
    && Ascending(p.agencyIDs)
    && (forall id :: id in p.agencyIDs <==> exists a <- s.agencies :: a.id == id)
    && (forall id :: id in p.agencyNames <==> id in p.agencyIDs)
    && (forall id <- p.agencyNames :: NameOfAgency(s.agencies, id) == Some(p.agencyNames[id]))
    && (forall id :: p.AgencyForRoute(id) == AgencyOfRoute(s.routes, id))
    && (forall id :: p.AgencyForTrip(id) == AgencyOfTrip(s.trips, id))
  }

  method IndexAgencies(agencies: seq<Agency>) returns (names: map<string, string>, ids: seq<string>)
    ensures forall id :: id in names <==> id in ids
    ensures forall id :: id in ids <==> exists a <- agencies :: a.id == id
    ensures forall id <- names :: NameOfAgency(agencies, id) == Some(names[id])
    ensures DistinctKeys(ids, Itself)
  {
    names := map[];
    var seen: set<string> := {};
    ids := [];
    for i := 0 to |agencies|
      invariant forall id :: id in seen <==> id in ids
      invariant forall id :: id in names <==> id in ids
      invariant forall id :: id in ids <==> exists a <- agencies[..i] :: a.id == id
      invariant forall id <- names :: NameOfAgency(agencies[..i], id) == Some(names[id])
      invariant DistinctKeys(ids, Itself)
    {
      var a := agencies[i];
      assert agencies[..i + 1] == agencies[..i] + [a] && agencies[..i + 1][..i] == agencies[..i];
      names := names[a.id := a.name];
      if a.id !in seen {
        seen := seen + {a.id};
        ids := ids + [a.id];
      }
    }
    assert agencies[..|agencies|] == agencies;
  }

  method IndexRoutes(routes: seq<Route>) returns (index: map<string, string>)
    ensures forall id :: (if id in index then Some(index[id]) else None) == AgencyOfRoute(routes, id)
  {
    index := map[];
    for i := 0 to |routes|
      invariant forall id :: (if id in index then Some(index[id]) else None) == AgencyOfRoute(routes[..i], id)
    {
      var r := routes[i];
      assert routes[..i + 1][..i] == routes[..i];
      if r.agency.Some? {
        index := index[r.id := r.agency.value.id];
      }
    }
    assert routes[..|routes|] == routes;
  }

  method IndexTrips(trips: seq<Trip>) returns (index: map<string, string>)
    ensures forall id :: (if id in index then Some(index[id]) else None) == AgencyOfTrip(trips, id)
  {
    index := map[];
    for i := 0 to |trips|
      invariant forall id :: (if id in index then Some(index[id]) else None) == AgencyOfTrip(trips[..i], id)
    {
      var t := trips[i];
      assert trips[..i + 1][..i] == trips[..i];
      if t.route.Some? && t.route.value.agency.Some? {
        index := index[t.id := t.route.value.agency.value.id];
      }
    }
    assert trips[..|trips|] == trips;
  }

  /** `parsedStaticFrom`. */
  method ParsedStaticFrom(s: Static) returns (p: ParsedStatic)
    ensures Indexes(p, s)
  {
    var names, ids := IndexAgencies(s.agencies);
    SortStringsStrict(ids);
    var routes := IndexRoutes(s.routes);
    var trips := IndexTrips(s.trips);
    p := ParsedStatic(s, SortStrings(ids), names, trips, routes);
  }
}
