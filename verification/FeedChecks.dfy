/** What the checks read from the prepared feeds alone: the agency of a trip, and the two
    checks that make no call. */
module FeedChecks {
  import opened Strings
  import opened Gtfs
  import opened Results
  import opened Context

  /* ----- Which agency runs a trip ----- */

  /** The join over the indexes: the trip's agency, else the agency of the route the feed
      names, under its API id. */
  function TripAgency(src: Source, trip: TripRef): (r: Option<string>)
    ensures r.Some? ==> src.static_.Some?
  {
    if src.static_.None? then None
    else
      match src.static_.value.AgencyForTrip(trip.id)
      case Some(gid) => Some(src.MapAgency(gid).0)
      case None =>
        if trip.routeID == "" then None
        else
          match src.static_.value.AgencyForRoute(trip.routeID)
          case Some(gid) => Some(src.MapAgency(gid).0)
          case None => None
  }

  /** What the static feed itself says, by scanning it. */
  function FeedAgency(feed: Static, trip: TripRef): Option<string> {
    var byTrip := AgencyOfTrip(feed.trips, trip.id);
    if byTrip.Some? || trip.routeID == "" then byTrip else AgencyOfRoute(feed.routes, trip.routeID)
  }

  /** The join gives the API id of the agency that the feed says: the mapped one if the id is
      mapped, else the id itself. */
  lemma JoinFollowsFeed(src: Source, trip: TripRef, feed: Static)
    requires src.static_.Some? && Indexes(src.static_.value, feed)
    ensures TripAgency(src, trip).Some? <==> FeedAgency(feed, trip).Some?
    ensures FeedAgency(feed, trip).Some? ==>
              var gid := FeedAgency(feed, trip).value;
              TripAgency(src, trip).value == if gid in src.agencyMapping then src.agencyMapping[gid] else gid
  {
    var p := src.static_.value;
    assert p.AgencyForTrip(trip.id) == AgencyOfTrip(feed.trips, trip.id);
    assert p.AgencyForRoute(trip.routeID) == AgencyOfRoute(feed.routes, trip.routeID);
  }

  /** Which agency the feed says: that of the last entry of the trip whose links are there; if
      there is none, that of the last entry of the named route whose link is there. */
  lemma FeedAgencyIsLast(feed: Static, trip: TripRef)
    ensures (exists t <- feed.trips :: t.id == trip.id && t.route.Some? && t.route.value.agency.Some?) ==>
              FeedAgency(feed, trip) == AgencyOfTrip(feed.trips, trip.id) && FeedAgency(feed, trip).Some?
    ensures !(exists t <- feed.trips :: t.id == trip.id && t.route.Some? && t.route.value.agency.Some?) ==>
              FeedAgency(feed, trip) == if trip.routeID == "" then None else AgencyOfRoute(feed.routes, trip.routeID)
  {
    AgencyOfTripIsLast(feed.trips, trip.id);
    AgencyOfRouteIsLast(feed.routes, trip.routeID);
  }

  /* ----- gtfs-sanity ----- */

  /** The static feed arrived, was parsed, and lacks none of its four tables. */
  predicate Sane(src: Source) {
    && "staticGtfs" !in src.prepErrors && src.static_.Some?
    && var s := src.static_.value.static_;
       s.agencies != [] && s.routes != [] && s.stops > 0 && s.trips != []
  }

  function SanityResults(src: Source): seq<Result> {
    [Plain("gtfs-sanity", src.title, if Sane(src) then Pass else Fail)]
  }

  /** `gtfsSanityCheck.Run`. */
  method GtfsSanity(src: Source) returns (out: seq<Result>)
    ensures out == SanityResults(src)
  {
    if "staticGtfs" in src.prepErrors || src.static_.None? {
      return [Plain("gtfs-sanity", src.title, Fail)];
    }
    var s := src.static_.value.static_;
    var missing: seq<string> := [];
    if s.agencies == [] {
      missing := missing + ["agencies"];
    }
    if s.routes == [] {
      missing := missing + ["routes"];
    }
    if s.stops == 0 {
      missing := missing + ["stops"];
    }
    if s.trips == [] {
      missing := missing + ["trips"];
    }
    return [Plain("gtfs-sanity", src.title, if missing != [] then Fail else Pass)];
  }

  /* ----- rt-freshness ----- */

  const FEEDS := ["vehiclePositions", "tripUpdates", "serviceAlerts"]

  function FeedAt(src: Source, i: nat): Option<Realtime>
    requires i < 3
  {
    if i == 0 then src.vehiclePositions else if i == 1 then src.tripUpdates else src.serviceAlerts
  }

  function FreshnessStatus(src: Source, i: nat, now: int, maxAge: int): (st: Status)
    requires i < 3
    ensures st == Fail <==>
      || FEEDS[i] in src.prepErrors
      || (&& FeedAt(src, i).Some? && FeedAt(src, i).value.createdAt.Some?
          && now - FeedAt(src, i).value.createdAt.value > maxAge)
    ensures st == Pass <==>
      && FEEDS[i] !in src.prepErrors && FeedAt(src, i).Some? && FeedAt(src, i).value.createdAt.Some?
      && var age := now - FeedAt(src, i).value.createdAt.value; -maxAge <= age <= maxAge
    ensures st != Skip
  {
    if FEEDS[i] in src.prepErrors then Fail
    else if FeedAt(src, i).None? || FeedAt(src, i).value.createdAt.None? then Warn
    else
      var age := now - FeedAt(src, i).value.createdAt.value;
      if age > maxAge then Fail else if age < -maxAge then Warn else Pass
  }

  /** `now` is read when feed `i` is judged. */
  function FreshnessResult(src: Source, i: nat, now: int, maxAge: int): Result
    requires i < 3
  {
    Plain("rt-freshness/" + FEEDS[i], src.title, FreshnessStatus(src, i, now, maxAge))
  }

  function FreshnessResults(src: Source, clock: nat -> int, maxAge: int): seq<Result> {
    [FreshnessResult(src, 0, clock(0), maxAge), FreshnessResult(src, 1, clock(1), maxAge),
     FreshnessResult(src, 2, clock(2), maxAge)]
  }

  /** `freshnessCheck.Run`. */
  method Freshness(src: Source, clock: nat -> int, maxAge: int) returns (out: seq<Result>)
    ensures out == FreshnessResults(src, clock, maxAge)
  {
    hide FreshnessResult;
    out := [];
    for i: nat := 0 to 3
      invariant out == FreshnessResults(src, clock, maxAge)[..i]
    {
      out := out + [FreshnessResult(src, i, clock(i), maxAge)];
    }
  }

  /** The three realtime feeds, each judged by its own error, feed and age. */
  lemma FreshnessMeans(src: Source, clock: nat -> int, maxAge: int)
    ensures var out := FreshnessResults(src, clock, maxAge);
            && |out| == 3
            && Judged(out[0], "rt-freshness/vehiclePositions", src, "vehiclePositions", src.vehiclePositions, clock(0), maxAge)
            && Judged(out[1], "rt-freshness/tripUpdates", src, "tripUpdates", src.tripUpdates, clock(1), maxAge)
            && Judged(out[2], "rt-freshness/serviceAlerts", src, "serviceAlerts", src.serviceAlerts, clock(2), maxAge)
  {
    FeedLiterals();
    ResultIsJudged(src, 0, clock(0), maxAge);
    ResultIsJudged(src, 1, clock(1), maxAge);
    ResultIsJudged(src, 2, clock(2), maxAge);
    hide Judged, FreshnessResult, FEEDS;
  }

  lemma FeedLiterals()
    ensures FEEDS[0] == "vehiclePositions" && "rt-freshness/" + FEEDS[0] == "rt-freshness/vehiclePositions"
    ensures FEEDS[1] == "tripUpdates" && "rt-freshness/" + FEEDS[1] == "rt-freshness/tripUpdates"
    ensures FEEDS[2] == "serviceAlerts" && "rt-freshness/" + FEEDS[2] == "rt-freshness/serviceAlerts"
  {
  }

  lemma ResultIsJudged(src: Source, i: nat, now: int, maxAge: int)
    requires i < 3
    ensures Judged(FreshnessResult(src, i, now, maxAge), "rt-freshness/" + FEEDS[i], src, FEEDS[i], FeedAt(src, i), now, maxAge)
  {
    hide FEEDS, FeedAt;
  }

  /** A failed or stale feed fails, a fresh one passes, anything else warns. */
  ghost predicate Judged(r: Result, check: string, src: Source, key: string, feed: Option<Realtime>, now: int, maxAge: int) {
    && r == Result(check, src.title, r.status, "", map[])
    && var stamped := key !in src.prepErrors && feed.Some? && feed.value.createdAt.Some?;
       var age := if stamped then now - feed.value.createdAt.value else 0;
       && (r.status == Fail <==> key in src.prepErrors || (stamped && age > maxAge))
       && (r.status == Pass <==> stamped && -maxAge <= age <= maxAge)
       && r.status != Skip
  }

  /** The sanity result in the feed's own terms. */
  lemma SanityMeans(src: Source)
    ensures var out := SanityResults(src);
            && |out| == 1 && out[0] == Result("gtfs-sanity", src.title, out[0].status, "", map[])
            && (out[0].status == Pass || out[0].status == Fail)
            && (out[0].status == Pass <==>
                  && "staticGtfs" !in src.prepErrors && src.static_.Some?
                  && src.static_.value.static_.agencies != [] && src.static_.value.static_.routes != []
                  && src.static_.value.static_.stops > 0 && src.static_.value.static_.trips != [])
  {
  }
}
