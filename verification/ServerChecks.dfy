/** The two checks of the whole server. */
module ServerChecks {
  import opened Strings
  import opened Gtfs
  import opened Results
  import opened Context

  /* ----- basic-endpoints: a chain in which every step needs the one before ----- */

  const STEPS := ["current-time", "agencies-with-coverage", "routes-for-agency", "stops-for-route",
                  "stop", "stops-for-location", "arrivals-and-departures-for-stop"]

  const HOUR_MS := 3600000

  function StepResult(i: nat, st: Status): Result
    requires i < 7
  {
    Plain("basic-endpoints/" + STEPS[i], "", st)
  }

  /** How many steps succeed when the calls start at number `c`. */
  function StepsPassed(sv: Server, c: nat, agencies: Reply<seq<string>>): (f: nat)
    ensures f <= 7
  {
    if !sv.currentTime(c).Got? then 0
    else if !GotSome(agencies) then 1
    else RouteStepsPassed(sv, c + 1, agencies.value[0])
  }

  function RouteStepsPassed(sv: Server, c: nat, agencyID: string): (f: nat)
    ensures 2 <= f <= 7
  {
    var routes := sv.routesForAgency(c, agencyID);
    if !GotSome(routes) then 2
    else
      var stops := sv.stopsForRoute(c + 1, routes.value[0]);
      if !GotSome(stops) then 3 else StopStepsPassed(sv, c + 2, stops.value[0])
  }

  function StopStepsPassed(sv: Server, c: nat, stopID: string): (f: nat)
    ensures 4 <= f <= 7
    ensures f == 7 ==> sv.arrivals(c + 2, stopID).Got?
  {
    var stop := sv.stop(c, stopID);
    if !(stop.Got? && stop.value.id == stopID) then 4
    else
      var near := sv.stopsForLocation(c + 1, stop.value.lat, stop.value.lon);
      if !(near.Got? && !near.value.outOfRange && near.value.stops > 0) then 5
      else if !sv.arrivals(c + 2, stopID).Got? then 6
      else 7
  }

  /** The calls of a chain in which `f` steps succeed. */
  function StepCalls(f: nat): (n: nat)
    requires f <= 7
    ensures n <= 6
  {
    if f == 0 then 1 else if f == 7 then 6 else f
  }

  /** The first `k` steps are recorded and none has failed. */
  predicate Passed(out: seq<Result>, k: nat) {
    k <= 7 && |out| == k
    && forall i :: 0 <= i < k ==>
         out[i] == StepResult(i, out[i].status) && (out[i].status == Pass || (out[i].status == Warn && (i == 0 || i == 6)))
  }

  /** Steps before the first failure pass or warn, that one fails, the rest is skipped. */
  predicate ChainShape(out: seq<Result>, f: nat) {
    && |out| == 7 && f <= 7 && Passed(out[..f], f)
    && forall i :: f <= i < 7 ==> out[i] == StepResult(i, if i == f then Fail else Skip)
  }

  /** Records the failure of step `f` and a skip for each of `remaining`. */
  method FailAndSkip(passed: seq<Result>, f: nat, remaining: seq<string>) returns (out: seq<Result>)
    requires f < 7 && Passed(passed, f) && remaining == STEPS[f + 1..]
    ensures ChainShape(out, f) && out[..f] == passed
  {
    out := passed + [StepResult(f, Fail)];
    for k := 0 to |remaining|
      invariant |out| == f + 1 + k && out[..f] == passed
      invariant forall i :: f <= i < f + 1 + k ==> out[i] == StepResult(i, if i == f then Fail else Skip)
    {
      out := out + [Plain("basic-endpoints/" + remaining[k], "", Skip)];
    }
  }

  function ClockStatus(serverTime: int, now: int): Status {
    var skew := if now - serverTime < 0 then serverTime - now else now - serverTime;
    if skew > HOUR_MS then Warn else Pass
  }

  function BoardStatus(a: Arrivals): Status {
    if a.arrivals == [] then Warn else Pass
  }

  method Record(out: seq<Result>, k: nat, st: Status) returns (r: seq<Result>)
    requires k < 7 && Passed(out, k) && (st == Pass || (st == Warn && (k == 0 || k == 6)))
    ensures r == out + [StepResult(k, st)] && Passed(r, k + 1) && |out| == k && r[k].status == st
  {
    r := out + [StepResult(k, st)];
  }

  /** The last three steps, all about one stop. */
  method StopChain(client: Client, stopID: string, passed: seq<Result>, rest: seq<string>) returns (out: seq<Result>)
    requires Passed(passed, 4) && rest == STEPS[4..]
    modifies client
    ensures var f := StopStepsPassed(client.server, old(client.calls), stopID);
            && ChainShape(out, f) && out[..4] == passed
            && client.calls == old(client.calls) + (if f == 7 then 3 else f - 3)
            && (f == 7 ==> out[6].status == if client.server.arrivals(old(client.calls) + 2, stopID).value.arrivals == [] then Warn else Pass)
  {
    assert |STEPS| == 7 && rest[1..] == STEPS[5..] && rest[1..][1..] == STEPS[6..] && rest[1..][1..][1..] == STEPS[7..];
    hide StepResult, STEPS, BoardStatus, ChainShape, Passed;
    var remaining := rest;
    out := passed;
    var stop := client.GetStop(stopID);
    if !stop.Got? || stop.value.id != stopID {
      out := FailAndSkip(out, 4, remaining[1..]);
      return;
    }
    out := Record(out, 4, Pass);
    remaining := remaining[1..];
    var near := client.StopsForLocation(stop.value.lat, stop.value.lon);
    if !near.Got? || near.value.outOfRange || near.value.stops == 0 {
      out := FailAndSkip(out, 5, remaining[1..]);
      return;
    }
    out := Record(out, 5, Pass);
    remaining := remaining[1..];
    var ad := client.ArrivalsForStop(stopID);
    if !ad.Got? {
      out := FailAndSkip(out, 6, remaining[1..]);
      return;
    }
    BoardMeans(ad.value);
    out := Record(out, 6, BoardStatus(ad.value));
    AllPassed(out);
  }

  lemma BoardMeans(a: Arrivals)
    ensures BoardStatus(a) == if a.arrivals == [] then Warn else Pass
  {
  }

  /** More than an hour of skew, either way, is a warning. */
  lemma ClockMeans(serverTime: int, now: int)
    ensures ClockStatus(serverTime, now) == if -3600000 <= now - serverTime <= 3600000 then Pass else Warn
  {
  }

  /** All steps succeed exactly when every reply gives what the next request needs. */
  lemma ChainCompletes(sv: Server, c: nat, agencies: Reply<seq<string>>)
    ensures StepsPassed(sv, c, agencies) == 7 <==>
      && sv.currentTime(c).Got?
      && agencies.Got? && agencies.value != []
      && var routes := sv.routesForAgency(c + 1, agencies.value[0]);
      && routes.Got? && routes.value != []
      && var stops := sv.stopsForRoute(c + 2, routes.value[0]);
      && stops.Got? && stops.value != []
      && var stop := sv.stop(c + 3, stops.value[0]);
      && stop.Got? && stop.value.id == stops.value[0]
      && var near := sv.stopsForLocation(c + 4, stop.value.lat, stop.value.lon);
      && near.Got? && !near.value.outOfRange && near.value.stops > 0
      && sv.arrivals(c + 5, stops.value[0]).Got?
  {
  }

  /** A chain as its reader sees it: seven results under the names of the steps; those before
      the failure pass, but for a skewed clock or an empty board; those after it are skipped. */
  lemma ChainReads(out: seq<Result>, f: nat, i: nat)
    requires ChainShape(out, f) && i < 7
    ensures |out| == 7
    ensures out[i] == Result("basic-endpoints/" + ["current-time", "agencies-with-coverage", "routes-for-agency", "stops-for-route",
                             "stop", "stops-for-location", "arrivals-and-departures-for-stop"][i], "", out[i].status, "", map[])
    ensures i < f ==> out[i].status == Pass || (out[i].status == Warn && (i == 0 || i == 6))
    ensures i == f ==> out[i].status == Fail
    ensures i > f ==> out[i].status == Skip
  {
    if i < f {
      assert out[..f][i] == out[i];
    }
  }

  lemma AllPassed(out: seq<Result>)
    requires Passed(out, 7)
    ensures ChainShape(out, 7) && |out| == 7
  {
    assert out[..7] == out;
  }

  /** The board of the first stop of the first route of the first agency. */
  function LastBoard(sv: Server, c: nat, agencies: Reply<seq<string>>): Arrivals
    requires GotSome(agencies) && RouteStepsPassed(sv, c, agencies.value[0]) == 7
  {
    var routes := sv.routesForAgency(c, agencies.value[0]);
    var stops := sv.stopsForRoute(c + 1, routes.value[0]);
    sv.arrivals(c + 4, stops.value[0]).value
  }

  /** The steps from the first agency's routes on. */
  method RouteChain(client: Client, agencyID: string, passed: seq<Result>, rest: seq<string>) returns (out: seq<Result>)
    requires Passed(passed, 2) && rest == STEPS[2..]
    modifies client
    ensures var f := RouteStepsPassed(client.server, old(client.calls), agencyID);
            && ChainShape(out, f) && out[..2] == passed
            && client.calls == old(client.calls) + (if f == 7 then 5 else f - 1)
    ensures RouteStepsPassed(client.server, old(client.calls), agencyID) == 7 ==>
              (out[6].status == Warn <==> LastBoard(client.server, old(client.calls), Got([agencyID])).arrivals == [])
              && (out[6].status == Warn || out[6].status == Pass)
  {
    assert |STEPS| == 7;
    hide StepResult, STEPS, StopStepsPassed, ChainShape, Passed;
    var remaining := rest;
    out := passed;
    var routes := client.RoutesForAgency(agencyID);
    if !GotSome(routes) {
      out := FailAndSkip(out, 2, remaining[1..]);
      return;
    }
    out := Record(out, 2, Pass);
    remaining := remaining[1..];
    var stops := client.StopsForRoute(routes.value[0]);
    if !GotSome(stops) {
      out := FailAndSkip(out, 3, remaining[1..]);
      return;
    }
    out := Record(out, 3, Pass);
    remaining := remaining[1..];
    out := StopChain(client, stops.value[0], out, remaining);
  }

  /** `endpointsCheck.Run`, for any replies: seven results in the order of the steps, and
      one call per step up to the first failure; the agency list was fetched before. */
  method Endpoints(client: Client, agencies: Reply<seq<string>>, now: int) returns (out: seq<Result>)
    modifies client
    ensures var f := StepsPassed(client.server, old(client.calls), agencies);
            && ChainShape(out, f)
            && client.calls == old(client.calls) + StepCalls(f)
    ensures StepsPassed(client.server, old(client.calls), agencies) > 0 ==>
              (out[0].status == Pass <==> -3600000 <= now - client.server.currentTime(old(client.calls)).value <= 3600000)
              && (out[0].status == Warn || out[0].status == Pass)
    ensures StepsPassed(client.server, old(client.calls), agencies) == 7 ==>
              (out[6].status == Warn <==> LastBoard(client.server, old(client.calls) + 1, agencies).arrivals == [])
              && (out[6].status == Warn || out[6].status == Pass)
  {
    assert |STEPS| == 7;
    hide STEPS, ClockStatus, RouteStepsPassed;
    out := [];
    var remaining := STEPS[1..];
    var ct := client.CurrentTime();
    if !ct.Got? {
      out := FailAndSkip(out, 0, remaining);
      return;
    }
    ClockMeans(ct.value, now);
    out := Record(out, 0, ClockStatus(ct.value, now));
    if !GotSome(agencies) {
      out := FailAndSkip(out, 1, remaining[1..]);
      return;
    }
    out := Record(out, 1, Pass);
    remaining := remaining[1..];
    out := RouteChain(client, agencies.value[0], out, remaining);
  }

  /* ----- agency-union ----- */

  /** A GTFS agency and the API id it should be served under. */
  datatype Expected = Expected(obaID: string, gtfsID: string, mapped: bool)

  function ExpectedOf(src: Source): seq<Expected> {
    if src.static_.None? then []
    else
      var ids := src.static_.value.agencyIDs;
      seq(|ids|, i requires 0 <= i < |ids| =>
        Expected(src.MapAgency(ids[i]).0, ids[i], src.MapAgency(ids[i]).1))
  }

  /** Every (source, GTFS agency) pair, in order. */
  function AllExpected(sources: seq<Source>): seq<Expected> {
    if sources == [] then []
    else AllExpected(sources[..|sources| - 1]) + ExpectedOf(sources[|sources| - 1])
  }

  function ObaIDs(exp: seq<Expected>): set<string> {
    set e <- exp :: e.obaID
  }

  function UnionStatus(e: Expected, served: set<string>): Status {
    if e.obaID in served then Pass else if e.mapped then Fail else Warn
  }

  method CollectExpected(sources: seq<Source>) returns (exp: seq<Expected>)
    ensures exp == AllExpected(sources)
  {
    exp := [];
    for i := 0 to |sources|
      invariant exp == AllExpected(sources[..i])
    {
      assert sources[..i + 1][..i] == sources[..i];
      var src := sources[i];
      if src.static_.Some? {
        ghost var before := exp;
        var ids := src.static_.value.agencyIDs;
        for j := 0 to |ids|
          invariant exp == before + ExpectedOf(src)[..j]
        {
          var m := src.MapAgency(ids[j]);
          exp := exp + [Expected(m.0, ids[j], m.1)];
          assert ExpectedOf(src)[..j + 1] == ExpectedOf(src)[..j] + [ExpectedOf(src)[j]];
        }
        assert ExpectedOf(src)[..|ids|] == ExpectedOf(src);
      }
    }
    assert sources[..|sources|] == sources;
  }

  /** The id of a served agency that no feed expects. */
  function Unexpected(id: string): Result {
    Result("agency-union", "", Warn, "", map["apiAgencyId" := id])
  }

  /** One result per expected agency, then one warning per entry of `surplus`. */
  ghost predicate IsUnion(out: seq<Result>, exp: seq<Expected>, served: set<string>, surplus: seq<string>) {
    && |out| == |exp| + |surplus|
    && (forall i :: 0 <= i < |exp| ==> out[i] == Plain("agency-union", "", UnionStatus(exp[i], served)))
    && (forall i :: 0 <= i < |surplus| ==> out[|exp| + i] == Unexpected(surplus[i]))
  }

  /** `surplus` lists the set once, in some order. */
  ghost predicate Lists(surplus: seq<string>, ids: set<string>) {
    (forall id :: id in surplus <==> id in ids) && |surplus| == |ids|
  }

  method CompareExpected(exp: seq<Expected>, served: set<string>) returns (out: seq<Result>, expectedSet: set<string>)
    ensures IsUnion(out, exp, served, []) && expectedSet == ObaIDs(exp)
  {
    out, expectedSet := [], {};
    for i := 0 to |exp|
      invariant |out| == i && forall j :: 0 <= j < i ==> out[j] == Plain("agency-union", "", UnionStatus(exp[j], served))
      invariant expectedSet == ObaIDs(exp[..i])
    {
      assert exp[..i + 1] == exp[..i] + [exp[i]];
      var e := exp[i];
      expectedSet := expectedSet + {e.obaID};
      if e.obaID in served {
        out := out + [Plain("agency-union", "", Pass)];
      } else if e.mapped {
        out := out + [Plain("agency-union", "", Fail)];
      } else {
        out := out + [Plain("agency-union", "", Warn)];
      }
    }
    assert exp[..|exp|] == exp;
  }

  /** One warning for each id of the set, in some order. */
  ghost predicate IsSurplus(out: seq<Result>, ids: set<string>) {
    exists surplus :: Lists(surplus, ids) && Names(out, surplus)
  }

  ghost predicate Names(out: seq<Result>, surplus: seq<string>) {
    |out| == |surplus| && forall i :: 0 <= i < |surplus| ==> out[i] == Unexpected(surplus[i])
  }

  lemma NothingListed()
    ensures Lists([], {})
  {
  }

  lemma ListsGrow(surplus: seq<string>, ids: set<string>, id: string)
    requires Lists(surplus, ids) && id !in ids
    ensures Lists(surplus + [id], ids + {id})
  {
  }

  /** Goes over the served agencies in the order in which the map happens to yield them. */
  method ListSurplus(served: set<string>, expectedSet: set<string>) returns (out: seq<Result>)
    ensures IsSurplus(out, served - expectedSet)
  {
    hide Lists;
    out := [];
    ghost var surplus: seq<string> := [];
    NothingListed();
    var left := served;
    assert served - expectedSet - left == {};
    while left != {}
      invariant left <= served
      invariant Names(out, surplus)
      invariant Lists(surplus, served - expectedSet - left)
      decreases left
    {
      var id :| id in left;
      ghost var done := served - expectedSet - left;
      left := left - {id};
      if id !in expectedSet {
        out := out + [Unexpected(id)];
        ListsGrow(surplus, done, id);
        surplus := surplus + [id];
        assert served - expectedSet - left == done + {id};
      } else {
        assert served - expectedSet - left == done;
      }
    }
    assert served - expectedSet - left == served - expectedSet;
  }

  function ServedSet(agencies: Reply<seq<string>>): set<string>
    requires agencies.Got?
  {
    set id <- agencies.value
  }

  lemma UnionJoins(head: seq<Result>, tail: seq<Result>, exp: seq<Expected>, served: set<string>, surplus: seq<string>)
    requires IsUnion(head, exp, served, []) && Names(tail, surplus)
    ensures IsUnion(head + tail, exp, served, surplus)
  {
    hide UnionStatus, Unexpected;
  }

  /** What the check gives: a failure without the agency list; otherwise one result per
      (source, GTFS agency) pair, and one warning per served agency that none of them
      expects. */
  ghost predicate UnionPart(out: seq<Result>, agencies: Reply<seq<string>>, sources: seq<Source>) {
    if agencies.Got? then
      var served, exp := ServedSet(agencies), AllExpected(sources);
      exists surplus :: Lists(surplus, served - ObaIDs(exp)) && IsUnion(out, exp, served, surplus)
    else out == [Plain("agency-union", "", Fail)]
  }

  /** `agencyUnionCheck.Run`. */
  method AgencyUnion(agencies: Reply<seq<string>>, sources: seq<Source>) returns (out: seq<Result>)
    ensures UnionPart(out, agencies, sources)
  {
    if !agencies.Got? {
      return [Plain("agency-union", "", Fail)];
    }
    hide AllExpected, Lists, IsUnion, Names;
    var exp := CollectExpected(sources);
    var head, expectedSet := CompareExpected(exp, ServedSet(agencies));
    var tail := ListSurplus(ServedSet(agencies), expectedSet);
    ghost var surplus :| Lists(surplus, ServedSet(agencies) - expectedSet) && Names(tail, surplus);
    UnionJoins(head, tail, exp, ServedSet(agencies), surplus);
    out := head + tail;
  }

  /** A GTFS agency of some source is mapped to an API id that is not served. */
  ghost predicate MappedUnserved(agencies: seq<string>, sources: seq<Source>) {
    exists src <- sources, gid ::
      src.static_.Some? && gid in src.static_.value.agencyIDs && gid in src.agencyMapping
      && src.agencyMapping[gid] !in agencies
  }

  lemma {:induction false} AllExpectedMembers(sources: seq<Source>)
    ensures forall e :: e in AllExpected(sources) <==>
              exists src <- sources, gid ::
                src.static_.Some? && gid in src.static_.value.agencyIDs
                && e == Expected(if gid in src.agencyMapping then src.agencyMapping[gid] else gid, gid, gid in src.agencyMapping)
    decreases |sources|
  {
    if sources != [] {
      var front, src := sources[..|sources| - 1], sources[|sources| - 1];
      AllExpectedMembers(front);
      assert sources == front + [src];
      ExpectedOfMembers(src);
      hide ExpectedOf;
    }
  }

  lemma ExpectedOfMembers(src: Source)
    ensures forall e :: e in ExpectedOf(src) <==>
              exists gid :: src.static_.Some? && gid in src.static_.value.agencyIDs
                && e == Expected(if gid in src.agencyMapping then src.agencyMapping[gid] else gid, gid, gid in src.agencyMapping)
  {
    if src.static_.Some? {
      var ids := src.static_.value.agencyIDs;
      forall e ensures e in ExpectedOf(src) <==>
        exists gid <- ids :: e == Expected(if gid in src.agencyMapping then src.agencyMapping[gid] else gid, gid, gid in src.agencyMapping)
      {
        if e in ExpectedOf(src) {
          var i :| 0 <= i < |ids| && ExpectedOf(src)[i] == e;
          assert ids[i] in ids;
        }
        if gid :| gid in ids && e == Expected(if gid in src.agencyMapping then src.agencyMapping[gid] else gid, gid, gid in src.agencyMapping) {
          var i :| 0 <= i < |ids| && ids[i] == gid;
          assert ExpectedOf(src)[i] == e;
        }
      }
    }
  }

  lemma MappedUnservedExpected(agencies: seq<string>, sources: seq<Source>)
    ensures MappedUnserved(agencies, sources) <==> exists e <- AllExpected(sources) :: e.mapped && e.obaID !in agencies
  {
    AllExpectedMembers(sources);
    hide AllExpected;
    if e :| e in AllExpected(sources) && e.mapped && e.obaID !in agencies {
      var src, gid :| src in sources && src.static_.Some? && gid in src.static_.value.agencyIDs
        && e == Expected(if gid in src.agencyMapping then src.agencyMapping[gid] else gid, gid, gid in src.agencyMapping);
    }
    if MappedUnserved(agencies, sources) {
      var src, gid :| src in sources && src.static_.Some? && gid in src.static_.value.agencyIDs
        && gid in src.agencyMapping && src.agencyMapping[gid] !in agencies;
      assert Expected(src.agencyMapping[gid], gid, true) in AllExpected(sources);
    }
  }

  /** The union fails exactly without the agency list, or when an explicitly mapped agency is
      not served under its mapping. */
  lemma UnionFailsExactly(out: seq<Result>, agencies: Reply<seq<string>>, sources: seq<Source>)
    requires UnionPart(out, agencies, sources)
    ensures AnyFails(out) <==> !agencies.Got? || MappedUnserved(agencies.value, sources)
  {
    hide AllExpected, IsUnion, Lists, MappedUnserved;
    if agencies.Got? {
      var served, exp := ServedSet(agencies), AllExpected(sources);
      var surplus :| Lists(surplus, served - ObaIDs(exp)) && IsUnion(out, exp, served, surplus);
      UnmappedFails(out, exp, served, surplus);
      MappedUnservedExpected(agencies.value, sources);
    } else {
      assert out[0] in out;
    }
  }

  lemma UnmappedFails(out: seq<Result>, exp: seq<Expected>, served: set<string>, surplus: seq<string>)
    requires IsUnion(out, exp, served, surplus)
    ensures AnyFails(out) <==> exists e <- exp :: e.mapped && e.obaID !in served
  {
    forall r | r in out && r.status == Fail ensures exists e <- exp :: e.mapped && e.obaID !in served {
      var i :| 0 <= i < |out| && out[i] == r;
      assert i < |exp| || out[i] == Unexpected(surplus[i - |exp|]);
      assert exp[i] in exp;
    }
    forall e | e in exp && e.mapped && e.obaID !in served ensures AnyFails(out) {
      var i :| 0 <= i < |exp| && exp[i] == e;
      assert out[i] in out;
    }
  }

  /** How many pairs there are before source `i`. */
  function PairsBefore(sources: seq<Source>, i: nat): nat
    requires i <= |sources|
  {
    if i == 0 then 0
    else PairsBefore(sources, i - 1) + if sources[i - 1].static_.Some? then |sources[i - 1].static_.value.agencyIDs| else 0
  }

  /** What source `i` expects for its agency `j`. */
  ghost function ExpectedFor(src: Source, j: nat): Expected
    requires src.static_.Some? && j < |src.static_.value.agencyIDs|
  {
    var gid := src.static_.value.agencyIDs[j];
    Expected(if gid in src.agencyMapping then src.agencyMapping[gid] else gid, gid, gid in src.agencyMapping)
  }

  lemma ExpectedOfAt(src: Source, j: nat)
    requires src.static_.Some? && j < |src.static_.value.agencyIDs|
    ensures |ExpectedOf(src)| == |src.static_.value.agencyIDs| && ExpectedOf(src)[j] == ExpectedFor(src, j)
  {
  }

  lemma ExpectedStep(sources: seq<Source>, i: nat)
    requires i < |sources|
    ensures AllExpected(sources[..i + 1]) == AllExpected(sources[..i]) + ExpectedOf(sources[i])
  {
    assert sources[..i + 1][..i] == sources[..i];
  }

  lemma {:induction false} ExpectedLength(sources: seq<Source>, i: nat)
    requires i <= |sources|
    ensures |AllExpected(sources[..i])| == PairsBefore(sources, i)
    decreases i
  {
    if i > 0 {
      ExpectedLength(sources, i - 1);
      ExpectedStep(sources, i - 1);
      hide AllExpected;
    }
  }

  lemma {:induction false} ExpectedGrows(sources: seq<Source>, i: nat, j: nat)
    requires i <= j <= |sources|
    ensures AllExpected(sources[..i]) <= AllExpected(sources[..j])
    decreases j
  {
    hide AllExpected, ExpectedOf;
    if i < j {
      ExpectedGrows(sources, i, j - 1);
      ExpectedStep(sources, j - 1);
    }
  }

  lemma ExpectedAt(sources: seq<Source>, i: nat, j: nat)
    requires i < |sources| && sources[i].static_.Some? && j < |sources[i].static_.value.agencyIDs|
    ensures var exp, at := AllExpected(sources), PairsBefore(sources, i) + j;
            at < |exp| && exp[at] == ExpectedFor(sources[i], j)
  {
    hide AllExpected, ExpectedOf, ExpectedFor, PairsBefore;
    ExpectedStep(sources, i);
    ExpectedLength(sources, i);
    ExpectedOfAt(sources[i], j);
    ExpectedGrows(sources, i + 1, |sources|);
    assert sources[..|sources|] == sources;
  }

  /** The result for agency `j` of source `i`: a mapped agency passes exactly when its mapping is
      served and fails otherwise; one without passes exactly when it is served itself and warns
      otherwise. */
  lemma UnionJudges(out: seq<Result>, agencies: Reply<seq<string>>, sources: seq<Source>, i: nat, j: nat)
    requires UnionPart(out, agencies, sources) && agencies.Got?
    requires i < |sources| && sources[i].static_.Some? && j < |sources[i].static_.value.agencyIDs|
    ensures var at := PairsBefore(sources, i) + j;
            var gid := sources[i].static_.value.agencyIDs[j];
            && at < |out|
            && out[at] == Result("agency-union", "",
                 if gid in sources[i].agencyMapping
                 then (if sources[i].agencyMapping[gid] in agencies.value then Pass else Fail)
                 else (if gid in agencies.value then Pass else Warn), "", map[])
  {
    var served, exp := ServedSet(agencies), AllExpected(sources);
    var surplus :| Lists(surplus, served - ObaIDs(exp)) && IsUnion(out, exp, served, surplus);
    ExpectedAt(sources, i, j);
    hide AllExpected, Lists;
  }

  /** Behind them stands one warning for each served agency that no source expects. */
  lemma UnionSurplus(out: seq<Result>, agencies: Reply<seq<string>>, sources: seq<Source>, id: string)
    requires UnionPart(out, agencies, sources) && agencies.Got?
    ensures PairsBefore(sources, |sources|) <= |out|
    ensures var tail := out[PairsBefore(sources, |sources|)..];
            Result("agency-union", "", Warn, "", map["apiAgencyId" := id]) in tail <==>
              && id in agencies.value
              && forall src <- sources, gid :: src.static_.Some? && gid in src.static_.value.agencyIDs ==>
                   id != if gid in src.agencyMapping then src.agencyMapping[gid] else gid
  {
    hide AllExpected, PairsBefore, Lists, IsUnion, ObaIDs;
    var served, exp := ServedSet(agencies), AllExpected(sources);
    var surplus :| Lists(surplus, served - ObaIDs(exp)) && IsUnion(out, exp, served, surplus);
    ExpectedLength(sources, |sources|);
    assert sources[..|sources|] == sources;
    UnionTail(out, exp, served, surplus, id);
    IdExpected(sources, id);
  }

  lemma UnionTail(out: seq<Result>, exp: seq<Expected>, served: set<string>, surplus: seq<string>, id: string)
    requires IsUnion(out, exp, served, surplus) && Lists(surplus, served - ObaIDs(exp))
    ensures |exp| <= |out|
    ensures Result("agency-union", "", Warn, "", map["apiAgencyId" := id]) in out[|exp|..] <==>
              id in served && id !in ObaIDs(exp)
  {
    assert Names(out[|exp|..], surplus);
    SurplusIn(out[|exp|..], surplus, id);
    hide IsUnion, Names, ObaIDs;
  }

  lemma IdExpected(sources: seq<Source>, id: string)
    ensures id !in ObaIDs(AllExpected(sources)) <==>
            forall src <- sources, gid :: src.static_.Some? && gid in src.static_.value.agencyIDs ==>
              id != if gid in src.agencyMapping then src.agencyMapping[gid] else gid
  {
    AllExpectedMembers(sources);
    hide AllExpected;
    if src, gid :| src in sources && src.static_.Some? && gid in src.static_.value.agencyIDs
                   && id == if gid in src.agencyMapping then src.agencyMapping[gid] else gid {
      assert Expected(id, gid, gid in src.agencyMapping) in AllExpected(sources);
    }
  }

  lemma SurplusIn(tail: seq<Result>, surplus: seq<string>, id: string)
    requires Names(tail, surplus)
    ensures Result("agency-union", "", Warn, "", map["apiAgencyId" := id]) in tail <==> id in surplus
  {
    if id in surplus {
      var i :| 0 <= i < |surplus| && surplus[i] == id;
      assert tail[i] == Unexpected(id);
    }
    var r := Result("agency-union", "", Warn, "", map["apiAgencyId" := id]);
    if r in tail {
      var i :| 0 <= i < |tail| && tail[i] == r;
      assert map["apiAgencyId" := id]["apiAgencyId"] == map["apiAgencyId" := surplus[i]]["apiAgencyId"];
    }
  }

  lemma {:induction false} SameStatusesSameCounts(a: seq<Result>, b: seq<Result>, st: Status)
    requires |a| == |b| && forall i :: 0 <= i < |a| ==> a[i].status == b[i].status
    ensures CountOf(a, st) == CountOf(b, st)
    decreases |a|
  {
    if a != [] {
      SameStatusesSameCounts(a[..|a| - 1], b[..|b| - 1], st);
    }
  }

  /** The tallies do not depend on the order of map iteration. */
  lemma UnionIgnoresMapOrder(out: seq<Result>, other: seq<Result>, exp: seq<Expected>, served: set<string>,
                             surplus: seq<string>, otherSurplus: seq<string>, st: Status)
    requires IsUnion(out, exp, served, surplus) && IsUnion(other, exp, served, otherSurplus)
    requires Lists(surplus, served - ObaIDs(exp)) && Lists(otherSurplus, served - ObaIDs(exp))
    ensures CountOf(out, st) == CountOf(other, st)
  {
    forall i | 0 <= i < |out| ensures out[i].status == other[i].status {
      if i >= |exp| {
        assert out[i] == Unexpected(surplus[i - |exp|]) && other[i] == Unexpected(otherSurplus[i - |exp|]);
      }
    }
    SameStatusesSameCounts(out, other, st);
  }
}
