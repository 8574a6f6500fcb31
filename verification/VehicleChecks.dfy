/** The check that compares sampled vehicles with what the API says about them. */
module VehicleChecks {
  import opened Strings
  import opened Sampling
  import opened IdNorm
  import opened Results
  import opened Context
  import opened FeedChecks
  import Gtfs

  const NAME := "vehicle-positions-sampling"

  /** `resolveVehicleAgency`; an answer means that the vehicle has a trip. */
  function ResolveVehicleAgency(src: Source, v: Vehicle): (r: Option<string>)
    ensures r.Some? ==> v.trip.Some? && src.static_.Some?
  {
    if v.trip.None? then None else TripAgency(src, v.trip.value)
  }

  function RawVehicle(v: Vehicle): string {
    if v.id.Some? then v.id.value.id else ""
  }

  function TitleOf(v: Vehicle): string {
    if v.id.Some? then v.id.value.title else ""
  }

  predicate HasPlace(v: Vehicle) {
    v.position.Some? && v.position.value.latitude.Some? && v.position.value.longitude.Some?
  }

  /* ----- What the three answers about one vehicle mean ----- */

  /** The API id is a form of the vehicle's id, or of its non-empty label. */
  predicate IsVehicle(apiID: string, v: Vehicle, agency: string) {
    IDMatch(apiID, RawVehicle(v), agency) || (TitleOf(v) != "" && IDMatch(apiID, TitleOf(v), agency))
  }

  function ListedStatus(r: Reply<seq<string>>, v: Vehicle, agency: string): Status {
    if !GotSome(r) then Fail
    else if exists apiID | apiID in r.value :: IsVehicle(apiID, v, agency) then Pass
    else Warn
  }

  function TripStatus(r: Reply<string>, rawTrip: string, agency: string): Status {
    if !r.Got? then Warn
    else if IDMatch(r.value, rawTrip, agency) then Pass
    else if r.value == "" then Warn
    else Fail
  }

  function NearbyStatus(r: Reply<seq<string>>, rawTrip: string, agency: string): Status {
    if r.Got? && exists apiID | apiID in r.value :: IDMatch(apiID, rawTrip, agency) then Pass else Warn
  }

  /** How many calls a vehicle costs. */
  function CallsFor(src: Source, v: Vehicle): (k: nat)
    ensures k <= 3
  {
    if ResolveVehicleAgency(src, v).None? then 0 else if HasPlace(v) then 3 else 2
  }

  /** The results for one vehicle when its first call has number `c`. */
  function Judgement(sv: Server, src: Source, v: Vehicle, c: nat): (rs: seq<Result>)
    ensures |rs| == if ResolveVehicleAgency(src, v).Some? then 3 else 1
  {
    match ResolveVehicleAgency(src, v)
    case None => [Plain(NAME, src.title, Warn)]
    case Some(agency) =>
      var rawTrip := v.trip.value.id;
      var nearby :=
        if HasPlace(v)
        then NearbyStatus(sv.tripsForLocation(c + 2, v.position.value.latitude.value, v.position.value.longitude.value), rawTrip, agency)
        else Warn;
      [Plain(NAME + "/vehicles-for-agency", src.title, ListedStatus(sv.vehiclesForAgency(c, agency), v, agency)),
       Plain(NAME + "/trip-for-vehicle", src.title,
             TripStatus(sv.tripForVehicle(c + 1, PrefixedID(agency, RawVehicle(v))), rawTrip, agency)),
       Plain(NAME + "/trips-for-location", src.title, nearby)]
  }

  function Calls(src: Source, sample: seq<Vehicle>): nat {
    if sample == [] then 0 else Calls(src, sample[..|sample| - 1]) + CallsFor(src, sample[|sample| - 1])
  }

  /** The results for a sample, vehicle after vehicle. */
  function Judgements(sv: Server, src: Source, sample: seq<Vehicle>, c: nat): seq<Result> {
    if sample == [] then []
    else
      var front := sample[..|sample| - 1];
      Judgements(sv, src, front, c) + Judgement(sv, src, sample[|sample| - 1], c + Calls(src, front))
  }

  /** Vehicles with both a trip and a position. */
  function Located(vs: seq<Vehicle>): seq<Vehicle> {
    if vs == [] then []
    else
      var v := vs[|vs| - 1];
      Located(vs[..|vs| - 1]) + if v.trip.Some? && v.position.Some? then [v] else []
  }

  /** The sample: from the located vehicles if there are any. */
  function SampledVehicles(vs: seq<Vehicle>, n: nat): seq<Vehicle> {
    Sampled(if Located(vs) == [] then vs else Located(vs), n, RawVehicle)
  }

  /** Nothing to sample: one result says why. */
  predicate Unusable(src: Source) {
    "vehiclePositions" in src.prepErrors || src.vehiclePositions.None? || src.vehiclePositions.value.vehicles == []
  }

  function SampleOf(src: Source, n: nat): seq<Vehicle> {
    if Unusable(src) then [] else SampledVehicles(src.vehiclePositions.value.vehicles, n)
  }

  function VehicleReport(sv: Server, src: Source, n: nat, c: nat): seq<Result> {
    if Unusable(src) then [Plain(NAME, src.title, if "vehiclePositions" in src.prepErrors then Fail else Warn)]
    else Judgements(sv, src, SampleOf(src, n), c)
  }

  /* ----- The check ----- */

  method FindVehicle(list: seq<string>, v: Vehicle, agency: string) returns (matched: bool)
    ensures matched <==> exists apiID <- list :: IsVehicle(apiID, v, agency)
  {
    matched := false;
    for i := 0 to |list|
      invariant forall j :: 0 <= j < i ==> !IsVehicle(list[j], v, agency)
    {
      if IsVehicle(list[i], v, agency) {
        return true;
      }
    }
  }

  method FindTrip(list: seq<string>, rawTrip: string, agency: string) returns (found: bool)
    ensures found <==> exists apiID <- list :: IDMatch(apiID, rawTrip, agency)
  {
    found := false;
    for i := 0 to |list|
      invariant forall j :: 0 <= j < i ==> !IDMatch(list[j], rawTrip, agency)
    {
      if IDMatch(list[i], rawTrip, agency) {
        return true;
      }
    }
  }

  method JudgeListing(client: Client, source: string, v: Vehicle, agency: string) returns (r: Result)
    modifies client
    ensures client.calls == old(client.calls) + 1
    ensures r == Plain(NAME + "/vehicles-for-agency", source,
                       ListedStatus(client.server.vehiclesForAgency(old(client.calls), agency), v, agency))
  {
    var vfa := client.VehiclesForAgency(agency);
    var st := Fail;
    if vfa.Got? && vfa.value != [] {
      var matched := FindVehicle(vfa.value, v, agency);
      st := if matched then Pass else Warn;
    }
    r := Plain(NAME + "/vehicles-for-agency", source, st);
  }

  method JudgeTrip(client: Client, source: string, v: Vehicle, agency: string) returns (r: Result)
    requires v.trip.Some?
    modifies client
    ensures client.calls == old(client.calls) + 1
    ensures r == Plain(NAME + "/trip-for-vehicle", source,
      TripStatus(client.server.tripForVehicle(old(client.calls), PrefixedID(agency, RawVehicle(v))), v.trip.value.id, agency))
  {
    var tfv := client.TripForVehicle(PrefixedID(agency, RawVehicle(v)));
    var st := Fail;
    if !tfv.Got? {
      st := Warn;
    } else if IDMatch(tfv.value, v.trip.value.id, agency) {
      st := Pass;
    } else if tfv.value == "" {
      st := Warn;
    }
    r := Plain(NAME + "/trip-for-vehicle", source, st);
  }

  method JudgeNearby(client: Client, source: string, v: Vehicle, agency: string) returns (r: Result)
    requires v.trip.Some?
    modifies client
    ensures client.calls == old(client.calls) + if HasPlace(v) then 1 else 0
    ensures r == Plain(NAME + "/trips-for-location", source,
      if HasPlace(v) then
        NearbyStatus(client.server.tripsForLocation(old(client.calls), v.position.value.latitude.value, v.position.value.longitude.value),
                     v.trip.value.id, agency)
      else Warn)
  {
    var st := Warn;
    if HasPlace(v) {
      var tfl := client.TripsForLocation(v.position.value.latitude.value, v.position.value.longitude.value);
      if tfl.Got? {
        var found := FindTrip(tfl.value, v.trip.value.id, agency);
        st := if found then Pass else Warn;
      }
    }
    r := Plain(NAME + "/trips-for-location", source, st);
  }

  method JudgeVehicle(client: Client, src: Source, v: Vehicle) returns (out: seq<Result>)
    modifies client
    ensures out == Judgement(client.server, src, v, old(client.calls))
    ensures client.calls == old(client.calls) + CallsFor(src, v)
  {
    var agency := ResolveVehicleAgency(src, v);
    if agency.None? {
      return [Plain(NAME, src.title, Warn)];
    }
    var listed := JudgeListing(client, src.title, v, agency.value);
    var trip := JudgeTrip(client, src.title, v, agency.value);
    var nearby := JudgeNearby(client, src.title, v, agency.value);
    out := [listed, trip, nearby];
  }

  method KeepLocated(vs: seq<Vehicle>) returns (candidates: seq<Vehicle>)
    ensures candidates == Located(vs)
  {
    candidates := [];
    for i := 0 to |vs|
      invariant candidates == Located(vs[..i])
    {
      assert vs[..i + 1][..i] == vs[..i];
      if vs[i].trip.Some? && vs[i].position.Some? {
        candidates := candidates + [vs[i]];
      }
    }
    assert vs[..|vs|] == vs;
  }

  method JudgeAll(client: Client, src: Source, sample: seq<Vehicle>) returns (out: seq<Result>)
    modifies client
    ensures out == Judgements(client.server, src, sample, old(client.calls))
    ensures client.calls == old(client.calls) + Calls(src, sample)
  {
    hide Judgement, CallsFor;
    out := [];
    for i := 0 to |sample|
      invariant out == Judgements(client.server, src, sample[..i], old(client.calls))
      invariant client.calls == old(client.calls) + Calls(src, sample[..i])
    {
      assert sample[..i + 1][..i] == sample[..i];
      var block := JudgeVehicle(client, src, sample[i]);
      out := out + block;
    }
    assert sample[..|sample|] == sample;
  }

  /** `vehicleSamplingCheck.Run`; `None` is the panic of sampling a negative number. */
  method VehicleSampling(client: Client, src: Source, n: int) returns (out: Option<seq<Result>>)
    modifies client
    ensures out == None <==> n < 0 && !Unusable(src)
    ensures out.Some? ==> var m := if n < 0 then 0 else n;
              && out.value == VehicleReport(client.server, src, m, old(client.calls))
              && client.calls == old(client.calls) + Calls(src, SampleOf(src, m))
    ensures out == None ==> client.calls == old(client.calls)
  {
    if "vehiclePositions" in src.prepErrors {
      return Some([Plain(NAME, src.title, Fail)]);
    }
    if src.vehiclePositions.None? || src.vehiclePositions.value.vehicles == [] {
      return Some([Plain(NAME, src.title, Warn)]);
    }
    hide Judgements, Calls, Located, Sampled;
    var candidates := KeepLocated(src.vehiclePositions.value.vehicles);
    if candidates == [] {
      candidates := src.vehiclePositions.value.vehicles;
    }
    var sample := SampleByID(candidates, n, RawVehicle);
    if sample.None? {
      return None;
    }
    var results := JudgeAll(client, src, sample.value);
    out := Some(results);
  }

  /* ----- What the results promise ----- */

  lemma JudgementLabels(sv: Server, src: Source, v: Vehicle, c: nat)
    ensures forall r <- Judgement(sv, src, v, c) :: r.source == src.title && r.status != Skip
    ensures CallsFor(src, v) <= |Judgement(sv, src, v, c)|
  {
  }

  /** The number of results and of calls, for any replies. */
  lemma {:induction false} JudgementsCount(sv: Server, src: Source, sample: seq<Vehicle>, c: nat)
    ensures |sample| <= |Judgements(sv, src, sample, c)| <= 3 * |sample|
    ensures Calls(src, sample) <= |Judgements(sv, src, sample, c)|
    ensures forall r <- Judgements(sv, src, sample, c) :: r.source == src.title && r.status != Skip
    decreases |sample|
  {
    if sample != [] {
      var front, v := sample[..|sample| - 1], sample[|sample| - 1];
      JudgementsCount(sv, src, front, c);
      JudgementLabels(sv, src, v, c + Calls(src, front));
      hide Judgement, CallsFor;
    }
  }

  /** The API contradicts the feed about a vehicle: it lists no vehicle of the agency, or
      names another trip. */
  ghost predicate Contradicted(sv: Server, src: Source, v: Vehicle, c: nat) {
    && ResolveVehicleAgency(src, v).Some?
    && var agency := ResolveVehicleAgency(src, v).value;
       var trip := sv.tripForVehicle(c + 1, PrefixedID(agency, RawVehicle(v)));
       || !GotSome(sv.vehiclesForAgency(c, agency))
       || (trip.Got? && trip.value != "" && !RefersTo(trip.value, v.trip.value.id, agency))
  }

  ghost predicate ContradictedAt(sv: Server, src: Source, sample: seq<Vehicle>, c: nat, j: nat)
    requires j < |sample|
  {
    Contradicted(sv, src, sample[j], c + Calls(src, sample[..j]))
  }

  ghost predicate SomeContradicted(sv: Server, src: Source, sample: seq<Vehicle>, c: nat) {
    exists j :: 0 <= j < |sample| && ContradictedAt(sv, src, sample, c, j)
  }

  lemma JudgementFails(sv: Server, src: Source, v: Vehicle, c: nat)
    ensures AnyFails(Judgement(sv, src, v, c)) <==> Contradicted(sv, src, v, c)
  {
    if ResolveVehicleAgency(src, v).Some? {
      var agency, rs := ResolveVehicleAgency(src, v).value, Judgement(sv, src, v, c);
      var trip := sv.tripForVehicle(c + 1, PrefixedID(agency, RawVehicle(v)));
      if trip.Got? {
        MatchMeaning(trip.value, v.trip.value.id, agency);
      }
      assert rs == [rs[0], rs[1], rs[2]];
    }
  }

  lemma ContradictedInFront(sv: Server, src: Source, sample: seq<Vehicle>, c: nat, j: nat)
    requires j < |sample| - 1
    ensures ContradictedAt(sv, src, sample[..|sample| - 1], c, j) == ContradictedAt(sv, src, sample, c, j)
  {
    hide Contradicted;
    assert sample[..|sample| - 1][..j] == sample[..j];
  }

  lemma SomeContradictedStep(sv: Server, src: Source, sample: seq<Vehicle>, c: nat)
    requires sample != []
    ensures var front := sample[..|sample| - 1];
            SomeContradicted(sv, src, sample, c) <==>
            SomeContradicted(sv, src, front, c) || Contradicted(sv, src, sample[|sample| - 1], c + Calls(src, front))
  {
    var last := |sample| - 1;
    assert ContradictedAt(sv, src, sample, c, last) == Contradicted(sv, src, sample[last], c + Calls(src, sample[..last]));
    forall j: nat | j < last ensures ContradictedAt(sv, src, sample[..last], c, j) == ContradictedAt(sv, src, sample, c, j) {
      ContradictedInFront(sv, src, sample, c, j);
    }
    hide Contradicted, ContradictedAt;
  }

  lemma JudgementsStep(sv: Server, src: Source, sample: seq<Vehicle>, c: nat)
    requires sample != []
    ensures var front := sample[..|sample| - 1];
            Judgements(sv, src, sample, c)
            == Judgements(sv, src, front, c) + Judgement(sv, src, sample[|sample| - 1], c + Calls(src, front))
  {
    hide Judgement, Calls;
  }

  lemma NoneFail(sv: Server, src: Source, c: nat)
    ensures !AnyFails(Judgements(sv, src, [], c)) && !SomeContradicted(sv, src, [], c)
  {
  }

  lemma {:induction false} JudgementsFail(sv: Server, src: Source, sample: seq<Vehicle>, c: nat)
    ensures AnyFails(Judgements(sv, src, sample, c)) <==> SomeContradicted(sv, src, sample, c)
    decreases |sample|
  {
    hide *;
    if sample == [] {
      NoneFail(sv, src, c);
    } else {
      var front, v := sample[..|sample| - 1], sample[|sample| - 1];
      JudgementsStep(sv, src, sample, c);
      SomeContradictedStep(sv, src, sample, c);
      JudgementsFail(sv, src, front, c);
      JudgementFails(sv, src, v, c + Calls(src, front));
      AnyFailsConcat(Judgements(sv, src, front, c), Judgement(sv, src, v, c + Calls(src, front)));
    }
  }

  /** A failure is reported exactly when the feed did not arrive or the API contradicts it
      about a sampled vehicle. */
  lemma VehicleFailsExactly(sv: Server, src: Source, n: nat, c: nat)
    ensures AnyFails(VehicleReport(sv, src, n, c)) <==>
            "vehiclePositions" in src.prepErrors || SomeContradicted(sv, src, SampleOf(src, n), c)
  {
    if Unusable(src) {
      assert VehicleReport(sv, src, n, c)[0] in VehicleReport(sv, src, n, c);
    } else {
      JudgementsFail(sv, src, SampleOf(src, n), c);
    }
  }

  /** Some reply between two calls names what was looked for. */
  ghost predicate Backed(sv: Server, src: Source, v: Vehicle, r: Result, k: nat) {
    && ResolveVehicleAgency(src, v).Some?
    && var agency, trip := ResolveVehicleAgency(src, v).value, v.trip.value.id;
       || (&& r.check == NAME + "/vehicles-for-agency"
           && sv.vehiclesForAgency(k, agency).Got?
           && exists apiID <- sv.vehiclesForAgency(k, agency).value ::
                || RefersTo(apiID, RawVehicle(v), agency)
                || (TitleOf(v) != "" && RefersTo(apiID, TitleOf(v), agency)))
       || (&& r.check == NAME + "/trip-for-vehicle"
           && sv.tripForVehicle(k, PrefixedID(agency, RawVehicle(v))).Got?
           && RefersTo(sv.tripForVehicle(k, PrefixedID(agency, RawVehicle(v))).value, trip, agency))
       || (&& r.check == NAME + "/trips-for-location" && HasPlace(v)
           && var near := sv.tripsForLocation(k, v.position.value.latitude.value, v.position.value.longitude.value);
              near.Got? && exists apiID <- near.value :: RefersTo(apiID, trip, agency))
  }

  lemma JudgementBacked(sv: Server, src: Source, v: Vehicle, c: nat, i: nat)
    requires i < |Judgement(sv, src, v, c)| && Judgement(sv, src, v, c)[i].status == Pass
    ensures i < CallsFor(src, v) && Backed(sv, src, v, Judgement(sv, src, v, c)[i], c + i)
  {
    hide Judgement, CallsFor, RefersTo, ResolveVehicleAgency, PrefixedID;
    if ResolveVehicleAgency(src, v).None? {
      UnresolvedReads(sv, src, v, c);
    } else {
      VehicleReads(sv, src, v, c);
      NamesRead();
      hide NAME;
    }
  }

  /** A pass is reported only for a reply that names the vehicle or its trip. */
  lemma {:induction false} PassesAreBacked(sv: Server, src: Source, sample: seq<Vehicle>, c: nat, i: nat)
    requires i < |Judgements(sv, src, sample, c)| && Judgements(sv, src, sample, c)[i].status == Pass
    ensures exists v <- sample, k :: c <= k < c + Calls(src, sample) && Backed(sv, src, v, Judgements(sv, src, sample, c)[i], k)
    decreases |sample|
  {
    var front, v := sample[..|sample| - 1], sample[|sample| - 1];
    var done := Judgements(sv, src, front, c);
    hide Backed;
    if i < |done| {
      PassesAreBacked(sv, src, front, c, i);
    } else {
      JudgementBacked(sv, src, v, c + Calls(src, front), i - |done|);
    }
  }

  /** The server answers with the prefixed ids of the feed, whatever else it lists. */
  ghost predicate Truthful(sv: Server, src: Source, v: Vehicle) {
    && ResolveVehicleAgency(src, v).Some? && HasPlace(v)
    && var agency, trip := ResolveVehicleAgency(src, v).value, v.trip.value.id;
       var vehicle := PrefixedID(agency, RawVehicle(v));
       forall k: nat ::
         && sv.vehiclesForAgency(k, agency).Got? && vehicle in sv.vehiclesForAgency(k, agency).value
         && sv.tripForVehicle(k, vehicle) == Got(PrefixedID(agency, trip))
         && var near := sv.tripsForLocation(k, v.position.value.latitude.value, v.position.value.longitude.value);
            near.Got? && PrefixedID(agency, trip) in near.value
  }

  lemma JudgementPasses(sv: Server, src: Source, v: Vehicle, c: nat)
    requires Truthful(sv, src, v)
    ensures forall r <- Judgement(sv, src, v, c) :: r.status == Pass
  {
    var agency, trip := ResolveVehicleAgency(src, v).value, v.trip.value.id;
    PrefixedMatches(agency, RawVehicle(v));
    PrefixedMatches(agency, trip);
    hide IDMatch, PrefixedID, RawVehicle;
    assert IsVehicle(PrefixedID(agency, RawVehicle(v)), v, agency);
    var near := sv.tripsForLocation(c + 2, v.position.value.latitude.value, v.position.value.longitude.value);
    assert ListedStatus(sv.vehiclesForAgency(c, agency), v, agency) == Pass;
    assert NearbyStatus(near, trip, agency) == Pass;
  }

  /** A server that tells the truth about every sampled vehicle passes throughout. */
  lemma {:induction false} TruthfulServerPasses(sv: Server, src: Source, sample: seq<Vehicle>, c: nat)
    requires forall v <- sample :: Truthful(sv, src, v)
    ensures forall r <- Judgements(sv, src, sample, c) :: r.status == Pass
    decreases |sample|
  {
    if sample != [] {
      var front, v := sample[..|sample| - 1], sample[|sample| - 1];
      var before, block := Judgements(sv, src, front, c), Judgement(sv, src, v, c + Calls(src, front));
      JudgementsStep(sv, src, sample, c);
      assert Truthful(sv, src, v);
      hide *;
      TruthfulServerPasses(sv, src, front, c);
      JudgementPasses(sv, src, v, c + Calls(src, front));
    }
  }

  lemma {:induction false} LocatedMembers(vs: seq<Vehicle>)
    ensures forall v :: v in Located(vs) <==> v in vs && v.trip.Some? && v.position.Some?
    ensures DistinctKeys(vs, RawVehicle) ==> DistinctKeys(Located(vs), RawVehicle)
    decreases |vs|
  {
    if vs != [] {
      LocatedMembers(vs[..|vs| - 1]);
      assert vs == vs[..|vs| - 1] + [vs[|vs| - 1]];
    }
  }

  lemma JudgementOfSource(sv: Server, src: Source, other: Source, v: Vehicle, c: nat)
    requires other == src.(vehiclePositions := other.vehiclePositions)
    ensures Judgement(sv, src, v, c) == Judgement(sv, other, v, c) && CallsFor(src, v) == CallsFor(other, v)
  {
  }

  lemma {:induction false} JudgementsOfSource(sv: Server, src: Source, other: Source, sample: seq<Vehicle>, c: nat)
    requires other == src.(vehiclePositions := other.vehiclePositions)
    ensures Judgements(sv, src, sample, c) == Judgements(sv, other, sample, c)
    ensures Calls(src, sample) == Calls(other, sample)
    decreases |sample|
  {
    hide Judgement, CallsFor;
    if sample != [] {
      var front, v := sample[..|sample| - 1], sample[|sample| - 1];
      JudgementsStep(sv, src, sample, c);
      JudgementsStep(sv, other, sample, c);
      assert Calls(src, sample) == Calls(src, front) + CallsFor(src, v);
      assert Calls(other, sample) == Calls(other, front) + CallsFor(other, v);
      hide *;
      JudgementsOfSource(sv, src, other, front, c);
      JudgementOfSource(sv, src, other, v, c + Calls(src, front));
    }
  }

  lemma SameMembersEmpty(a: seq<Vehicle>, b: seq<Vehicle>)
    requires forall v :: v in a <==> v in b
    ensures a == [] <==> b == []
  {
    if a != [] {
      assert a[0] in a;
    }
    if b != [] {
      assert b[0] in b;
    }
  }

  lemma SampleIgnoresFeedOrder(was: seq<Vehicle>, vehicles: seq<Vehicle>, n: nat)
    requires DistinctKeys(vehicles, RawVehicle) && DistinctKeys(was, RawVehicle)
    requires forall v :: v in vehicles <==> v in was
    ensures vehicles == [] <==> was == []
    ensures SampledVehicles(vehicles, n) == SampledVehicles(was, n)
  {
    LocatedMembers(vehicles);
    LocatedMembers(was);
    hide Located, Sampled;
    SameMembersEmpty(vehicles, was);
    SameMembersEmpty(Located(vehicles), Located(was));
    SampleIgnoresOrder(was, vehicles, n, RawVehicle);
    SampleIgnoresOrder(Located(was), Located(vehicles), n, RawVehicle);
  }

  /** With distinct vehicle ids, the order in which the feed lists its vehicles changes
      neither a result nor a call. */
  lemma ReportIgnoresFeedOrder(sv: Server, src: Source, vehicles: seq<Vehicle>, n: nat, c: nat)
    requires src.vehiclePositions.Some?
    requires DistinctKeys(vehicles, RawVehicle) && DistinctKeys(src.vehiclePositions.value.vehicles, RawVehicle)
    requires forall v :: v in vehicles <==> v in src.vehiclePositions.value.vehicles
    ensures var other := src.(vehiclePositions := Some(src.vehiclePositions.value.(vehicles := vehicles)));
            && VehicleReport(sv, src, n, c) == VehicleReport(sv, other, n, c)
            && SampleOf(src, n) == SampleOf(other, n)
  {
    SampleIgnoresFeedOrder(src.vehiclePositions.value.vehicles, vehicles, n);
    var other := src.(vehiclePositions := Some(src.vehiclePositions.value.(vehicles := vehicles)));
    JudgementsOfSource(sv, src, other, SampleOf(src, n), c);
    hide Judgements, SampledVehicles;
  }

  /* ----- The results in the feed's and the API's own terms ----- */

  /** The agency of a vehicle, by scanning the static feed: none without a trip or a feed;
      else the feed's agency of the trip, under its mapping if it has one. */
  lemma VehicleAgencyMeans(src: Source, v: Vehicle, feed: Gtfs.Static)
    requires src.static_.Some? ==> Gtfs.Indexes(src.static_.value, feed)
    ensures var found := v.trip.Some? && src.static_.Some? && FeedAgency(feed, v.trip.value).Some?;
            && (ResolveVehicleAgency(src, v).Some? <==> found)
            && (found ==>
                  var gid := FeedAgency(feed, v.trip.value).value;
                  ResolveVehicleAgency(src, v).value == if gid in src.agencyMapping then src.agencyMapping[gid] else gid)
  {
    if v.trip.Some? && src.static_.Some? {
      JoinFollowsFeed(src, v.trip.value, feed);
    }
    hide Gtfs.Indexes, FeedAgency;
  }

  /** Some listed id refers to the vehicle, or to its label if it has one. */
  ghost predicate ListsVehicle(ids: seq<string>, id: string, title: string, agency: string) {
    exists apiID <- ids :: RefersTo(apiID, id, agency) || (title != "" && RefersTo(apiID, title, agency))
  }

  ghost predicate ListsTrip(ids: seq<string>, trip: string, agency: string) {
    exists apiID <- ids :: RefersTo(apiID, trip, agency)
  }

  /** A vehicle without agency gives one warning. */
  lemma UnresolvedReads(sv: Server, src: Source, v: Vehicle, c: nat)
    requires ResolveVehicleAgency(src, v).None?
    ensures Judgement(sv, src, v, c) == [Result("vehicle-positions-sampling", src.title, Warn, "", map[])] && CallsFor(src, v) == 0
  {
  }

  /** A vehicle with an agency gives three results. The first fails without any listed vehicle
      and passes when this one is listed; the second passes when the API names the trip, and
      fails when it names another; the third passes when the trip runs near the vehicle. */
  lemma VehicleReads(sv: Server, src: Source, v: Vehicle, c: nat)
    requires ResolveVehicleAgency(src, v).Some?
    ensures var agency, trip := ResolveVehicleAgency(src, v).value, v.trip.value.id;
            var id := if v.id.Some? then v.id.value.id else "";
            var title := if v.id.Some? then v.id.value.title else "";
            var rs := Judgement(sv, src, v, c);
            var listed, named := sv.vehiclesForAgency(c, agency), sv.tripForVehicle(c + 1, PrefixedID(agency, id));
            && |rs| == 3
            && rs[0] == Result("vehicle-positions-sampling/vehicles-for-agency", src.title, rs[0].status, "", map[])
            && rs[1] == Result("vehicle-positions-sampling/trip-for-vehicle", src.title, rs[1].status, "", map[])
            && rs[2] == Result("vehicle-positions-sampling/trips-for-location", src.title, rs[2].status, "", map[])
            && (forall r <- rs :: r.status != Skip)
            && (rs[0].status == Fail <==> !listed.Got? || listed.value == [])
            && (rs[0].status == Pass <==> listed.Got? && ListsVehicle(listed.value, id, title, agency))
            && (rs[1].status == Pass <==> named.Got? && RefersTo(named.value, trip, agency))
            && (rs[1].status == Fail <==> named.Got? && named.value != "" && !RefersTo(named.value, trip, agency))
            && rs[2].status != Fail
            && (rs[2].status == Pass <==>
                  && v.position.Some? && v.position.value.latitude.Some? && v.position.value.longitude.Some?
                  && var near := sv.tripsForLocation(c + 2, v.position.value.latitude.value, v.position.value.longitude.value);
                     near.Got? && ListsTrip(near.value, trip, agency))
    ensures CallsFor(src, v) ==
            if v.position.Some? && v.position.value.latitude.Some? && v.position.value.longitude.Some? then 3 else 2
  {
    ListedReads(sv.vehiclesForAgency(c, ResolveVehicleAgency(src, v).value), v, ResolveVehicleAgency(src, v).value);
    NamedReads(sv.tripForVehicle(c + 1, PrefixedID(ResolveVehicleAgency(src, v).value, RawVehicle(v))), v.trip.value.id,
               ResolveVehicleAgency(src, v).value);
    if HasPlace(v) {
      NearbyReads(sv.tripsForLocation(c + 2, v.position.value.latitude.value, v.position.value.longitude.value),
                  v.trip.value.id, ResolveVehicleAgency(src, v).value);
    }
    NamesRead();
    hide ListedStatus, TripStatus, NearbyStatus, ListsVehicle, ListsTrip, RefersTo, PrefixedID, ResolveVehicleAgency, NAME;
  }

  lemma NamesRead()
    ensures NAME + "/vehicles-for-agency" == "vehicle-positions-sampling/vehicles-for-agency"
    ensures NAME + "/trip-for-vehicle" == "vehicle-positions-sampling/trip-for-vehicle"
    ensures NAME + "/trips-for-location" == "vehicle-positions-sampling/trips-for-location"
  {
  }

  lemma ListedReads(r: Reply<seq<string>>, v: Vehicle, agency: string)
    ensures var id := if v.id.Some? then v.id.value.id else "";
            var title := if v.id.Some? then v.id.value.title else "";
            && ListedStatus(r, v, agency) != Skip
            && (ListedStatus(r, v, agency) == Fail <==> !r.Got? || r.value == [])
            && (ListedStatus(r, v, agency) == Pass <==> r.Got? && ListsVehicle(r.value, id, title, agency))
  {
    forall apiID, raw ensures IDMatch(apiID, raw, agency) <==> RefersTo(apiID, raw, agency) {
      MatchMeaning(apiID, raw, agency);
    }
    hide IDMatch, RefersTo;
  }

  lemma NamedReads(r: Reply<string>, trip: string, agency: string)
    ensures TripStatus(r, trip, agency) != Skip
    ensures TripStatus(r, trip, agency) == Pass <==> r.Got? && RefersTo(r.value, trip, agency)
    ensures TripStatus(r, trip, agency) == Fail <==> r.Got? && r.value != "" && !RefersTo(r.value, trip, agency)
  {
    if r.Got? {
      MatchMeaning(r.value, trip, agency);
    }
    hide IDMatch, RefersTo;
  }

  lemma NearbyReads(r: Reply<seq<string>>, trip: string, agency: string)
    ensures NearbyStatus(r, trip, agency) == Pass || NearbyStatus(r, trip, agency) == Warn
    ensures NearbyStatus(r, trip, agency) == Pass <==> r.Got? && ListsTrip(r.value, trip, agency)
  {
    forall apiID ensures IDMatch(apiID, trip, agency) <==> RefersTo(apiID, trip, agency) {
      MatchMeaning(apiID, trip, agency);
    }
    hide IDMatch, RefersTo;
  }

  /** The sample: of the vehicles with both trip and position, or of all if none has both, as
      many as asked for, and none left out that has a smaller id. */
  lemma VehicleSampleMeans(src: Source, n: nat) returns (rest: seq<Vehicle>)
    ensures Unusable(src) <==>
              "vehiclePositions" in src.prepErrors || src.vehiclePositions.None? || src.vehiclePositions.value.vehicles == []
    ensures !Unusable(src) ==>
              var vs, sample := src.vehiclePositions.value.vehicles, SampleOf(src, n);
              && (forall v :: v in sample + rest <==>
                    && v in vs
                    && ((v.trip.Some? && v.position.Some?) || forall w <- vs :: w.trip.None? || w.position.None?))
              && |sample| == (if n < |sample + rest| then n else |sample + rest|)
              && (forall x <- sample, y <- rest ::
                    !Precedes(if y.id.Some? then y.id.value.id else "", if x.id.Some? then x.id.value.id else ""))
  {
    rest := [];
    if !Unusable(src) {
      var vs := src.vehiclePositions.value.vehicles;
      var pool := if Located(vs) == [] then vs else Located(vs);
      hide Sampled, Located, Precedes, InOrder, StablePermutation;
      rest := SampleIsSmallest(pool, n, RawVehicle);
      StablePermutationLength(SampleOf(src, n) + rest, pool, RawVehicle);
      PoolMembers(vs);
    }
  }

  lemma PoolMembers(vs: seq<Vehicle>)
    ensures forall v :: v in (if Located(vs) == [] then vs else Located(vs)) <==>
              v in vs && ((v.trip.Some? && v.position.Some?) || forall w <- vs :: w.trip.None? || w.position.None?)
  {
    LocatedMembers(vs);
    hide Located;
    assert Located(vs) == [] || Located(vs)[0] in Located(vs);
  }
}
