/** The two checks that ask for the arrivals at one stop per sampled entity: trip updates
    and service alerts. */
module StopChecks {
  import opened Strings
  import opened Sampling
  import opened IdNorm
  import opened Results
  import opened Context
  import opened FeedChecks
  import Gtfs

  const TRIPS := "trip-update-sampling"
  const ALERTS := "service-alert-crossref"

  /** `queryArrivals`: the board, or the warning to record instead. */
  method QueryArrivals(client: Client, check: string, source: string, obaStop: string)
    returns (ad: Option<Arrivals>, bad: Option<Result>)
    modifies client
    ensures client.calls == old(client.calls) + 1
    ensures var r := client.server.arrivals(old(client.calls), obaStop);
            if r.Got? then ad == Some(r.value) && bad == None else ad == None && bad == Some(Plain(check, source, Warn))
  {
    var r := client.ArrivalsForStop(obaStop);
    match r
    case Failed(_) => return None, Some(Plain(check, source, Warn));
    case Null => return None, Some(Plain(check, source, Warn));
    case Got(a) => return Some(a), None;
  }

  /* ----- trip-update-sampling ----- */

  predicate HasPrediction(u: StopTimeUpdate) {
    u.stopID.Some? && u.predicted
  }

  /** The stop of the first prediction. */
  function PredictedStop(us: seq<StopTimeUpdate>): Option<string> {
    if us == [] then None else if HasPrediction(us[0]) then us[0].stopID else PredictedStop(us[1..])
  }

  method FindPredictedStop(us: seq<StopTimeUpdate>) returns (stop: Option<string>)
    ensures stop == PredictedStop(us)
  {
    for i := 0 to |us|
      invariant PredictedStop(us) == PredictedStop(us[i..])
    {
      if HasPrediction(us[i]) {
        return us[i].stopID;
      }
      assert us[i..][1..] == us[i + 1..];
    }
    stop := None;
  }

  /** The trips with a prediction, in feed order. */
  function Predicted(ts: seq<TripUpdate>): seq<TripUpdate> {
    if ts == [] then []
    else Predicted(ts[..|ts| - 1]) + if PredictedStop(ts[|ts| - 1].updates).Some? then [ts[|ts| - 1]] else []
  }

  function TripOf(t: TripUpdate): string {
    t.trip.id
  }

  function UpdateAgency(src: Source, t: TripUpdate): string {
    if TripAgency(src, t.trip).Some? then TripAgency(src, t.trip).value else ""
  }

  function UpdateStop(src: Source, t: TripUpdate): string {
    var stop := PredictedStop(t.updates);
    PrefixedID(UpdateAgency(src, t), if stop.Some? then stop.value else "")
  }

  ghost predicate OnBoard(a: Arrivals, trip: string, agency: string) {
    exists arrival <- a.arrivals :: IDMatch(arrival.tripID, trip, agency)
  }

  ghost function UpdateResult(sv: Server, src: Source, t: TripUpdate, c: nat): Result {
    var r := sv.arrivals(c, UpdateStop(src, t));
    Plain(TRIPS, src.title,
      if !r.Got? then Warn else if OnBoard(r.value, t.trip.id, UpdateAgency(src, t)) then Pass else Fail)
  }

  predicate NoUpdates(src: Source) {
    "tripUpdates" in src.prepErrors || src.tripUpdates.None? || Predicted(src.tripUpdates.value.trips) == []
  }

  function UpdateSample(src: Source, n: nat): seq<TripUpdate> {
    if NoUpdates(src) then [] else Sampled(Predicted(src.tripUpdates.value.trips), n, TripOf)
  }

  /** One call and one result per sampled trip. */
  ghost function UpdateReport(sv: Server, src: Source, n: nat, c: nat): seq<Result> {
    var sample := UpdateSample(src, n);
    if NoUpdates(src) then [Plain(TRIPS, src.title, if "tripUpdates" in src.prepErrors then Fail else Warn)]
    else UpdateResults(sv, src, sample, c)
  }

  ghost function UpdateResults(sv: Server, src: Source, sample: seq<TripUpdate>, c: nat): seq<Result> {
    seq(|sample|, (i: nat) requires i < |sample| => UpdateResult(sv, src, sample[i], c + i))
  }

  method FindOnBoard(a: Arrivals, trip: string, agency: string) returns (found: bool)
    ensures found <==> OnBoard(a, trip, agency)
  {
    found := false;
    for i := 0 to |a.arrivals|
      invariant forall j :: 0 <= j < i ==> !IDMatch(a.arrivals[j].tripID, trip, agency)
    {
      if IDMatch(a.arrivals[i].tripID, trip, agency) {
        return true;
      }
    }
  }

  method JudgeUpdate(client: Client, src: Source, t: TripUpdate) returns (r: Result)
    modifies client
    ensures client.calls == old(client.calls) + 1
    ensures r == UpdateResult(client.server, src, t, old(client.calls))
  {
    var agency := "";
    var joined := TripAgency(src, t.trip);
    if joined.Some? {
      agency := joined.value;
    }
    var stop := FindPredictedStop(t.updates);
    var obaStop := PrefixedID(agency, if stop.Some? then stop.value else "");
    var ad, bad := QueryArrivals(client, TRIPS, src.title, obaStop);
    if bad.Some? {
      return bad.value;
    }
    var found := FindOnBoard(ad.value, t.trip.id, agency);
    r := Plain(TRIPS, src.title, if found then Pass else Fail);
  }

  method KeepPredicted(ts: seq<TripUpdate>) returns (usable: seq<TripUpdate>)
    ensures usable == Predicted(ts)
  {
    usable := [];
    for i := 0 to |ts|
      invariant usable == Predicted(ts[..i])
    {
      assert ts[..i + 1][..i] == ts[..i];
      var stop := FindPredictedStop(ts[i].updates);
      if stop.Some? {
        usable := usable + [ts[i]];
      }
    }
    assert ts[..|ts|] == ts;
  }

  method JudgeUpdates(client: Client, src: Source, sample: seq<TripUpdate>) returns (out: seq<Result>)
    modifies client
    ensures client.calls == old(client.calls) + |sample|
    ensures out == UpdateResults(client.server, src, sample, old(client.calls))
  {
    hide UpdateResult;
    out := [];
    for i := 0 to |sample|
      invariant client.calls == old(client.calls) + i && |out| == i
      invariant forall j: nat :: j < i ==> out[j] == UpdateResult(client.server, src, sample[j], old(client.calls) + j)
    {
      var r := JudgeUpdate(client, src, sample[i]);
      out := out + [r];
    }
  }

  /** `tripUpdateSamplingCheck.Run`; `None` is the panic of sampling a negative number. */
  method TripUpdateSampling(client: Client, src: Source, n: int) returns (out: Option<seq<Result>>)
    modifies client
    ensures out == None <==> n < 0 && !NoUpdates(src)
    ensures out.Some? ==> var m := if n < 0 then 0 else n;
              && out.value == UpdateReport(client.server, src, m, old(client.calls))
              && client.calls == old(client.calls) + |UpdateSample(src, m)|
    ensures out == None ==> client.calls == old(client.calls)
  {
    if "tripUpdates" in src.prepErrors {
      return Some([Plain(TRIPS, src.title, Fail)]);
    }
    if src.tripUpdates.None? || src.tripUpdates.value.trips == [] {
      return Some([Plain(TRIPS, src.title, Warn)]);
    }
    var usable := KeepPredicted(src.tripUpdates.value.trips);
    if usable == [] {
      return Some([Plain(TRIPS, src.title, Warn)]);
    }
    hide Sampled, UpdateResults, Predicted;
    var sample := SampleByID(usable, n, TripOf);
    if sample.None? {
      return None;
    }
    var results := JudgeUpdates(client, src, sample.value);
    out := Some(results);
  }

  lemma SampledTrip(src: Source, n: nat, i: nat)
    requires i < |UpdateSample(src, n)|
    ensures var t := UpdateSample(src, n)[i];
            src.tripUpdates.Some? && t in src.tripUpdates.value.trips && PredictedStop(t.updates).Some?
  {
    var rest := SampleIsSmallest(Predicted(src.tripUpdates.value.trips), n, TripOf);
    PredictedMembers(src.tripUpdates.value.trips);
    hide Sampled, Predicted;
    assert UpdateSample(src, n)[i] in UpdateSample(src, n);
  }

  /** Exactly when a sampled trip passes, warns or fails. */
  lemma UpdateVerdicts(sv: Server, src: Source, n: nat, c: nat, i: nat)
    requires i < |UpdateSample(src, n)|
    ensures |UpdateReport(sv, src, n, c)| == |UpdateSample(src, n)|
    ensures var t := UpdateSample(src, n)[i];
            var st, r := UpdateReport(sv, src, n, c)[i].status, sv.arrivals(c + i, UpdateStop(src, t));
            && src.tripUpdates.Some? && t in src.tripUpdates.value.trips && PredictedStop(t.updates).Some?
            && (st == Warn <==> !r.Got?)
            && (st == Pass <==> r.Got? && exists a <- r.value.arrivals :: RefersTo(a.tripID, t.trip.id, UpdateAgency(src, t)))
            && st != Skip
  {
    SampledTrip(src, n, i);
    var t := UpdateSample(src, n)[i];
    forall a ensures IDMatch(a, t.trip.id, UpdateAgency(src, t)) <==> RefersTo(a, t.trip.id, UpdateAgency(src, t)) {
      MatchMeaning(a, t.trip.id, UpdateAgency(src, t));
    }
    assert UpdateReport(sv, src, n, c)[i] == UpdateResult(sv, src, t, c + i);
    hide IDMatch, RefersTo, UpdateSample, UpdateAgency, UpdateStop, UpdateResults, PredictedStop;
  }

  /** The board arrived and no arrival is the trip's. */
  ghost predicate Absent(sv: Server, src: Source, t: TripUpdate, c: nat) {
    var r := sv.arrivals(c, UpdateStop(src, t));
    r.Got? && forall a <- r.value.arrivals :: !RefersTo(a.tripID, t.trip.id, UpdateAgency(src, t))
  }

  ghost predicate SomeAbsent(sv: Server, src: Source, sample: seq<TripUpdate>, c: nat) {
    exists i: nat :: i < |sample| && Absent(sv, src, sample[i], c + i)
  }

  /** The check fails exactly when the feed did not arrive or a sampled trip is absent. */
  lemma UpdateFailsExactly(sv: Server, src: Source, n: nat, c: nat)
    ensures AnyFails(UpdateReport(sv, src, n, c)) <==>
            "tripUpdates" in src.prepErrors || SomeAbsent(sv, src, UpdateSample(src, n), c)
  {
    var out, sample := UpdateReport(sv, src, n, c), UpdateSample(src, n);
    if NoUpdates(src) {
      assert out[0] in out;
    } else {
      forall i: nat | i < |sample| ensures out[i].status == Fail <==> Absent(sv, src, sample[i], c + i) {
        UpdateVerdicts(sv, src, n, c, i);
      }
      hide UpdateReport, UpdateSample, Absent;
      assert forall i: nat | i < |out| :: out[i] in out;
    }
  }

  lemma {:induction false} PredictedMembers(ts: seq<TripUpdate>)
    ensures forall t :: t in Predicted(ts) <==> t in ts && PredictedStop(t.updates).Some?
    decreases |ts|
  {
    if ts != [] {
      PredictedMembers(ts[..|ts| - 1]);
      assert ts == ts[..|ts| - 1] + [ts[|ts| - 1]];
    }
  }

  /* ----- service-alert-crossref ----- */

  datatype StopAlert = StopAlert(alert: Alert, rawStop: string)

  /** The first stop id that is not empty. */
  function AlertStop(ids: seq<Option<string>>): Option<string> {
    if ids == [] then None else if ids[0].Some? && ids[0].value != "" then ids[0] else AlertStop(ids[1..])
  }

  method FindAlertStop(ids: seq<Option<string>>) returns (stop: Option<string>)
    ensures stop == AlertStop(ids)
  {
    for i := 0 to |ids|
      invariant AlertStop(ids) == AlertStop(ids[i..])
    {
      if ids[i].Some? && ids[i].value != "" {
        return ids[i];
      }
      assert ids[i..][1..] == ids[i + 1..];
    }
    stop := None;
  }

  function WithStop(alerts: seq<Alert>): seq<StopAlert> {
    if alerts == [] then []
    else
      var a := alerts[|alerts| - 1];
      var stop := AlertStop(a.stopIDs);
      WithStop(alerts[..|alerts| - 1]) + if stop.Some? then [StopAlert(a, stop.value)] else []
  }

  function AlertOf(s: StopAlert): string {
    s.alert.id
  }

  /** The API id of the feed's first agency. */
  function AlertAgency(src: Source): string {
    if src.static_.Some? && src.static_.value.agencyIDs != [] then src.MapAgency(src.static_.value.agencyIDs[0]).0 else ""
  }

  /** The board shows situation `sid`, at an arrival or among its references. */
  ghost predicate Shows(a: Arrivals, sid: string) {
    (exists arrival <- a.arrivals :: sid in arrival.situationIDs) || sid in a.situations
  }

  ghost function AlertResult(sv: Server, src: Source, s: StopAlert, c: nat): Result {
    var r := sv.arrivals(c, PrefixedID(AlertAgency(src), s.rawStop));
    Plain(ALERTS, src.title,
      if !r.Got? then Warn
      else if exists sid :: Shows(r.value, sid) && IDMatch(sid, s.alert.id, AlertAgency(src)) then Pass
      else if forall sid :: !Shows(r.value, sid) then Fail
      else Warn)
  }

  predicate NoAlerts(src: Source) {
    "serviceAlerts" in src.prepErrors || src.serviceAlerts.None? || WithStop(src.serviceAlerts.value.alerts) == []
  }

  function AlertSample(src: Source, n: nat): seq<StopAlert> {
    if NoAlerts(src) then [] else Sampled(WithStop(src.serviceAlerts.value.alerts), n, AlertOf)
  }

  /** One call and one result per sampled alert. */
  ghost function AlertReport(sv: Server, src: Source, n: nat, c: nat): seq<Result> {
    var sample := AlertSample(src, n);
    if NoAlerts(src) then [Plain(ALERTS, src.title, if "serviceAlerts" in src.prepErrors then Fail else Warn)]
    else AlertResults(sv, src, sample, c)
  }

  ghost function AlertResults(sv: Server, src: Source, sample: seq<StopAlert>, c: nat): seq<Result> {
    seq(|sample|, (i: nat) requires i < |sample| => AlertResult(sv, src, sample[i], c + i))
  }

  /** Goes over all situations of a board. */
  method ScanSituations(a: Arrivals, alert: string, agency: string) returns (anySituation: bool, matched: bool)
    ensures anySituation <==> exists sid :: Shows(a, sid)
    ensures matched <==> exists sid :: Shows(a, sid) && IDMatch(sid, alert, agency)
  {
    hide IDMatch;
    anySituation, matched := false, false;
    ghost var seen: set<string> := {};
    for i := 0 to |a.arrivals|
      invariant forall sid :: sid in seen <==> exists j :: 0 <= j < i && sid in a.arrivals[j].situationIDs
      invariant anySituation <==> seen != {}
      invariant matched <==> exists sid <- seen :: IDMatch(sid, alert, agency)
    {
      ghost var before := seen;
      var ids := a.arrivals[i].situationIDs;
      for k := 0 to |ids|
        invariant forall sid :: sid in seen <==> sid in before || sid in ids[..k]
        invariant anySituation <==> seen != {}
        invariant matched <==> exists sid <- seen :: IDMatch(sid, alert, agency)
      {
        assert ids[..k + 1] == ids[..k] + [ids[k]];
        seen := seen + {ids[k]};
        anySituation := true;
        if IDMatch(ids[k], alert, agency) {
          matched := true;
        }
      }
    }
    ghost var before := seen;
    for k := 0 to |a.situations|
      invariant forall sid :: sid in seen <==> sid in before || sid in a.situations[..k]
      invariant anySituation <==> seen != {}
      invariant matched <==> exists sid <- seen :: IDMatch(sid, alert, agency)
    {
      assert a.situations[..k + 1] == a.situations[..k] + [a.situations[k]];
      seen := seen + {a.situations[k]};
      anySituation := true;
      if IDMatch(a.situations[k], alert, agency) {
        matched := true;
      }
    }
    assert forall sid :: sid in seen <==> Shows(a, sid);
  }

  method JudgeAlert(client: Client, src: Source, s: StopAlert, agency: string) returns (r: Result)
    requires agency == AlertAgency(src)
    modifies client
    ensures client.calls == old(client.calls) + 1
    ensures r == AlertResult(client.server, src, s, old(client.calls))
  {
    var ad, bad := QueryArrivals(client, ALERTS, src.title, PrefixedID(agency, s.rawStop));
    if bad.Some? {
      return bad.value;
    }
    var anySituation, matched := ScanSituations(ad.value, s.alert.id, agency);
    if matched {
      r := Plain(ALERTS, src.title, Pass);
    } else if !anySituation {
      r := Plain(ALERTS, src.title, Fail);
    } else {
      r := Plain(ALERTS, src.title, Warn);
    }
  }

  method KeepWithStop(alerts: seq<Alert>) returns (usable: seq<StopAlert>)
    ensures usable == WithStop(alerts)
  {
    usable := [];
    for i := 0 to |alerts|
      invariant usable == WithStop(alerts[..i])
    {
      assert alerts[..i + 1][..i] == alerts[..i];
      var stop := FindAlertStop(alerts[i].stopIDs);
      if stop.Some? {
        usable := usable + [StopAlert(alerts[i], stop.value)];
      }
    }
    assert alerts[..|alerts|] == alerts;
  }

  method JudgeAlerts(client: Client, src: Source, sample: seq<StopAlert>, agency: string) returns (out: seq<Result>)
    requires agency == AlertAgency(src)
    modifies client
    ensures client.calls == old(client.calls) + |sample|
    ensures out == AlertResults(client.server, src, sample, old(client.calls))
  {
    hide AlertResult, AlertAgency;
    out := [];
    for i := 0 to |sample|
      invariant client.calls == old(client.calls) + i && |out| == i
      invariant forall j: nat :: j < i ==> out[j] == AlertResult(client.server, src, sample[j], old(client.calls) + j)
    {
      var r := JudgeAlert(client, src, sample[i], agency);
      out := out + [r];
    }
  }

  /** `serviceAlertCheck.Run`; `None` is the panic of sampling a negative number. */
  method ServiceAlerts(client: Client, src: Source, n: int) returns (out: Option<seq<Result>>)
    modifies client
    ensures out == None <==> n < 0 && !NoAlerts(src)
    ensures out.Some? ==> var m := if n < 0 then 0 else n;
              && out.value == AlertReport(client.server, src, m, old(client.calls))
              && client.calls == old(client.calls) + |AlertSample(src, m)|
    ensures out == None ==> client.calls == old(client.calls)
  {
    if "serviceAlerts" in src.prepErrors {
      return Some([Plain(ALERTS, src.title, Fail)]);
    }
    if src.serviceAlerts.None? || src.serviceAlerts.value.alerts == [] {
      return Some([Plain(ALERTS, src.title, Warn)]);
    }
    var usable := KeepWithStop(src.serviceAlerts.value.alerts);
    if usable == [] {
      return Some([Plain(ALERTS, src.title, Warn)]);
    }
    hide Sampled, AlertResults, WithStop;
    var sample := SampleByID(usable, n, AlertOf);
    var agency := "";
    if src.static_.Some? && src.static_.value.agencyIDs != [] {
      agency := src.MapAgency(src.static_.value.agencyIDs[0]).0;
    }
    if sample.None? {
      return None;
    }
    var results := JudgeAlerts(client, src, sample.value, agency);
    out := Some(results);
  }

  lemma SampledAlert(src: Source, n: nat, i: nat)
    requires i < |AlertSample(src, n)|
    ensures var s := AlertSample(src, n)[i];
            src.serviceAlerts.Some? && s.alert in src.serviceAlerts.value.alerts && Some(s.rawStop) == AlertStop(s.alert.stopIDs)
  {
    var rest := SampleIsSmallest(WithStop(src.serviceAlerts.value.alerts), n, AlertOf);
    WithStopMembers(src.serviceAlerts.value.alerts);
    hide Sampled, WithStop;
    assert AlertSample(src, n)[i] in AlertSample(src, n);
  }

  /** Exactly when a sampled alert passes or fails: it fails only on a board that arrived
      and shows no situation at all. */
  lemma AlertVerdicts(sv: Server, src: Source, n: nat, c: nat, i: nat)
    requires i < |AlertSample(src, n)|
    ensures |AlertReport(sv, src, n, c)| == |AlertSample(src, n)|
    ensures var s, agency := AlertSample(src, n)[i], AlertAgency(src);
            var st, r := AlertReport(sv, src, n, c)[i].status, sv.arrivals(c + i, PrefixedID(agency, s.rawStop));
            && src.serviceAlerts.Some? && s.alert in src.serviceAlerts.value.alerts
            && Some(s.rawStop) == AlertStop(s.alert.stopIDs)
            && (st == Fail <==> r.Got? && forall sid :: !Shows(r.value, sid))
            && (st == Pass <==> r.Got? && exists sid :: Shows(r.value, sid) && RefersTo(sid, s.alert.id, agency))
            && st != Skip
  {
    SampledAlert(src, n, i);
    var s := AlertSample(src, n)[i];
    forall sid ensures IDMatch(sid, s.alert.id, AlertAgency(src)) <==> RefersTo(sid, s.alert.id, AlertAgency(src)) {
      MatchMeaning(sid, s.alert.id, AlertAgency(src));
    }
    assert AlertReport(sv, src, n, c)[i] == AlertResult(sv, src, s, c + i);
    hide IDMatch, RefersTo, AlertSample, AlertAgency, Shows, AlertResults, AlertStop, PrefixedID;
  }

  /** The board arrived without any situation. */
  ghost predicate Silent(sv: Server, src: Source, s: StopAlert, c: nat) {
    var r := sv.arrivals(c, PrefixedID(AlertAgency(src), s.rawStop));
    r.Got? && forall sid :: !Shows(r.value, sid)
  }

  ghost predicate SomeSilent(sv: Server, src: Source, sample: seq<StopAlert>, c: nat) {
    exists i: nat :: i < |sample| && Silent(sv, src, sample[i], c + i)
  }

  /** The check fails exactly when the feed did not arrive or the stop of a sampled alert
      shows no situation. */
  lemma AlertFailsExactly(sv: Server, src: Source, n: nat, c: nat)
    ensures AnyFails(AlertReport(sv, src, n, c)) <==>
            "serviceAlerts" in src.prepErrors || SomeSilent(sv, src, AlertSample(src, n), c)
  {
    var out, sample := AlertReport(sv, src, n, c), AlertSample(src, n);
    if NoAlerts(src) {
      assert out[0] in out;
    } else {
      forall i: nat | i < |sample| ensures out[i].status == Fail <==> Silent(sv, src, sample[i], c + i) {
        AlertVerdicts(sv, src, n, c, i);
      }
      hide AlertReport, AlertSample, Silent;
      assert forall i: nat | i < |out| :: out[i] in out;
    }
  }

  lemma {:induction false} WithStopMembers(alerts: seq<Alert>)
    ensures forall s :: s in WithStop(alerts) <==> s.alert in alerts && AlertStop(s.alert.stopIDs) == Some(s.rawStop)
    decreases |alerts|
  {
    if alerts != [] {
      WithStopMembers(alerts[..|alerts| - 1]);
      assert alerts == alerts[..|alerts| - 1] + [alerts[|alerts| - 1]];
    }
  }

  /* ----- Stops, samples and results in the feed's own terms ----- */

  /** The stop of a trip is that of its first update with a stop and a prediction. */
  lemma {:induction false} PredictedStopMeans(us: seq<StopTimeUpdate>)
    ensures PredictedStop(us).None? ==> forall u <- us :: u.stopID.None? || !u.predicted
    ensures PredictedStop(us).Some? ==>
              exists i :: 0 <= i < |us| && us[i].stopID == PredictedStop(us) && us[i].predicted
                && forall j :: 0 <= j < i ==> us[j].stopID.None? || !us[j].predicted
  {
    if us != [] && !HasPrediction(us[0]) {
      PredictedStopMeans(us[1..]);
      assert us == [us[0]] + us[1..];
      if PredictedStop(us[1..]).Some? {
        var i :| 0 <= i < |us| - 1 && us[1..][i].stopID == PredictedStop(us[1..]) && us[1..][i].predicted
          && forall j :: 0 <= j < i ==> us[1..][j].stopID.None? || !us[1..][j].predicted;
        assert us[i + 1] == us[1..][i];
        assert forall j :: 0 < j < i + 1 ==> us[j] == us[1..][j - 1];
      }
    }
  }

  /** The stop of an alert is its first stop id that is not empty. */
  lemma {:induction false} AlertStopMeans(ids: seq<Option<string>>)
    ensures AlertStop(ids).None? ==> forall id <- ids :: id.None? || id.value == ""
    ensures AlertStop(ids).Some? ==>
              exists i :: 0 <= i < |ids| && ids[i] == AlertStop(ids) && ids[i].value != ""
                && forall j :: 0 <= j < i ==> ids[j].None? || ids[j].value == ""
  {
    if ids != [] && !(ids[0].Some? && ids[0].value != "") {
      AlertStopMeans(ids[1..]);
      assert ids == [ids[0]] + ids[1..];
      if AlertStop(ids[1..]).Some? {
        var i :| 0 <= i < |ids| - 1 && ids[1..][i] == AlertStop(ids[1..]) && ids[1..][i].value != ""
          && forall j :: 0 <= j < i ==> ids[1..][j].None? || ids[1..][j].value == "";
        assert ids[i + 1] == ids[1..][i];
        assert forall j :: 0 < j < i + 1 ==> ids[j] == ids[1..][j - 1];
      }
    }
  }

  /** The sampled trips: of those with a prediction as many as asked for, and none left out
      whose id is smaller. */
  lemma UpdateSampleMeans(src: Source, n: nat) returns (rest: seq<TripUpdate>)
    requires "tripUpdates" !in src.prepErrors && src.tripUpdates.Some?
    ensures var ts, sample := src.tripUpdates.value.trips, UpdateSample(src, n);
            && (forall t: TripUpdate :: t in sample + rest <==> t in ts && exists u <- t.updates :: u.stopID.Some? && u.predicted)
            && |sample| == (if n < |sample + rest| then n else |sample + rest|)
            && (forall x <- sample, y <- rest :: !Precedes(y.trip.id, x.trip.id))
    ensures NoUpdates(src) <==> UpdateSample(src, n) + rest == []
  {
    var ts := src.tripUpdates.value.trips;
    var usable := Predicted(ts);
    PredictedMembers(ts);
    forall t: TripUpdate ensures PredictedStop(t.updates).Some? <==> exists u <- t.updates :: u.stopID.Some? && u.predicted {
      PredictedStopMeans(t.updates);
    }
    hide Sampled, Predicted, Precedes, InOrder, StablePermutation, PredictedStop;
    rest := SampleIsSmallest(usable, n, TripOf);
    StablePermutationLength(Sampled(usable, n, TripOf) + rest, usable, TripOf);
  }

  /** The sampled alerts: of those with a stop as many as asked for, and none left out whose id
      is smaller. */
  lemma AlertSampleMeans(src: Source, n: nat) returns (rest: seq<StopAlert>)
    requires "serviceAlerts" !in src.prepErrors && src.serviceAlerts.Some?
    ensures var alerts, sample := src.serviceAlerts.value.alerts, AlertSample(src, n);
            && (forall s: StopAlert :: s in sample + rest <==> s.alert in alerts && AlertStop(s.alert.stopIDs) == Some(s.rawStop))
            && |sample| == (if n < |sample + rest| then n else |sample + rest|)
            && (forall x <- sample, y <- rest :: !Precedes(y.alert.id, x.alert.id))
    ensures NoAlerts(src) <==> AlertSample(src, n) + rest == []
  {
    var alerts := src.serviceAlerts.value.alerts;
    var usable := WithStop(alerts);
    WithStopMembers(alerts);
    hide Sampled, WithStop, Precedes, InOrder, StablePermutation, AlertStop;
    rest := SampleIsSmallest(usable, n, AlertOf);
    StablePermutationLength(Sampled(usable, n, AlertOf) + rest, usable, AlertOf);
  }

  /** The agency behind the alerts' stops: the least id of the feed, under its mapping if it has
      one. */
  lemma AlertAgencyMeans(src: Source, feed: Gtfs.Static)
    requires src.static_.Some? ==> Gtfs.Indexes(src.static_.value, feed)
    ensures src.static_.None? || feed.agencies == [] ==> AlertAgency(src) == ""
    ensures src.static_.Some? && feed.agencies != [] ==>
              exists a <- feed.agencies ::
                && (forall b <- feed.agencies :: a.id == b.id || Precedes(a.id, b.id))
                && AlertAgency(src) == if a.id in src.agencyMapping then src.agencyMapping[a.id] else a.id
  {
    if src.static_.Some? {
      var ids := src.static_.value.agencyIDs;
      if feed.agencies != [] {
        assert feed.agencies[0].id in ids;
        assert ids[0] in ids;
        var a :| a in feed.agencies && a.id == ids[0];
        forall b | b in feed.agencies ensures a.id == b.id || Precedes(a.id, b.id) {
          assert b.id in ids;
          var j :| 0 <= j < |ids| && ids[j] == b.id;
        }
      } else if ids != [] {
        HeadIsMember(ids);
      }
    }
  }

  /** One result per sampled trip, under the check's name; the question is about its first
      predicted stop, prefixed with the agency of the trip if it is known. */
  lemma UpdateReads(sv: Server, src: Source, n: nat, c: nat, i: nat)
    requires i < |UpdateSample(src, n)|
    ensures var t := UpdateSample(src, n)[i];
            var agency := if TripAgency(src, t.trip).Some? then TripAgency(src, t.trip).value else "";
            && |UpdateReport(sv, src, n, c)| == |UpdateSample(src, n)| && PredictedStop(t.updates).Some?
            && var r := sv.arrivals(c + i, PrefixedID(agency, PredictedStop(t.updates).value));
               var st := UpdateReport(sv, src, n, c)[i].status;
               && UpdateReport(sv, src, n, c)[i] == Result("trip-update-sampling", src.title, st, "", map[])
               && (st == Warn <==> !r.Got?) && st != Skip
               && (st == Pass <==> r.Got? && exists a <- r.value.arrivals :: RefersTo(a.tripID, t.trip.id, agency))
  {
    UpdateVerdicts(sv, src, n, c, i);
    hide UpdateSample, TripAgency, RefersTo, PredictedStop, PrefixedID, OnBoard;
  }

  lemma AlertReads(sv: Server, src: Source, n: nat, c: nat, i: nat)
    requires i < |AlertSample(src, n)|
    ensures |AlertReport(sv, src, n, c)| == |AlertSample(src, n)|
    ensures AlertReport(sv, src, n, c)[i] ==
            Result("service-alert-crossref", src.title, AlertReport(sv, src, n, c)[i].status, "", map[])
  {
    assert AlertReport(sv, src, n, c)[i] == AlertResult(sv, src, AlertSample(src, n)[i], c + i);
    hide AlertSample, AlertAgency;
  }
}
