/** A whole run: the server checks, then every check of every data source, and what the
    document makes of the report. */
module Run {
  import opened Strings
  import opened Sampling
  import opened Results
  import opened Document
  import opened Context
  import Gtfs
  import ServerChecks
  import FeedChecks
  import VehicleChecks
  import StopChecks
  import opened Prepared

  /** `now` is the clock of the server's check, `readings(label, i)` the clock when feed `i` of
      that source is judged. */
  datatype Settings = Settings(sampleSize: nat, now: int, readings: (string, nat) -> int, maxAge: int)

  function ClockOf(src: Context.Source, st: Settings): nat -> int {
    (i: nat) => st.readings(src.title, i)
  }

  /* ----- The checks of one data source ----- */

  function SourceCalls(src: Context.Source, st: Settings): nat {
    VehicleChecks.Calls(src, VehicleChecks.SampleOf(src, st.sampleSize))
    + |StopChecks.UpdateSample(src, st.sampleSize)| + |StopChecks.AlertSample(src, st.sampleSize)|
  }

  /** The five checks in order, the first call having number `c`. */
  ghost function SourceResults(sv: Server, src: Context.Source, st: Settings, c: nat): seq<Result> {
    var afterVehicles := c + VehicleChecks.Calls(src, VehicleChecks.SampleOf(src, st.sampleSize));
    FeedChecks.SanityResults(src)
    + FeedChecks.FreshnessResults(src, ClockOf(src, st), st.maxAge)
    + VehicleChecks.VehicleReport(sv, src, st.sampleSize, c)
    + StopChecks.UpdateReport(sv, src, st.sampleSize, afterVehicles)
    + StopChecks.AlertReport(sv, src, st.sampleSize, afterVehicles + |StopChecks.UpdateSample(src, st.sampleSize)|)
  }

  /** The results on the feeds head those of a source: the sanity of its static feed, and each
      realtime feed judged by a reading of the clock of its own. */
  lemma FeedsRead(sv: Server, src: Context.Source, st: Settings, c: nat)
    ensures var out := SourceResults(sv, src, st, c);
            && |out| >= 4
            && [out[0]] == FeedChecks.SanityResults(src)
            && FeedChecks.Judged(out[1], "rt-freshness/vehiclePositions", src, "vehiclePositions",
                                 src.vehiclePositions, st.readings(src.title, 0), st.maxAge)
            && FeedChecks.Judged(out[2], "rt-freshness/tripUpdates", src, "tripUpdates",
                                 src.tripUpdates, st.readings(src.title, 1), st.maxAge)
            && FeedChecks.Judged(out[3], "rt-freshness/serviceAlerts", src, "serviceAlerts",
                                 src.serviceAlerts, st.readings(src.title, 2), st.maxAge)
  {
    FeedChecks.FreshnessMeans(src, ClockOf(src, st), st.maxAge);
    FeedChecks.SanityMeans(src);
    hide FeedChecks.Judged, FeedChecks.FreshnessResults, FeedChecks.SanityResults, FeedChecks.FreshnessResult,
      VehicleChecks.VehicleReport, StopChecks.UpdateReport, StopChecks.AlertReport;
  }

  method RunSource(client: Client, src: Context.Source, st: Settings) returns (out: seq<Result>)
    modifies client
    ensures out == SourceResults(client.server, src, st, old(client.calls))
    ensures client.calls == old(client.calls) + SourceCalls(src, st)
  {
    hide VehicleChecks.VehicleReport, StopChecks.UpdateReport, StopChecks.AlertReport,
      VehicleChecks.SampleOf, StopChecks.UpdateSample, StopChecks.AlertSample,
      VehicleChecks.Calls, FeedChecks.SanityResults, FeedChecks.FreshnessResults;
    var sanity := FeedChecks.GtfsSanity(src);
    var age := FeedChecks.Freshness(src, ClockOf(src, st), st.maxAge);
    out := sanity + age;
    var vehicles := VehicleChecks.VehicleSampling(client, src, st.sampleSize);
    out := out + vehicles.value;
    var updates := StopChecks.TripUpdateSampling(client, src, st.sampleSize);
    out := out + updates.value;
    var alerts := StopChecks.ServiceAlerts(client, src, st.sampleSize);
    out := out + alerts.value;
  }

  /* ----- All data sources ----- */

  function RunCalls(sources: seq<Context.Source>, st: Settings): nat {
    if sources == [] then 0
    else RunCalls(sources[..|sources| - 1], st) + SourceCalls(sources[|sources| - 1], st)
  }

  /** The results of each data source. */
  ghost function Parts(sv: Server, sources: seq<Context.Source>, st: Settings, c: nat): (parts: seq<seq<Result>>)
    ensures |parts| == |sources|
  {
    if sources == [] then []
    else
      var front := sources[..|sources| - 1];
      Parts(sv, front, st, c) + [SourceResults(sv, sources[|sources| - 1], st, c + RunCalls(front, st))]
  }

  ghost function Joined(server: seq<Result>, parts: seq<seq<Result>>): seq<Result> {
    if parts == [] then server else Joined(server, parts[..|parts| - 1]) + parts[|parts| - 1]
  }

  method RunSources(client: Client, server: seq<Result>, sources: seq<Context.Source>, st: Settings)
    returns (rep: seq<Result>)
    modifies client
    ensures rep == Joined(server, Parts(client.server, sources, st, old(client.calls)))
    ensures client.calls == old(client.calls) + RunCalls(sources, st)
  {
    hide SourceResults, SourceCalls;
    rep := server;
    for i := 0 to |sources|
      invariant rep == Joined(server, Parts(client.server, sources[..i], st, old(client.calls)))
      invariant client.calls == old(client.calls) + RunCalls(sources[..i], st)
    {
      assert sources[..i + 1][..i] == sources[..i];
      var out := RunSource(client, sources[i], st);
      ghost var parts := Parts(client.server, sources[..i], st, old(client.calls));
      assert (parts + [out])[..|parts|] == parts;
      rep := rep + out;
    }
    assert sources[..|sources|] == sources;
  }

  /** The results of the server checks: the chain, then the union. */
  ghost predicate ServerPart(server: seq<Result>, sv: Server, c: nat, agencies: Reply<seq<string>>,
                             sources: seq<Context.Source>)
  {
    && |server| >= 7
    && ServerChecks.ChainShape(server[..7], ServerChecks.StepsPassed(sv, c, agencies))
    && ServerChecks.UnionPart(server[7..], agencies, sources)
  }

  method RunServer(client: Client, agencies: Reply<seq<string>>, sources: seq<Context.Source>, now: int)
    returns (server: seq<Result>)
    modifies client
    ensures ServerPart(server, client.server, old(client.calls), agencies, sources)
    ensures client.calls ==
            old(client.calls) + ServerChecks.StepCalls(ServerChecks.StepsPassed(client.server, old(client.calls), agencies))
  {
    hide ServerChecks.StepsPassed, ServerChecks.UnionPart;
    var chain := ServerChecks.Endpoints(client, agencies, now);
    var out := ServerChecks.AgencyUnion(agencies, sources);
    server := chain + out;
    assert server[..7] == chain && server[7..] == out;
  }

  /** The checks behind `prepare`: any replies, any prepared feeds. */
  method RunChecks(client: Client, agencies: Reply<seq<string>>, sources: seq<Context.Source>, st: Settings)
    returns (rep: seq<Result>, ghost server: seq<Result>)
    modifies client
    ensures ServerPart(server, client.server, old(client.calls), agencies, sources)
    ensures var first := ServerChecks.StepCalls(ServerChecks.StepsPassed(client.server, old(client.calls), agencies));
            && rep == Joined(server, Parts(client.server, sources, st, old(client.calls) + first))
            && client.calls == old(client.calls) + first + RunCalls(sources, st)
  {
    hide ServerPart, Joined, Parts, RunCalls, ServerChecks.StepsPassed;
    var out := RunServer(client, agencies, sources, st.now);
    server := out;
    rep := RunSources(client, out, sources, st);
  }

  /* ----- The budget of a run ----- */

  /** At most `most` results for a sample of `n`, at least one unless `n` is 0. */
  ghost predicate Bounded(out: seq<Result>, source: string, n: nat, most: nat) {
    && |out| <= (if n > 0 then most else 1)
    && (n > 0 ==> |out| > 0)
    && AllFrom(out, source)
  }

  ghost predicate AllFrom(rs: seq<Result>, source: string) {
    forall r <- rs :: r.source == source
  }

  lemma AllFromConcat(a: seq<Result>, b: seq<Result>, source: string)
    requires AllFrom(a, source) && AllFrom(b, source)
    ensures AllFrom(a + b, source)
  {
  }

  lemma UpdateCounts(sv: Server, src: Context.Source, n: nat, c: nat)
    ensures |StopChecks.UpdateSample(src, n)| <= n && Bounded(StopChecks.UpdateReport(sv, src, n, c), src.title, n, n)
  {
    if !StopChecks.NoUpdates(src) {
      SampledLength(StopChecks.Predicted(src.tripUpdates.value.trips), n, StopChecks.TripOf);
    }
    hide Sampled, StopChecks.Predicted;
  }

  lemma AlertCounts(sv: Server, src: Context.Source, n: nat, c: nat)
    ensures |StopChecks.AlertSample(src, n)| <= n && Bounded(StopChecks.AlertReport(sv, src, n, c), src.title, n, n)
  {
    if !StopChecks.NoAlerts(src) {
      SampledLength(StopChecks.WithStop(src.serviceAlerts.value.alerts), n, StopChecks.AlertOf);
    }
    hide Sampled, StopChecks.WithStop;
  }

  lemma VehicleCounts(sv: Server, src: Context.Source, n: nat, c: nat)
    ensures VehicleChecks.Calls(src, VehicleChecks.SampleOf(src, n)) <= 3 * n
    ensures Bounded(VehicleChecks.VehicleReport(sv, src, n, c), src.title, n, 3 * n)
  {
    if !VehicleChecks.Unusable(src) {
      var vs := src.vehiclePositions.value.vehicles;
      SampledLength(vs, n, VehicleChecks.RawVehicle);
      SampledLength(VehicleChecks.Located(vs), n, VehicleChecks.RawVehicle);
    }
    VehicleChecks.JudgementsCount(sv, src, VehicleChecks.SampleOf(src, n), c);
    hide Sampled, VehicleChecks.Located, VehicleChecks.Judgements, VehicleChecks.Calls;
  }

  lemma BoundedParts(head: seq<Result>, a: seq<Result>, b: seq<Result>, d: seq<Result>, source: string, n: nat)
    requires |head| == 4 && AllFrom(head, source)
    requires Bounded(a, source, n, 3 * n) && Bounded(b, source, n, n) && Bounded(d, source, n, n)
    ensures n >= 1 ==> 7 <= |head + a + b + d| <= 4 + 5 * n
    ensures AllFrom(head + a + b + d, source)
  {
    hide AllFrom;
    AllFromConcat(head, a, source);
    AllFromConcat(head + a, b, source);
    AllFromConcat(head + a + b, d, source);
  }

  lemma FeedCounts(src: Context.Source, st: Settings)
    ensures var head := FeedChecks.SanityResults(src) + FeedChecks.FreshnessResults(src, ClockOf(src, st), st.maxAge);
            |head| == 4 && AllFrom(head, src.title)
  {
  }

  /** What one data source contributes, for all feeds and all replies. */
  lemma SourceBudget(sv: Server, src: Context.Source, st: Settings, c: nat)
    ensures var rs, n := SourceResults(sv, src, st, c), st.sampleSize;
            && (n >= 1 ==> 7 <= |rs| <= 4 + 5 * n)
            && AllFrom(rs, src.title)
            && SourceCalls(src, st) <= 5 * n
  {
    hide VehicleChecks.VehicleReport, StopChecks.UpdateReport, StopChecks.AlertReport, AllFrom, Bounded,
      VehicleChecks.SampleOf, StopChecks.UpdateSample, StopChecks.AlertSample, VehicleChecks.Calls,
      FeedChecks.SanityResults, FeedChecks.FreshnessResults;
    var n := st.sampleSize;
    var afterVehicles := c + VehicleChecks.Calls(src, VehicleChecks.SampleOf(src, n));
    var afterUpdates := afterVehicles + |StopChecks.UpdateSample(src, n)|;
    FeedCounts(src, st);
    VehicleCounts(sv, src, n, c);
    UpdateCounts(sv, src, n, afterVehicles);
    AlertCounts(sv, src, n, afterUpdates);
    BoundedParts(FeedChecks.SanityResults(src) + FeedChecks.FreshnessResults(src, ClockOf(src, st), st.maxAge),
                 VehicleChecks.VehicleReport(sv, src, n, c), StopChecks.UpdateReport(sv, src, n, afterVehicles),
                 StopChecks.AlertReport(sv, src, n, afterUpdates), src.title, n);
  }

  lemma JoinedStep(sv: Server, server: seq<Result>, sources: seq<Context.Source>, st: Settings, c: nat)
    requires sources != []
    ensures var front := sources[..|sources| - 1];
            Joined(server, Parts(sv, sources, st, c))
            == Joined(server, Parts(sv, front, st, c)) + SourceResults(sv, sources[|sources| - 1], st, c + RunCalls(front, st))
  {
    hide SourceResults, RunCalls;
    var front := sources[..|sources| - 1];
    var parts, last := Parts(sv, front, st, c), SourceResults(sv, sources[|sources| - 1], st, c + RunCalls(front, st));
    assert Parts(sv, sources, st, c) == parts + [last];
    assert (parts + [last])[..|parts|] == parts;
  }

  lemma {:induction false} RunBudget(sv: Server, server: seq<Result>, sources: seq<Context.Source>, st: Settings, c: nat)
    ensures RunCalls(sources, st) <= 5 * st.sampleSize * |sources|
    ensures st.sampleSize >= 1 ==>
              |server| + 7 * |sources| <= |Joined(server, Parts(sv, sources, st, c))| <= |server| + (4 + 5 * st.sampleSize) * |sources|
    decreases |sources|
  {
    hide SourceResults, SourceCalls;
    if sources != [] {
      var front, src := sources[..|sources| - 1], sources[|sources| - 1];
      RunBudget(sv, server, front, st, c);
      SourceBudget(sv, src, st, c + RunCalls(front, st));
      JoinedStep(sv, server, sources, st, c);
      Distribute(5 * st.sampleSize, |front|);
      Distribute(4 + 5 * st.sampleSize, |front|);
      hide Joined, Parts;
    }
  }

  /** `Run` with the feeds that `prepare` fetched: the agency list, then the checks. It makes
      at most 7 + 5 * n * |sources| calls. */
  method Run(client: Client, sources: seq<Context.Source>, st: Settings)
    returns (rep: seq<Result>, ghost server: seq<Result>)
    modifies client
    ensures var c, sv := old(client.calls), client.server;
            var agencies := sv.agencies(c);
            var first := c + 1 + ServerChecks.StepCalls(ServerChecks.StepsPassed(sv, c + 1, agencies));
            && ServerPart(server, sv, c + 1, agencies, sources)
            && rep == Joined(server, Parts(sv, sources, st, first))
    ensures client.calls - old(client.calls) <= 7 + 5 * st.sampleSize * |sources|
    ensures st.sampleSize >= 1 ==>
              |server| + 7 * |sources| <= |rep| <= |server| + (4 + 5 * st.sampleSize) * |sources|
  {
    hide ServerPart, Joined, Parts, RunCalls, ServerChecks.StepsPassed;
    var agencies := client.AgenciesWithCoverage();
    ghost var c := client.calls;
    rep, server := RunChecks(client, agencies, sources, st);
    RunBudget(client.server, server, sources, st, c + ServerChecks.StepCalls(ServerChecks.StepsPassed(client.server, c, agencies)));
  }

  lemma Distribute(a: nat, k: nat)
    ensures a * (k + 1) == a * k + a
  {
  }

  /* ----- The document of a run ----- */

  /** Server results carry no source, part `i` carries the label of data source `i`. */
  ghost predicate Titled(server: seq<Result>, parts: seq<seq<Result>>) {
    && (forall r <- server :: r.source == "")
    && (forall i, r :: 0 <= i < |parts| && r in parts[i] ==> r.source == SourceLabel(i))
  }

  /** The part that belongs to source `k`. */
  ghost function PartOf(server: seq<Result>, parts: seq<seq<Result>>, j: nat): seq<Result>
    requires j <= |parts|
  {
    if j == 0 then server else parts[j - 1]
  }

  function KeyAt(j: nat): string {
    if j == 0 then "" else SourceLabel(j - 1)
  }

  lemma KeysDiffer(i: nat, j: nat)
    ensures KeyAt(i) == KeyAt(j) ==> i == j
  {
    if i > 0 && j > 0 && SourceLabel(i - 1) == SourceLabel(j - 1) {
      SourceLabelInjective(i - 1, j - 1);
    }
  }

  lemma TitledPart(server: seq<Result>, parts: seq<seq<Result>>)
    requires Titled(server, parts)
    ensures forall r <- server :: r.source == KeyAt(0)
    ensures parts != [] ==> forall r <- parts[|parts| - 1] :: r.source == KeyAt(|parts|)
    ensures parts != [] ==> Titled(server, parts[..|parts| - 1])
  {
    hide SourceLabel;
  }

  /** Filtering the report by source gives back the part. */
  lemma {:induction false} FromJoined(server: seq<Result>, parts: seq<seq<Result>>, j: nat)
    requires Titled(server, parts)
    ensures From(Joined(server, parts), KeyAt(j)) == if j <= |parts| then PartOf(server, parts, j) else []
    decreases |parts|
  {
    TitledPart(server, parts);
    hide Titled, From, KeyAt;
    KeysDiffer(|parts|, j);
    if parts == [] {
      FromUniform(server, KeyAt(0), KeyAt(j));
    } else {
      var front, last := parts[..|parts| - 1], parts[|parts| - 1];
      FromJoined(server, front, j);
      FromConcat(Joined(server, front), last, KeyAt(j));
      FromUniform(last, KeyAt(|parts|), KeyAt(j));
    }
  }

  lemma {:induction false} JoinedSources(server: seq<Result>, parts: seq<seq<Result>>)
    requires Titled(server, parts)
    ensures forall r <- Joined(server, parts) :: r.source == "" || IsLabel(r.source, |parts|)
    decreases |parts|
  {
    hide SourceLabel;
    if parts != [] {
      JoinedSources(server, parts[..|parts| - 1]);
    }
  }

  lemma {:induction false} NoOthers(rs: seq<Result>, n: nat)
    requires forall r <- rs :: r.source == "" || IsLabel(r.source, n)
    ensures OtherSources(rs, n) == []
    decreases |rs|
  {
    if rs != [] {
      NoOthers(rs[..|rs| - 1], n);
    }
  }

  lemma NoLeftovers(server: seq<Result>, parts: seq<seq<Result>>)
    requires Titled(server, parts)
    ensures Leftovers(Joined(server, parts), |parts|) == []
  {
    JoinedSources(server, parts);
    NoOthers(Joined(server, parts), |parts|);
  }

  /** The sources of the first `n` groups. */
  function Keys(n: nat): seq<string> {
    seq(n, (i: nat) => KeyAt(i))
  }

  lemma KeysStep(n: nat)
    ensures Keys(n + 1) == Keys(n) + [KeyAt(n)]
  {
    hide KeyAt;
  }

  lemma RegroupedStep(rs: seq<Result>, keys: seq<string>, key: string)
    ensures Regrouped(rs, keys + [key]) == Regrouped(rs, keys) + From(rs, key)
  {
    hide From;
    assert (keys + [key])[..|keys|] == keys;
  }

  lemma JoinedFirst(server: seq<Result>, parts: seq<seq<Result>>, j: nat)
    requires j <= |parts|
    ensures j == 0 ==> Joined(server, parts[..j]) == server
    ensures j > 0 ==> Joined(server, parts[..j]) == Joined(server, parts[..j - 1]) + parts[j - 1]
  {
    if j > 0 {
      assert parts[..j][..j - 1] == parts[..j - 1] && parts[..j][j - 1] == parts[j - 1];
    }
  }

  lemma {:induction false} RegroupedJoined(server: seq<Result>, parts: seq<seq<Result>>, j: nat)
    requires Titled(server, parts) && j <= |parts|
    ensures Regrouped(Joined(server, parts), Keys(j + 1)) == Joined(server, parts[..j])
  {
    var rs := Joined(server, parts);
    assert Keys(0) == [] && Regrouped(rs, []) == [];
    hide Keys, KeyAt, From, Regrouped, Joined, Titled;
    KeysStep(j);
    RegroupedStep(rs, Keys(j), KeyAt(j));
    FromJoined(server, parts, j);
    JoinedFirst(server, parts, j);
    if j > 0 {
      RegroupedJoined(server, parts, j - 1);
    }
  }

  lemma RunKeys(server: seq<Result>, parts: seq<seq<Result>>)
    requires Titled(server, parts)
    ensures var keys := GroupKeys(Joined(server, parts), |parts|);
            keys == [""] + Labels(|parts|) == Keys(|parts| + 1)
  {
    NoLeftovers(server, parts);
    hide Joined, Leftovers, SourceLabel, Titled;
  }

  lemma RunGroupAt(server: seq<Result>, parts: seq<seq<Result>>, key: string, j: nat)
    requires Titled(server, parts) && j <= |parts|
    ensures var groups := GroupsOf(Joined(server, parts), |parts|, key);
            |groups| == |parts| + 1 && groups[j].results == ItemsOf(PartOf(server, parts, j), key)
  {
    var rs, n := Joined(server, parts), |parts|;
    RunKeys(server, parts);
    hide GroupsOf, GroupKeys, ItemsOf, Joined, From, Labels, PartOf, KeyAt;
    assert |GroupKeys(rs, n)| == n + 1 && GroupKeys(rs, n)[j] == KeyAt(j);
    GroupsLikeKeys(rs, n, key);
    GroupIsSublist(rs, n, key, j);
    FromJoined(server, parts, j);
  }

  lemma GroupsLikeKeys(rs: seq<Result>, n: nat, key: string)
    ensures |GroupsOf(rs, n, key)| == |GroupKeys(rs, n)|
  {
  }

  /** The document of a run has one group for the server and one per data source, in order,
      and the groups one behind the other are the report. */
  lemma RunGroups(server: seq<Result>, parts: seq<seq<Result>>, key: string)
    requires Titled(server, parts)
    ensures var rs, n := Joined(server, parts), |parts|;
            && GroupKeys(rs, n) == [""] + Labels(n)
            && Regrouped(rs, GroupKeys(rs, n)) == rs
            && |GroupsOf(rs, n, key)| == n + 1
            && forall j :: 0 <= j <= n ==>
                 GroupsOf(rs, n, key)[j].results == ItemsOf(PartOf(server, parts, j), key)
  {
    var rs, n := Joined(server, parts), |parts|;
    hide GroupsOf, GroupKeys, ItemsOf, Joined, Regrouped, Labels, PartOf, Keys, KeyAt, Titled;
    RunKeys(server, parts);
    RegroupedJoined(server, parts, n);
    assert parts[..n] == parts;
    RunGroupAt(server, parts, key, 0);
    forall j | 0 <= j <= n ensures GroupsOf(rs, n, key)[j].results == ItemsOf(PartOf(server, parts, j), key) {
      RunGroupAt(server, parts, key, j);
    }
  }

  lemma ServerTitles(server: seq<Result>, sv: Server, c: nat, agencies: Reply<seq<string>>, sources: seq<Context.Source>)
    requires ServerPart(server, sv, c, agencies, sources)
    ensures forall r <- server :: r.source == ""
  {
    hide ServerChecks.ChainShape, ServerChecks.UnionPart, ServerChecks.StepsPassed;
    forall r | r in server ensures r.source == "" {
      var i :| 0 <= i < |server| && server[i] == r;
      if i < 7 {
        assert server[..7][i] == r;
        ChainTitles(server[..7], ServerChecks.StepsPassed(sv, c, agencies), i);
      } else {
        assert server[7..][i - 7] == r;
        UnionTitles(server[7..], agencies, sources, i - 7);
      }
    }
  }

  lemma ChainTitles(out: seq<Result>, f: nat, i: nat)
    requires ServerChecks.ChainShape(out, f) && i < 7
    ensures out[i].source == ""
  {
    if i < f {
      assert out[..f][i] == out[i];
    }
  }

  lemma UnionTitles(out: seq<Result>, agencies: Reply<seq<string>>, sources: seq<Context.Source>, i: nat)
    requires ServerChecks.UnionPart(out, agencies, sources) && i < |out|
    ensures out[i].source == ""
  {
    if agencies.Got? {
      var served, exp := ServerChecks.ServedSet(agencies), ServerChecks.AllExpected(sources);
      var surplus :| ServerChecks.Lists(surplus, served - ServerChecks.ObaIDs(exp))
                     && ServerChecks.IsUnion(out, exp, served, surplus);
      if i >= |exp| {
        assert out[|exp| + (i - |exp|)] == ServerChecks.Unexpected(surplus[i - |exp|]);
      }
    }
  }

  lemma {:induction false} PartsTitles(sv: Server, sources: seq<Context.Source>, st: Settings, c: nat)
    requires Labelled(sources)
    ensures var parts := Parts(sv, sources, st, c);
            forall i, r :: 0 <= i < |parts| && r in parts[i] ==> r.source == SourceLabel(i)
    decreases |sources|
  {
    hide SourceResults, SourceLabel, RunCalls;
    if sources != [] {
      var front, src := sources[..|sources| - 1], sources[|sources| - 1];
      PartsTitles(sv, front, st, c);
      SourceBudget(sv, src, st, c + RunCalls(front, st));
    }
  }

  /** Every report of a run, for all feeds and all replies: exactly one server group and one
      group per data source, no leftovers, and the report's own order. */
  lemma RunReportGroups(server: seq<Result>, sv: Server, c: nat, agencies: Reply<seq<string>>,
                        sources: seq<Context.Source>, st: Settings, c': nat, key: string)
    requires ServerPart(server, sv, c, agencies, sources) && Labelled(sources)
    ensures var parts := Parts(sv, sources, st, c');
            var rs, n := Joined(server, parts), |sources|;
            && GroupKeys(rs, n) == [""] + Labels(n)
            && Regrouped(rs, GroupKeys(rs, n)) == rs
            && |GroupsOf(rs, n, key)| == n + 1
            && forall j :: 0 <= j <= n ==>
                 GroupsOf(rs, n, key)[j].results == ItemsOf(PartOf(server, parts, j), key)
  {
    ServerTitles(server, sv, c, agencies, sources);
    PartsTitles(sv, sources, st, c');
    hide Parts, Joined, GroupsOf, GroupKeys, Labels, ItemsOf, Regrouped, PartOf;
    RunGroups(server, Parts(sv, sources, st, c'), key);
  }

  /* ----- What a FAIL means ----- */

  /** The reasons for which a data source fails a run. */
  ghost predicate Blamed(sv: Server, src: Context.Source, st: Settings, c: nat) {
    var n := st.sampleSize;
    var afterVehicles := c + VehicleChecks.Calls(src, VehicleChecks.SampleOf(src, n));
    || !FeedChecks.Sane(src)
    || (exists i: nat :: i < 3 && FeedChecks.FreshnessStatus(src, i, ClockOf(src, st)(i), st.maxAge) == Fail)
    || VehicleChecks.SomeContradicted(sv, src, VehicleChecks.SampleOf(src, n), c)
    || StopChecks.SomeAbsent(sv, src, StopChecks.UpdateSample(src, n), afterVehicles)
    || StopChecks.SomeSilent(sv, src, StopChecks.AlertSample(src, n), afterVehicles + |StopChecks.UpdateSample(src, n)|)
  }

  lemma FreshnessFails(src: Context.Source, clock: nat -> int, maxAge: int)
    ensures AnyFails(FeedChecks.FreshnessResults(src, clock, maxAge)) <==>
            exists i: nat :: i < 3 && FeedChecks.FreshnessStatus(src, i, clock(i), maxAge) == Fail
    ensures "vehiclePositions" in src.prepErrors ==> FeedChecks.FreshnessStatus(src, 0, clock(0), maxAge) == Fail
    ensures "tripUpdates" in src.prepErrors ==> FeedChecks.FreshnessStatus(src, 1, clock(1), maxAge) == Fail
    ensures "serviceAlerts" in src.prepErrors ==> FeedChecks.FreshnessStatus(src, 2, clock(2), maxAge) == Fail
  {
    var out := FeedChecks.FreshnessResults(src, clock, maxAge);
    assert out == [out[0], out[1], out[2]];
  }

  lemma SanityFails(src: Context.Source)
    ensures AnyFails(FeedChecks.SanityResults(src)) <==> !FeedChecks.Sane(src)
  {
    var out := FeedChecks.SanityResults(src);
    assert out[0] in out && out == [out[0]];
  }

  lemma SourceFails(sv: Server, src: Context.Source, st: Settings, c: nat)
    ensures AnyFails(SourceResults(sv, src, st, c)) <==> Blamed(sv, src, st, c)
  {
    hide VehicleChecks.VehicleReport, StopChecks.UpdateReport, StopChecks.AlertReport, AnyFails,
      VehicleChecks.SampleOf, StopChecks.UpdateSample, StopChecks.AlertSample, VehicleChecks.Calls,
      FeedChecks.SanityResults, FeedChecks.FreshnessResults, FeedChecks.FreshnessStatus, FeedChecks.Sane,
      VehicleChecks.SomeContradicted, StopChecks.SomeAbsent, StopChecks.SomeSilent;
    var n := st.sampleSize;
    var afterVehicles := c + VehicleChecks.Calls(src, VehicleChecks.SampleOf(src, n));
    var afterUpdates := afterVehicles + |StopChecks.UpdateSample(src, n)|;
    SanityFails(src);
    FreshnessFails(src, ClockOf(src, st), st.maxAge);
    VehicleChecks.VehicleFailsExactly(sv, src, n, c);
    StopChecks.UpdateFailsExactly(sv, src, n, afterVehicles);
    StopChecks.AlertFailsExactly(sv, src, n, afterUpdates);
    var sanity, age := FeedChecks.SanityResults(src), FeedChecks.FreshnessResults(src, ClockOf(src, st), st.maxAge);
    var vehicles, updates := VehicleChecks.VehicleReport(sv, src, n, c), StopChecks.UpdateReport(sv, src, n, afterVehicles);
    AnyFailsConcat(sanity, age);
    AnyFailsConcat(sanity + age, vehicles);
    AnyFailsConcat(sanity + age + vehicles, updates);
    AnyFailsConcat(sanity + age + vehicles + updates, StopChecks.AlertReport(sv, src, n, afterUpdates));
  }

  /** The reasons for which the server fails a run. */
  ghost predicate ServerBlamed(sv: Server, c: nat, agencies: Reply<seq<string>>, sources: seq<Context.Source>) {
    || ServerChecks.StepsPassed(sv, c, agencies) < 7
    || !agencies.Got?
    || ServerChecks.MappedUnserved(agencies.value, sources)
  }

  lemma ChainFails(out: seq<Result>, f: nat)
    requires ServerChecks.ChainShape(out, f)
    ensures AnyFails(out) <==> f < 7
  {
    if f < 7 {
      assert out[f] in out;
    } else {
      assert out[..7] == out;
    }
  }

  lemma ServerFails(server: seq<Result>, sv: Server, c: nat, agencies: Reply<seq<string>>, sources: seq<Context.Source>)
    requires ServerPart(server, sv, c, agencies, sources)
    ensures AnyFails(server) <==> ServerBlamed(sv, c, agencies, sources)
  {
    ChainFails(server[..7], ServerChecks.StepsPassed(sv, c, agencies));
    ServerChecks.UnionFailsExactly(server[7..], agencies, sources);
    assert server == server[..7] + server[7..];
    hide ServerChecks.StepsPassed, ServerChecks.MappedUnserved, AnyFails;
    AnyFailsConcat(server[..7], server[7..]);
  }

  ghost predicate BlamedAt(sv: Server, sources: seq<Context.Source>, st: Settings, c: nat, i: nat)
    requires i < |sources|
  {
    Blamed(sv, sources[i], st, c + RunCalls(sources[..i], st))
  }

  ghost predicate SomeBlamed(sv: Server, sources: seq<Context.Source>, st: Settings, c: nat) {
    exists i: nat :: i < |sources| && BlamedAt(sv, sources, st, c, i)
  }

  lemma SomeBlamedStep(sv: Server, sources: seq<Context.Source>, st: Settings, c: nat)
    requires sources != []
    ensures var front := sources[..|sources| - 1];
            SomeBlamed(sv, sources, st, c) <==>
            SomeBlamed(sv, front, st, c) || Blamed(sv, sources[|sources| - 1], st, c + RunCalls(front, st))
  {
    hide Blamed, RunCalls;
    var last := |sources| - 1;
    assert BlamedAt(sv, sources, st, c, last) == Blamed(sv, sources[last], st, c + RunCalls(sources[..last], st));
    forall i: nat | i < last ensures BlamedAt(sv, sources[..last], st, c, i) == BlamedAt(sv, sources, st, c, i) {
      assert sources[..last][..i] == sources[..i];
    }
    hide BlamedAt;
  }

  lemma {:induction false} JoinedFails(sv: Server, server: seq<Result>, sources: seq<Context.Source>, st: Settings, c: nat)
    ensures AnyFails(Joined(server, Parts(sv, sources, st, c))) <==> AnyFails(server) || SomeBlamed(sv, sources, st, c)
    decreases |sources|
  {
    hide SourceResults, Blamed, BlamedAt, RunCalls, AnyFails;
    if sources != [] {
      var front, src := sources[..|sources| - 1], sources[|sources| - 1];
      JoinedStep(sv, server, sources, st, c);
      SomeBlamedStep(sv, sources, st, c);
      JoinedFails(sv, server, front, st, c);
      SourceFails(sv, src, st, c + RunCalls(front, st));
      AnyFailsConcat(Joined(server, Parts(sv, front, st, c)), SourceResults(sv, src, st, c + RunCalls(front, st)));
      hide Joined, Parts, SomeBlamed;
    }
  }

  /** The document of a run says FAIL exactly when the server or one of the data sources is
      to blame, each for one of the reasons listed. */
  lemma RunVerdict(server: seq<Result>, sv: Server, c: nat, agencies: Reply<seq<string>>,
                   sources: seq<Context.Source>, st: Settings, c': nat, cfg: Document.Config, now: string)
    requires ServerPart(server, sv, c, agencies, sources)
    ensures DocumentOf(Joined(server, Parts(sv, sources, st, c')), cfg, now).summary.verdict == "FAIL" <==>
            ServerBlamed(sv, c, agencies, sources) || SomeBlamed(sv, sources, st, c')
  {
    var rs := Joined(server, Parts(sv, sources, st, c'));
    SummaryIsTally(rs, cfg, now);
    assert (exists r <- rs :: r.status == Fail) <==> AnyFails(rs);
    hide AnyFails, ServerPart, ServerBlamed, SomeBlamed, Joined, Parts;
    ServerFails(server, sv, c, agencies, sources);
    JoinedFails(sv, server, sources, st, c');
  }
}
