/** The sources that `prepare` leaves behind: the objects that its goroutines write to. */
module Prepared {
  import opened Strings
  import opened Context
  import Gtfs
  import P = PrepareSystem
  import PrepareTheorems
  import CacheSystem
  import CachedPrepare
  import CachedSafety
  import CachedTheorems

  /** How the content of a fetched feed reads. */
  datatype Reader = Reader(static_: P.Parsed -> Gtfs.ParsedStatic, realtime: P.Parsed -> Realtime)

  function FeedName(f: P.Feed): string {
    match f
    case StaticGtfs => "staticGtfs"
    case VehiclePositions => "vehiclePositions"
    case TripUpdates => "tripUpdates"
    case ServiceAlerts => "serviceAlerts"
  }

  const NAMES := {"staticGtfs", "vehiclePositions", "tripUpdates", "serviceAlerts"}

  function FeedNamed(name: string): P.Feed {
    if name == "staticGtfs" then P.StaticGtfs
    else if name == "vehiclePositions" then P.VehiclePositions
    else if name == "tripUpdates" then P.TripUpdates
    else P.ServiceAlerts
  }

  /** What has been recorded for feed `f` of source `i`. */
  function ValueAt(s: P.State, i: nat, f: P.Feed): Option<P.Parsed> {
    if P.SlotOf(i, f) in s.values then Some(s.values[P.SlotOf(i, f)]) else None
  }

  function ErrorAt(s: P.State, i: nat, f: P.Feed): Option<P.Failure> {
    if P.SlotOf(i, f) in s.errors then Some(s.errors[P.SlotOf(i, f)]) else None
  }

  function StaticAt(s: P.State, i: nat, rd: Reader): Option<Gtfs.ParsedStatic> {
    if ValueAt(s, i, P.StaticGtfs).Some? then Some(rd.static_(ValueAt(s, i, P.StaticGtfs).value)) else None
  }

  function RealtimeAt(s: P.State, i: nat, f: P.Feed, rd: Reader): Option<Realtime> {
    if ValueAt(s, i, f).Some? then Some(rd.realtime(ValueAt(s, i, f).value)) else None
  }

  function ErrorsAt(s: P.State, i: nat): map<string, string> {
    map name | name in NAMES && ErrorAt(s, i, FeedNamed(name)).Some? :: ErrorAt(s, i, FeedNamed(name)).value
  }

  /** Data source `i`, read off the results that the goroutines have recorded. */
  function SourceAfter(s: P.State, i: nat, mapping: map<string, string>, rd: Reader): Source {
    Source(SourceLabel(i), mapping, StaticAt(s, i, rd), RealtimeAt(s, i, P.VehiclePositions, rd),
           RealtimeAt(s, i, P.TripUpdates, rd), RealtimeAt(s, i, P.ServiceAlerts, rd), ErrorsAt(s, i))
  }

  function SourcesAfter(s: P.State, mappings: seq<map<string, string>>, rd: Reader): seq<Source> {
    seq(|mappings|, (i: nat) requires i < |mappings| => SourceAfter(s, i, mappings[i], rd))
  }

  /** Sources as `prepare` labels them. */
  ghost predicate Labelled(sources: seq<Context.Source>) {
    forall i :: 0 <= i < |sources| ==> sources[i].title == SourceLabel(i)
  }

  /* ----- The goroutines' writes ----- */

  /** What the object should show. */
  ghost predicate Shows(src: SourceContext, s: P.State, i: nat, rd: Reader)
    reads src
  {
    src.View() == SourceAfter(s, i, src.agencyMapping, rd)
  }

  lemma SlotIs(i: nat, f: P.Feed, k: nat)
    ensures P.SlotOf(i, f) == k <==> i == P.SourceOf(k) && f == P.FeedOf(k)
  {
  }

  lemma ValueWritten(s: P.State, k: nat, v: P.Parsed, i: nat, f: P.Feed)
    requires k < |s.phases|
    ensures ValueAt(P.WriteValue(s, k, v), i, f) ==
            if i == P.SourceOf(k) && f == P.FeedOf(k) then Some(v) else ValueAt(s, i, f)
    ensures ErrorAt(P.WriteValue(s, k, v), i, f) == ErrorAt(s, i, f)
  {
    SlotIs(i, f, k);
    hide P.SlotOf, P.SourceOf, P.FeedOf;
  }

  lemma ErrorWritten(s: P.State, k: nat, e: P.Failure, i: nat, f: P.Feed)
    requires k < |s.phases|
    ensures ErrorAt(P.WriteError(s, k, e), i, f) ==
            if i == P.SourceOf(k) && f == P.FeedOf(k) then Some(e) else ErrorAt(s, i, f)
    ensures ValueAt(P.WriteError(s, k, e), i, f) == ValueAt(s, i, f)
  {
    SlotIs(i, f, k);
    hide P.SlotOf, P.SourceOf, P.FeedOf;
  }

  /** A source depends on nothing but its own results. */
  lemma OwnResultsDecide(s: P.State, t: P.State, i: nat, mapping: map<string, string>, rd: Reader)
    requires forall f :: ValueAt(t, i, f) == ValueAt(s, i, f) && ErrorAt(t, i, f) == ErrorAt(s, i, f)
    ensures SourceAfter(t, i, mapping, rd) == SourceAfter(s, i, mapping, rd)
  {
    hide ValueAt, ErrorAt;
    assert ErrorsAt(t, i) == ErrorsAt(s, i);
  }

  lemma SameErrors(s: P.State, t: P.State, i: nat)
    requires forall f :: ErrorAt(t, i, f) == ErrorAt(s, i, f)
    ensures ErrorsAt(t, i) == ErrorsAt(s, i)
  {
    hide ErrorAt;
  }

  lemma OneMoreError(s: P.State, t: P.State, i: nat, g: P.Feed, e: P.Failure)
    requires forall f :: ErrorAt(t, i, f) == if f == g then Some(e) else ErrorAt(s, i, f)
    ensures ErrorsAt(t, i) == ErrorsAt(s, i)[FeedName(g) := e]
  {
    hide ErrorAt;
    assert forall name <- NAMES :: FeedName(FeedNamed(name)) == name;
    assert forall f :: FeedName(f) in NAMES && FeedNamed(FeedName(f)) == f;
    hide FeedNamed, FeedName;
    assert ErrorsAt(t, i).Keys == ErrorsAt(s, i)[FeedName(g) := e].Keys;
  }

  /** A goroutine delivers its parsed feed to its field of its source. */
  method Deliver(src: SourceContext, k: nat, v: P.Parsed, rd: Reader, ghost s: P.State)
    requires k < |s.phases| && Shows(src, s, P.SourceOf(k), rd)
    modifies src
    ensures Shows(src, P.WriteValue(s, k, v), P.SourceOf(k), rd)
  {
    ghost var i, t := P.SourceOf(k), P.WriteValue(s, k, v);
    forall f ensures ValueAt(t, i, f) == (if f == P.FeedOf(k) then Some(v) else ValueAt(s, i, f))
             ensures ErrorAt(t, i, f) == ErrorAt(s, i, f)
    {
      ValueWritten(s, k, v, i, f);
    }
    SameErrors(s, t, i);
    hide ValueAt, ErrorAt, ErrorsAt, P.SourceOf, P.FeedOf, P.WriteValue;
    match P.FeedOf(k)
    case StaticGtfs => src.static_ := Some(rd.static_(v));
    case VehiclePositions => src.vehiclePositions := Some(rd.realtime(v));
    case TripUpdates => src.tripUpdates := Some(rd.realtime(v));
    case ServiceAlerts => src.serviceAlerts := Some(rd.realtime(v));
  }

  /** A goroutine records its error under the name of its feed. */
  method Report(src: SourceContext, k: nat, e: P.Failure, rd: Reader, ghost s: P.State)
    requires k < |s.phases| && Shows(src, s, P.SourceOf(k), rd)
    modifies src
    ensures Shows(src, P.WriteError(s, k, e), P.SourceOf(k), rd)
  {
    ghost var i, t := P.SourceOf(k), P.WriteError(s, k, e);
    forall f ensures ErrorAt(t, i, f) == (if f == P.FeedOf(k) then Some(e) else ErrorAt(s, i, f))
             ensures ValueAt(t, i, f) == ValueAt(s, i, f)
    {
      ErrorWritten(s, k, e, i, f);
    }
    OneMoreError(s, t, i, P.FeedOf(k), e);
    hide ValueAt, ErrorAt, ErrorsAt, FeedName, P.SourceOf, P.FeedOf, P.WriteError;
    src.PrepErr(FeedName(P.FeedOf(k)), e);
  }

  /** The other sources do not notice, and no other step is noticed. */
  lemma OthersStay(c: P.Config, s: P.State, e: P.Event, i: nat, mapping: map<string, string>, rd: Reader)
    requires |s.phases| == P.SlotCount(c)
    requires Writes(s, e) ==> i != P.SourceOf(e.k)
    ensures SourceAfter(P.Next(c, s, e), i, mapping, rd) == SourceAfter(s, i, mapping, rd)
  {
    var t := P.Next(c, s, e);
    if Writes(s, e) {
      forall f ensures ValueAt(t, i, f) == ValueAt(s, i, f) && ErrorAt(t, i, f) == ErrorAt(s, i, f) {
        if s.phases[e.k].Back? {
          ValueWritten(s, e.k, s.phases[e.k].o.value, i, f);
        } else {
          ErrorWritten(s, e.k, s.phases[e.k].o.error, i, f);
        }
      }
    } else {
      QuietStep(c, s, e);
    }
    hide P.Next;
    OwnResultsDecide(s, t, i, mapping, rd);
  }

  /** The step records a result. */
  predicate Writes(s: P.State, e: P.Event) {
    e.Move? && e.k < |s.phases| &&
    match s.phases[e.k]
    case Back(Value(_)) => true
    case Reporting(Error(_)) => true
    case _ => false
  }

  lemma QuietStep(c: P.Config, s: P.State, e: P.Event)
    requires |s.phases| == P.SlotCount(c) && !Writes(s, e)
    ensures P.Next(c, s, e).values == s.values && P.Next(c, s, e).errors == s.errors
  {
    hide P.UrlOf, P.Cached, P.SourceOf;
  }

  ghost predicate AllShow(sources: seq<SourceContext>, s: P.State, rd: Reader)
    reads sources
  {
    forall i :: 0 <= i < |sources| ==> Shows(sources[i], s, i, rd)
  }

  ghost predicate Apart(sources: seq<SourceContext>) {
    forall i, j :: 0 <= i < j < |sources| ==> sources[i] != sources[j]
  }

  /** The sources before anything is fetched. */
  method NewSources(c: P.Config, mappings: seq<map<string, string>>, rd: Reader) returns (sources: seq<SourceContext>)
    ensures |sources| == |mappings| && fresh(sources) && Apart(sources) && AllShow(sources, P.Init(c), rd)
    ensures forall i :: 0 <= i < |sources| ==> sources[i].agencyMapping == mappings[i]
  {
    hide P.SlotOf, SourceLabel;
    sources := [];
    for i := 0 to |mappings|
      invariant |sources| == i && fresh(sources) && Apart(sources) && AllShow(sources, P.Init(c), rd)
      invariant forall j :: 0 <= j < i ==> sources[j].agencyMapping == mappings[j]
    {
      var src := new SourceContext(i, mappings[i]);
      assert ErrorsAt(P.Init(c), i) == map[];
      assert src !in sources;
      sources := sources + [src];
    }
  }

  /** The step of one source's own goroutine. */
  method ActOwn(c: P.Config, src: SourceContext, s: P.State, e: P.Event, rd: Reader)
    requires |s.phases| == P.SlotCount(c) && Writes(s, e) && Shows(src, s, P.SourceOf(e.k), rd)
    modifies src
    ensures Shows(src, P.Next(c, s, e), P.SourceOf(e.k), rd)
  {
    hide Shows, P.SourceOf, P.WriteValue, P.WriteError;
    if s.phases[e.k].Back? {
      Deliver(src, e.k, s.phases[e.k].o.value, rd, s);
    } else {
      Report(src, e.k, s.phases[e.k].o.error, rd, s);
    }
  }

  /** One step of a schedule, done to the objects. */
  method Act(c: P.Config, sources: seq<SourceContext>, s: P.State, e: P.Event, rd: Reader)
    requires |s.phases| == P.SlotCount(c) && |sources| == |c.sources| && Apart(sources) && AllShow(sources, s, rd)
    modifies sources
    ensures AllShow(sources, P.Next(c, s, e), rd)
  {
    hide SourceAfter, P.Next, P.NextTask;
    forall i | 0 <= i < |sources| && (Writes(s, e) ==> i != P.SourceOf(e.k))
      ensures SourceAfter(P.Next(c, s, e), i, sources[i].agencyMapping, rd) == SourceAfter(s, i, sources[i].agencyMapping, rd)
    {
      OthersStay(c, s, e, i, sources[i].agencyMapping, rd);
    }
    if Writes(s, e) {
      ActOwn(c, sources[P.SourceOf(e.k)], s, e, rd);
    }
  }

  /** `prepare` under the schedule `es`: the objects end up as the recorded results say. */
  method Prepare(c: P.Config, es: seq<P.Event>, mappings: seq<map<string, string>>, rd: Reader)
    returns (sources: seq<SourceContext>)
    requires |mappings| == |c.sources|
    ensures |sources| == |mappings| && fresh(sources)
    ensures forall i :: 0 <= i < |sources| ==>
              sources[i].View() == SourcesAfter(P.Exec(c, P.Init(c), es), mappings, rd)[i]
  {
    hide SourceAfter, P.Next, Apart;
    sources := NewSources(c, mappings, rd);
    var s := P.Init(c);
    for j := 0 to |es|
      invariant s == P.Exec(c, P.Init(c), es[..j])
      invariant fresh(sources) && Apart(sources) && AllShow(sources, s, rd)
    {
      assert es[..j + 1][..j] == es[..j];
      Act(c, sources, s, es[j], rd);
      s := P.Next(c, s, es[j]);
    }
    assert es[..|es|] == es;
  }

  /* ----- What is known of them ----- */

  lemma ConfiguredFeed(c: P.Config, s: P.State, i: nat, f: P.Feed)
    requires i < |c.sources|
    ensures ErrorAt(s, i, f).Some? <==> FeedName(f) in ErrorsAt(s, i)
    ensures ValueAt(s, i, f).Some? <==> P.SlotOf(i, f) in s.values
    ensures ErrorAt(s, i, f).Some? <==> P.SlotOf(i, f) in s.errors
  {
    hide P.SlotOf;
    assert FeedNamed(FeedName(f)) == f;
  }

  /** After any schedule a feed that is configured is there or has an error under its name,
      never both, and a feed that is not has neither: each of the four by its own field. */
  lemma PreparedSources(c: P.Config, es: seq<P.Event>, mappings: seq<map<string, string>>, rd: Reader, i: nat)
    requires P.Exec(c, P.Init(c), es).returned && i < |c.sources| == |mappings|
    ensures var urls := c.sources[i];
            var src := SourcesAfter(P.Exec(c, P.Init(c), es), mappings, rd)[i];
            && src.title == SourceLabel(i) && src.agencyMapping == mappings[i]
            && (if urls.staticGtfs == "" then src.static_.None? && "staticGtfs" !in src.prepErrors
                else src.static_.Some? <==> "staticGtfs" !in src.prepErrors)
            && (if urls.vehiclePositions == "" then src.vehiclePositions.None? && "vehiclePositions" !in src.prepErrors
                else src.vehiclePositions.Some? <==> "vehiclePositions" !in src.prepErrors)
            && (if urls.tripUpdates == "" then src.tripUpdates.None? && "tripUpdates" !in src.prepErrors
                else src.tripUpdates.Some? <==> "tripUpdates" !in src.prepErrors)
            && (if urls.serviceAlerts == "" then src.serviceAlerts.None? && "serviceAlerts" !in src.prepErrors
                else src.serviceAlerts.Some? <==> "serviceAlerts" !in src.prepErrors)
  {
    var s := P.Exec(c, P.Init(c), es);
    forall f: P.Feed
      ensures ErrorAt(s, i, f).Some? <==> FeedName(f) in ErrorsAt(s, i)
      ensures ValueAt(s, i, f).Some? <==> P.SlotOf(i, f) in s.values
      ensures ErrorAt(s, i, f).Some? <==> P.SlotOf(i, f) in s.errors
    {
      ConfiguredFeed(c, s, i, f);
    }
    PrepareTheorems.ExactlyOneOutcome(c, es, i, P.StaticGtfs);
    PrepareTheorems.ExactlyOneOutcome(c, es, i, P.VehiclePositions);
    PrepareTheorems.ExactlyOneOutcome(c, es, i, P.TripUpdates);
    PrepareTheorems.ExactlyOneOutcome(c, es, i, P.ServiceAlerts);
    hide P.SlotOf, ErrorsAt, ErrorAt, ValueAt;
    assert FeedName(P.StaticGtfs) == "staticGtfs" && FeedName(P.VehiclePositions) == "vehiclePositions"
      && FeedName(P.TripUpdates) == "tripUpdates" && FeedName(P.ServiceAlerts) == "serviceAlerts";
  }

  lemma SameResultsSameSources(s: P.State, t: P.State, mappings: seq<map<string, string>>, rd: Reader)
    requires s.values == t.values && s.errors == t.errors
    ensures SourcesAfter(s, mappings, rd) == SourcesAfter(t, mappings, rd)
  {
    hide SourceAfter, P.SlotOf;
    forall i | 0 <= i < |mappings| ensures SourceAfter(s, i, mappings[i], rd) == SourceAfter(t, i, mappings[i], rd) {
      OwnResultsDecide(s, t, i, mappings[i], rd);
    }
  }

  /** When servers stay as they are, and no fresh entry of the cache reads otherwise than what
      asking gives, any two schedules leave equal sources. */
  lemma SourcesIgnoreSchedule(u: CachedPrepare.World, s0: map<string, CacheSystem.State>,
                              s: CachedPrepare.State, t: CachedPrepare.State,
                              mappings: seq<map<string, string>>, rd: Reader)
    requires CachedSafety.Start(u, s0) && CachedTheorems.AllSettle(u, s0)
    requires CachedSafety.Reaches(u, s0, s) && s.tasks.returned
    requires CachedSafety.Reaches(u, s0, t) && t.tasks.returned
    ensures SourcesAfter(s.tasks, mappings, rd) == SourcesAfter(t.tasks, mappings, rd)
  {
    hide CachedSafety.Start, CachedTheorems.AllSettle, CachedSafety.Reaches, SourcesAfter,
      PrepareTheorems.ExpectedValues, PrepareTheorems.ExpectedErrors;
    CachedTheorems.SettledContext(u, s0, s);
    CachedTheorems.SettledContext(u, s0, t);
    SameResultsSameSources(s.tasks, t.tasks, mappings, rd);
  }
}
