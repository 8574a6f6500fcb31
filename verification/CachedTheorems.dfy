/** What `prepare` leaves behind when it runs over the cache: which answers a slot can have,
    and exactly when the schedule does not matter. */
module CachedTheorems {
  import opened Strings
  import MetaText
  import C = CacheSystem
  import CacheSafety
  import CacheTheorems
  import CacheSteady
  import P = PrepareSystem
  import PrepareTheorems
  import opened CachedPrepare
  import opened CachedSafety
  import opened CachedProgress

  /* ----- What a returned run leaves behind ----- */

  /** The values and the errors of all slots. */
  function Context(s: State): (map<nat, P.Parsed>, map<nat, P.Failure>) {
    (s.tasks.values, s.tasks.errors)
  }

  /** After the return each slot with a URL has what the parser makes of the answer that
      asking gives, or of the entry that was fresh at the start; nothing else is possible. */
  lemma ReturnedOutcome(u: World, s0: map<string, C.State>, s: State, k: nat)
    requires Start(u, s0) && Reaches(u, s0, s) && s.tasks.returned
    requires k < P.SlotCount(u.config) && P.UrlOf(u.config, k) != ""
    ensures k < |s.tasks.phases| && s.tasks.phases[k].Finished? && Possible(u, s0, k, s.tasks.phases[k].o)
    ensures match s.tasks.phases[k].o
            case Value(v) => k in s.tasks.values && s.tasks.values[k] == v && k !in s.tasks.errors
            case Error(e) => k in s.tasks.errors && s.tasks.errors[k] == e && k !in s.tasks.values
  {
    ReachedInv(u, s0, s);
    PrepareTheorems.ReturnedIsIdle(u.config, s.tasks);
    hide Start, Reaches, CachesOk, Possible, P.UrlOf, P.Count;
    assert PrepareTheorems.ResultsOk(s.tasks) && PrepareTheorems.HasOutcome(s.tasks.phases[k]);
  }

  /** It does not matter for this slot whether a fresh entry is served or the server asked. */
  ghost predicate Settles(u: World, s0: map<string, C.State>, k: nat)
    requires k < P.SlotCount(u.config)
  {
    P.UrlOf(u.config, k) != "" && HasFreshEntry(u, s0, k) ==> Kept(u, s0, k) == Asked(u, s0, k)
  }

  ghost predicate AllSettle(u: World, s0: map<string, C.State>) {
    forall k :: 0 <= k < P.SlotCount(u.config) ==> Settles(u, s0, k)
  }

  function Answers(u: World, s0: map<string, C.State>): (answers: seq<P.Outcome>)
    ensures |answers| == P.SlotCount(u.config)
  {
    seq(P.SlotCount(u.config), (k: nat) requires k < P.SlotCount(u.config) => Asked(u, s0, k))
  }

  /** Then every schedule leaves behind what asking would have given. */
  lemma SettledContext(u: World, s0: map<string, C.State>, s: State)
    requires Start(u, s0) && AllSettle(u, s0) && Reaches(u, s0, s) && s.tasks.returned
    ensures Context(s) == (PrepareTheorems.ExpectedValues(u.config, Answers(u, s0)),
                           PrepareTheorems.ExpectedErrors(u.config, Answers(u, s0)))
  {
    ReachedInv(u, s0, s);
    PrepareTheorems.ReturnedIsIdle(u.config, s.tasks);
    assert PrepareTheorems.ResultsOk(s.tasks);
    forall k | 0 <= k < |s.tasks.phases| && PrepareTheorems.HasOutcome(s.tasks.phases[k])
      ensures s.tasks.phases[k].o == Answers(u, s0)[k]
    {
      assert P.UrlOf(u.config, k) != "";
      ReturnedOutcome(u, s0, s, k);
      assert Settles(u, s0, k);
    }
    hide Inv, Start, Reaches, AllSettle, P.UrlOf, PrepareTheorems.ResultsOk;
    PrepareTheorems.FinalResults(u.config, s.tasks, Answers(u, s0));
  }

  /* ----- The two schedules of a slot that does not settle ----- */

  ghost predicate Spawned(u: World, s0: map<string, C.State>, s: State, m: nat) {
    && |s.tasks.phases| == P.SlotCount(u.config) && s.caches == s0
    && s.tasks.spawned == m <= P.SlotCount(u.config) && s.tasks.sem == 0 && s.tasks.urlLocks == map[]
    && forall k :: 0 <= k < |s.tasks.phases| ==>
         s.tasks.phases[k] == if k < m && P.UrlOf(u.config, k) != "" then P.Waiting else P.Unspawned
  }

  /** The main goroutine goes ahead alone. */
  lemma {:induction false} ReachSpawned(u: World, s0: map<string, C.State>, m: nat) returns (s: State)
    requires m <= P.SlotCount(u.config)
    ensures Reaches(u, s0, s) && Spawned(u, s0, s, m)
    decreases m
  {
    if m == 0 {
      s := Init(u, s0);
      assert Exec(u, s, []) == s;
    } else {
      s := ReachSpawned(u, s0, m - 1);
      hide Reaches, P.UrlOf;
      ReachNext(u, s0, s, Main);
      s := Next(u, s, Main);
    }
  }

  /** Then the clock runs, and goroutine `k` is the first to enter its section. */
  lemma ReachEntered(u: World, s0: map<string, C.State>, k: nat, d: nat) returns (s: State)
    requires Start(u, s0) && k < P.SlotCount(u.config) && P.UrlOf(u.config, k) != "" && P.Cached(u.config, k)
    ensures Reaches(u, s0, s) && |s.tasks.phases| == P.SlotCount(u.config) && s.tasks.phases[k].InCache?
    ensures var url := P.UrlOf(u.config, k);
            && url in s.caches && url in s0 && s0[url].history != []
            && s.caches[url] == s0[url].(clock := s0[url].clock + d, pc := C.Loaded(u.refresh, C.Load(s0[url].disk)))
  {
    var url := P.UrlOf(u.config, k);
    s := ReachSpawned(u, s0, P.SlotCount(u.config));
    StartIdle(u, url, s0[url]);
    hide Reaches, Start, P.UrlOf, P.Cached;
    ReachNext(u, s0, s, Tick(d));
    s := Next(u, s, Tick(d));
    assert s.caches[url] == s0[url].(clock := s0[url].clock + d);
    ReachNext(u, s0, s, Move(k));
    s := Next(u, s, Move(k));
    assert s.tasks.phases[k].Holding? && s.tasks.urlLocks == map[];
    ReachNext(u, s0, s, Move(k));
    s := Next(u, s, Move(k));
  }

  /** Its call is over, and it leaves the section. */
  lemma ReachLeft(u: World, s0: map<string, C.State>, s: State, k: nat) returns (t: State)
    requires Start(u, s0) && Reaches(u, s0, s)
    requires k < |s.tasks.phases| == P.SlotCount(u.config) && s.tasks.phases[k].InCache?
    requires P.UrlOf(u.config, k) in s.caches && HasReturned(s.caches[P.UrlOf(u.config, k)])
    ensures Reaches(u, s0, t) && k < |t.tasks.phases|
    ensures t.tasks.phases[k] == P.Back(u.parse(k, LastAnswer(s.caches[P.UrlOf(u.config, k)])))
  {
    hide Reaches, Start, Inv, P.UrlOf, P.Cached, P.NextTask, CacheOk, LockOk, C.Returned, C.StoreReady;
    ReachedInv(u, s0, s);
    Inside(u, s0, s, k);
    LeavingShape(u, s.tasks, k, u.parse(k, LastAnswer(s.caches[P.UrlOf(u.config, k)])));
    ReachNext(u, s0, s, Move(k));
    t := Next(u, s, Move(k));
  }

  lemma ReachMore(u: World, s0: map<string, C.State>, s: State, es: seq<Event>)
    requires Reaches(u, s0, s) && |s.tasks.phases| == P.SlotCount(u.config)
    ensures Reaches(u, s0, Exec(u, s, es))
    decreases |es|
  {
    hide Reaches, Next;
    if es != [] {
      ReachMore(u, s0, s, es[..|es| - 1]);
      ReachNext(u, s0, Exec(u, s, es[..|es| - 1]), es[|es| - 1]);
    }
  }

  /** It keeps what it got up to the return. */
  lemma ReachReturned(u: World, s0: map<string, C.State>, s: State, k: nat) returns (t: State)
    requires Start(u, s0) && Reaches(u, s0, s)
    requires k < |s.tasks.phases| == P.SlotCount(u.config) && s.tasks.phases[k].InCache?
    requires P.UrlOf(u.config, k) in s.caches && HasReturned(s.caches[P.UrlOf(u.config, k)])
    ensures Reaches(u, s0, t) && t.tasks.returned && k < |t.tasks.phases|
    ensures PrepareTheorems.HasOutcome(t.tasks.phases[k])
    ensures t.tasks.phases[k].o == u.parse(k, LastAnswer(s.caches[P.UrlOf(u.config, k)]))
  {
    t := ReachLeft(u, s0, s, k);
    ReachedInv(u, s0, t);
    InvSpawned(u, s0, t);
    hide Reaches, Start, Inv, P.UrlOf, LastAnswer, HasReturned, Exec;
    var es := CanReturn(u, s0, t);
    ReachMore(u, s0, t, es);
    RunsKeepOutcome(u, s0, t, es, k);
    t := Exec(u, t, es);
  }

  /** The first call comes early enough to be served the fresh entry. */
  lemma KeptRun(u: World, s0: map<string, C.State>, k: nat) returns (t: State)
    requires Start(u, s0) && k < P.SlotCount(u.config) && P.UrlOf(u.config, k) != "" && HasFreshEntry(u, s0, k)
    ensures Reaches(u, s0, t) && t.tasks.returned && k < |t.tasks.phases|
    ensures PrepareTheorems.HasOutcome(t.tasks.phases[k]) && t.tasks.phases[k].o == Kept(u, s0, k)
  {
    var url := P.UrlOf(u.config, k);
    var s := ReachEntered(u, s0, k, 0);
    hide Reaches, Start, P.UrlOf, P.Cached, C.Load;
    s := WorkStep(u, s0, s, k, C.ServeFresh);
    t := ReachReturned(u, s0, s, k);
  }

  /** The first call comes so late that it has to ask. */
  lemma AskedRun(u: World, s0: map<string, C.State>, k: nat) returns (t: State)
    requires Start(u, s0) && k < P.SlotCount(u.config) && P.UrlOf(u.config, k) != "" && HasFreshEntry(u, s0, k)
    ensures Reaches(u, s0, t) && t.tasks.returned && k < |t.tasks.phases|
    ensures PrepareTheorems.HasOutcome(t.tasks.phases[k]) && t.tasks.phases[k].o == Asked(u, s0, k)
  {
    var url := P.UrlOf(u.config, k);
    var expiry := u.ttl + C.Load(s0[url].disk).value.meta.fetchedAt;
    var s := ReachEntered(u, s0, k, if expiry >= 0 then expiry else 0);
    assert !C.MayServe(SettingOf(u, url), s.caches[url]);
    hide Start, Reaches, C.MayServe, CacheSteady.Settled;
    s := AskingEnds(u, s0, s, k);
    t := ReachReturned(u, s0, s, k);
  }

  /** The exchange, and a store that fails at once. */
  lemma AskingEnds(u: World, s0: map<string, C.State>, s: State, k: nat) returns (t: State)
    requires Start(u, s0) && Reaches(u, s0, s)
    requires k < |s.tasks.phases| == P.SlotCount(u.config) && s.tasks.phases[k].InCache?
    requires var url := P.UrlOf(u.config, k);
             && url in s.caches && url in s0 && s0[url].history != []
             && s.caches[url].pc.Loaded? && !C.MayServe(SettingOf(u, url), s.caches[url])
    ensures Reaches(u, s0, t) && t.tasks == s.tasks
    ensures var url := P.UrlOf(u.config, k);
            && url in t.caches && HasReturned(t.caches[url])
            && LastAnswer(t.caches[url]) == CacheSteady.Settled(SettingOf(u, url), s0[url], u.refresh, u.weather(url))
  {
    InsideSettles(u, s0, s, k);
    hide *;
    var url := P.UrlOf(u.config, k);
    t := WorkStep(u, s0, s, k, C.Exchange(u.weather(url)));
    if !HasReturned(t.caches[url]) {
      t := WorkStep(u, s0, t, k, C.StoreFails(false));
    }
  }

  lemma InsideSettles(u: World, s0: map<string, C.State>, s: State, k: nat)
    requires Start(u, s0) && Reaches(u, s0, s)
    requires k < |s.tasks.phases| == P.SlotCount(u.config) && s.tasks.phases[k].InCache?
    requires var url := P.UrlOf(u.config, k);
             && url in s.caches && url in s0 && s0[url].history != []
             && s.caches[url].pc.Loaded? && !C.MayServe(SettingOf(u, url), s.caches[url])
    ensures var url := P.UrlOf(u.config, k);
            && s.caches[url].history != []
            && IsWork(C.Exchange(u.weather(url)), u.weather(url)) && IsWork(C.StoreFails(false), u.weather(url))
            && var t := C.Next(SettingOf(u, url), s.caches[url], C.Exchange(u.weather(url)));
               var v := C.Next(SettingOf(u, url), t, C.StoreFails(false));
               var settled := CacheSteady.Settled(SettingOf(u, url), s0[url], u.refresh, u.weather(url));
               && (HasReturned(t) ==> LastAnswer(t) == settled)
               && (!HasReturned(t) ==> HasReturned(v) && LastAnswer(v) == settled)
  {
    hide Reaches, Start, Inv, P.UrlOf, P.Cached, LockOk, CacheSafety.Inv, CacheSafety.Faithful, CacheSteady.Since,
      CacheSteady.Settled, C.Next, C.MayServe, C.Returned, C.StoreReady;
    var url := P.UrlOf(u.config, k);
    ReachedInv(u, s0, s);
    Inside(u, s0, s, k);
    AskingSettles(SettingOf(u, url), s0[url], s.caches[url], u.refresh, u.weather(url));
  }

  /** A call that asks returns what asking would have given at the start, stored or not. */
  lemma AskingSettles(c: C.Setting, s0: C.State, s: C.State, refresh: bool, w: C.Weather)
    requires CacheSafety.Inv(c, s) && CacheSafety.Faithful(c, s.history) && CacheSteady.Since(c, s0, s, refresh, w)
    requires C.WeatherOk(w) && s.pc.Loaded? && !C.MayServe(c, s)
    ensures s.history != [] && s0.history != []
    ensures var t := C.Next(c, s, C.Exchange(w));
            var v := C.Next(c, t, C.StoreFails(false));
            var settled := CacheSteady.Settled(c, s0, refresh, w);
            && (HasReturned(t) ==> LastAnswer(t) == settled)
            && (!HasReturned(t) ==> HasReturned(v) && LastAnswer(v) == settled)
  {
    assert s.history != [] && s0.history != [];
    CacheSafety.ExchangeNext(c, s, w);
    hide CacheSafety.Inv, CacheSafety.Faithful, CacheSteady.Since, CacheSteady.Settled, C.AfterExchange, C.Next,
      C.ServerReply, C.PlainGet, C.Matches, C.MayServe, C.ConditionsFor;
    var r := CacheSafety.ExchangeShape(c, s, w);
    CacheSteady.ExchangeSettles(c, s0, s, refresh, w, r);
    var t := C.Next(c, s, C.Exchange(w));
    if t.pc.Storing? {
      EnteredFails(c, t);
    }
  }

  lemma EnteredFails(c: C.Setting, s: C.State)
    requires s.history != [] && C.StoreReady(s) && s.pc.stage == C.Entered
    ensures C.Next(c, s, C.StoreFails(false)) == C.Returning(s, s.pc.pending)
  {
  }

  /** Any two schedules leave the same behind. */
  ghost predicate IgnoresSchedule(u: World, s0: map<string, C.State>) {
    forall s, t :: Reaches(u, s0, s) && Reaches(u, s0, t) && s.tasks.returned && t.tasks.returned ==>
      Context(s) == Context(t)
  }

  /** Exactly when the schedule does not matter: each slot whose URL has a fresh entry at the
      start reads the same in that entry and in what asking gives. */
  lemma ScheduleIndependenceIsExact(u: World, s0: map<string, C.State>)
    requires Start(u, s0)
    ensures AllSettle(u, s0) <==> IgnoresSchedule(u, s0)
  {
    if AllSettle(u, s0) {
      forall s, t | Reaches(u, s0, s) && Reaches(u, s0, t) && s.tasks.returned && t.tasks.returned
        ensures Context(s) == Context(t)
      {
        SettledContext(u, s0, s);
        SettledContext(u, s0, t);
      }
    } else {
      var k :| 0 <= k < P.SlotCount(u.config) && !Settles(u, s0, k);
      var s, t := UnsettledRuns(u, s0, k);
    }
  }

  lemma UnsettledRuns(u: World, s0: map<string, C.State>, k: nat) returns (s: State, t: State)
    requires Start(u, s0) && k < P.SlotCount(u.config) && !Settles(u, s0, k)
    ensures Reaches(u, s0, s) && Reaches(u, s0, t) && s.tasks.returned && t.tasks.returned && Context(s) != Context(t)
  {
    s := KeptRun(u, s0, k);
    t := AskedRun(u, s0, k);
    hide Start, Reaches, P.UrlOf, HasFreshEntry, Kept, Asked;
    ReturnedOutcome(u, s0, s, k);
    ReturnedOutcome(u, s0, t, k);
  }

  /** No cached URL starts with an entry that is fresh and holds another body than the server. */
  ghost predicate NoOldFreshEntry(u: World, s0: map<string, C.State>) {
    forall k :: 0 <= k < P.SlotCount(u.config) && P.UrlOf(u.config, k) != "" && HasFreshEntry(u, s0, k) ==>
      C.Load(s0[P.UrlOf(u.config, k)].disk).value.body == C.Current(s0[P.UrlOf(u.config, k)]).body
  }

  /** The parser tells different bodies apart. */
  ghost predicate TellsBodies(u: World) {
    forall k, a, b :: u.parse(k, C.Body(a)) == u.parse(k, C.Body(b)) ==> a == b
  }

  /** For servers that are up, and a parser that tells bodies apart, it is the old entries
      that are still fresh, and nothing else, that make the schedule matter. */
  lemma OldFreshEntriesDecide(u: World, s0: map<string, C.State>)
    requires Start(u, s0) && TellsBodies(u) && forall url :: u.weather(url) == C.Up
    ensures NoOldFreshEntry(u, s0) <==> IgnoresSchedule(u, s0)
  {
    ScheduleIndependenceIsExact(u, s0);
    hide Start, Reaches, IgnoresSchedule, P.UrlOf, CacheSteady.StartsFresh, C.Load;
    forall k | 0 <= k < P.SlotCount(u.config) && P.UrlOf(u.config, k) != "" && HasFreshEntry(u, s0, k)
      ensures var url := P.UrlOf(u.config, k);
              Settles(u, s0, k) <==> C.Load(s0[url].disk).value.body == C.Current(s0[url]).body
    {
      var url := P.UrlOf(u.config, k);
      CacheSteady.UpSettles(SettingOf(u, url), s0[url], u.refresh);
    }
  }

  /* ----- An instance ----- */

  const URL := "http://agency/gtfs.zip"
  const OLD := C.Version("", "", [0])
  const NEW := C.Version("", "", [1])

  /** Two data sources with one URL, a ttl of 10. */
  const TWINS: World := World(
    P.Config([P.Source(URL, "", "", ""), P.Source(URL, "", "", "")], 4, false),
    10, false, (a: string, b: string) => false, _ => C.Up, _ => C.NoResponse,
    (k: nat, a: C.Answer) => if a == C.Body(OLD.body) then P.Value("old") else P.Value("new"))

  lemma TwinsUrls(k: nat)
    requires k < P.SlotCount(TWINS.config)
    ensures P.UrlOf(TWINS.config, k) == "" || P.UrlOf(TWINS.config, k) == URL
  {
  }

  /** The old feed was stored at 0; since then the server has had the new one. At 9 the run starts. */
  lemma TwinsStart() returns (s0: map<string, C.State>)
    ensures Start(TWINS, s0) && URL in s0 && s0[URL].history == [OLD, NEW] && s0[URL].clock == 9
    ensures C.Load(s0[URL].disk) == Some(C.Entry(OLD.body, MetaText.Meta(URL, "", "", 0)))
  {
    var c := SettingOf(TWINS, URL);
    var s := CacheTheorems.StoredThenReplaced(c, OLD, NEW, 9);
    s0 := map[URL := s];
    NoValidators(c, [OLD, NEW]);
    hide CacheTheorems.Reaches, CacheSafety.Faithful, P.UrlOf, C.Load;
    assert StartOk(TWINS, URL, s) by {
      assert CacheTheorems.Reaches(c, OLD, s);
    }
    forall k | 0 <= k < P.SlotCount(TWINS.config) && P.UrlOf(TWINS.config, k) != ""
      ensures P.UrlOf(TWINS.config, k) in s0
    {
      TwinsUrls(k);
    }
  }

  lemma NoValidators(c: C.Setting, h: seq<C.Version>)
    requires forall v <- h :: v.etag == "" && v.lastModified == ""
    ensures CacheSafety.Faithful(c, h)
  {
    forall i, j | 0 <= i < |h| && 0 <= j < |h| ensures !CacheSafety.ClaimsUnchanged(c, h, i, j) {
      assert h[i] in h;
    }
  }

  /** The server answers the same throughout the run, and still the schedule decides whether
      the first source gets the old feed or the new one. */
  lemma SameAnswersAreNotEnough() returns (s0: map<string, C.State>, s: State, t: State)
    ensures Start(TWINS, s0)
    ensures Reaches(TWINS, s0, s) && Reaches(TWINS, s0, t) && s.tasks.returned && t.tasks.returned
    ensures s.tasks.phases != [] && t.tasks.phases != []
    ensures s.tasks.phases[0] == P.Finished(P.Value("old")) && t.tasks.phases[0] == P.Finished(P.Value("new"))
  {
    s0 := TwinsStart();
    var c := SettingOf(TWINS, URL);
    assert P.UrlOf(TWINS.config, 0) == URL;
    assert HasFreshEntry(TWINS, s0, 0);
    CacheSteady.UpSettles(c, s0[URL], false);
    assert Kept(TWINS, s0, 0) == P.Value("old") && Asked(TWINS, s0, 0) == P.Value("new");
    hide Start, Reaches, Kept, Asked, HasFreshEntry;
    s := KeptRun(TWINS, s0, 0);
    t := AskedRun(TWINS, s0, 0);
    ReturnedOutcome(TWINS, s0, s, 0);
    ReturnedOutcome(TWINS, s0, t, 0);
  }
}
