/** What every run of `prepare` over the cache keeps. */
module CachedSafety {
  import opened Strings
  import C = CacheSystem
  import CacheSafety
  import CacheTheorems
  import CacheSteady
  import P = PrepareSystem
  import PrepareTheorems
  import opened CachedPrepare

  /* ----- The start ----- */

  /** A cache that some history of runs left behind, idle; a faithful server. */
  ghost predicate StartOk(u: World, url: string, s: C.State) {
    && (exists first :: CacheTheorems.Reaches(SettingOf(u, url), first, s))
    && s.pc.Unlocked? && s.history != []
    && CacheSafety.Faithful(SettingOf(u, url), s.history)
    && C.WeatherOk(u.weather(url))
  }

  ghost predicate Start(u: World, s0: map<string, C.State>) {
    && (forall url <- s0 :: StartOk(u, url, s0[url]))
    && (forall k :: 0 <= k < P.SlotCount(u.config) && P.UrlOf(u.config, k) != "" && P.Cached(u.config, k) ==>
          P.UrlOf(u.config, k) in s0)
  }

  /* ----- The answers of a slot ----- */

  /** What the parser makes of the answer that asking gives. */
  function Asked(u: World, s0: map<string, C.State>, k: nat): P.Outcome
    requires k < P.SlotCount(u.config)
  {
    var url := P.UrlOf(u.config, k);
    if P.Cached(u.config, k) && url in s0 && s0[url].history != []
    then u.parse(k, CacheSteady.Settled(SettingOf(u, url), s0[url], u.refresh, u.weather(url)))
    else u.parse(k, u.direct(k))
  }

  /** The cache starts with an entry of this slot's URL that may be served without asking. */
  predicate HasFreshEntry(u: World, s0: map<string, C.State>, k: nat)
    requires k < P.SlotCount(u.config)
  {
    var url := P.UrlOf(u.config, k);
    && P.Cached(u.config, k) && url in s0 && s0[url].history != []
    && CacheSteady.StartsFresh(SettingOf(u, url), s0[url], u.refresh)
  }

  /** What the parser makes of that entry. */
  function Kept(u: World, s0: map<string, C.State>, k: nat): P.Outcome
    requires k < P.SlotCount(u.config) && HasFreshEntry(u, s0, k)
  {
    u.parse(k, C.Body(C.Load(s0[P.UrlOf(u.config, k)].disk).value.body))
  }

  ghost predicate Possible(u: World, s0: map<string, C.State>, k: nat, o: P.Outcome)
    requires k < P.SlotCount(u.config)
  {
    o == Asked(u, s0, k) || (HasFreshEntry(u, s0, k) && o == Kept(u, s0, k))
  }

  /* ----- Invariant ----- */

  ghost predicate CacheOk(u: World, url: string, s0: C.State, s: C.State) {
    && CacheSafety.Inv(SettingOf(u, url), s)
    && CacheSafety.Faithful(SettingOf(u, url), s.history)
    && CacheSteady.Since(SettingOf(u, url), s0, s, u.refresh, u.weather(url))
    && C.WeatherOk(u.weather(url))
  }

  /** A cache is busy only while its mutex is held, and has returned something new to a
      holder for whom it is idle. */
  predicate LockOk(locks: map<string, nat>, url: string, s0: C.State, s: C.State) {
    if url in locks then s.pc.Unlocked? ==> |s.outcomes| > |s0.outcomes| else s.pc.Unlocked?
  }

  ghost predicate CachesOk(u: World, s0: map<string, C.State>, locks: map<string, nat>, caches: map<string, C.State>) {
    && caches.Keys == s0.Keys
    && forall url <- s0 :: CacheOk(u, url, s0[url], caches[url]) && LockOk(locks, url, s0[url], caches[url])
  }

  ghost predicate OutcomesOk(u: World, s0: map<string, C.State>, phases: seq<P.Phase>) {
    |phases| == P.SlotCount(u.config)
    && forall k :: 0 <= k < |phases| && PrepareTheorems.HasOutcome(phases[k]) ==> Possible(u, s0, k, phases[k].o)
  }

  ghost predicate Inv(u: World, s0: map<string, C.State>, s: State) {
    && PrepareTheorems.Inv(u.config, s.tasks)
    && CachesOk(u, s0, s.tasks.urlLocks, s.caches)
    && OutcomesOk(u, s0, s.tasks.phases)
  }

  lemma StartCacheOk(u: World, url: string, s: C.State)
    requires StartOk(u, url, s)
    ensures CacheOk(u, url, s, s)
  {
    var c := SettingOf(u, url);
    var first :| CacheTheorems.Reaches(c, first, s);
    CacheTheorems.ReachedInv(c, first, s);
    CacheSteady.StartIsSince(c, s, u.refresh, u.weather(url));
  }

  lemma InitInv(u: World, s0: map<string, C.State>)
    requires Start(u, s0)
    ensures Inv(u, s0, Init(u, s0))
  {
    PrepareTheorems.InitInv(u.config);
    hide PrepareTheorems.Inv, CacheOk, StartOk;
    forall url | url in s0 ensures CacheOk(u, url, s0[url], s0[url]) && s0[url].pc.Unlocked? {
      StartCacheOk(u, url, s0[url]);
      assert s0[url].pc.Unlocked? by {
        StartIdle(u, url, s0[url]);
      }
    }
  }

  lemma StartIdle(u: World, url: string, s: C.State)
    requires StartOk(u, url, s)
    ensures s.pc.Unlocked? && s.history != [] && C.WeatherOk(u.weather(url))
  {
  }

  /* ----- Steps of one cache ----- */

  lemma CacheStepKeeps(u: World, url: string, s0: C.State, s: C.State, e: C.Event)
    requires CacheOk(u, url, s0, s) && CacheSteady.Calm(e, u.refresh, u.weather(url))
    ensures s.history != [] && CacheOk(u, url, s0, C.Next(SettingOf(u, url), s, e))
  {
    assert s.history != [];
    CacheSafety.NextKeeps(SettingOf(u, url), s, e);
    CacheSteady.CalmStepSince(SettingOf(u, url), s0, s, e, u.refresh, u.weather(url));
    hide CacheSafety.Inv, CacheSafety.Faithful, C.Next;
  }

  /** A step of a call leaves an idle cache alone, and returns at most once. */
  lemma WorkShape(c: C.Setting, s: C.State, e: C.Event, w: C.Weather)
    requires s.history != [] && IsWork(e, w)
    ensures s.pc.Unlocked? ==> C.Next(c, s, e) == s
    ensures !s.pc.Unlocked? && C.Next(c, s, e).pc.Unlocked? ==> |C.Next(c, s, e).outcomes| == |s.outcomes| + 1
  {
  }

  lemma CacheOkHistory(u: World, url: string, s0: C.State, s: C.State)
    requires CacheOk(u, url, s0, s)
    ensures s.history != [] && s0.history != [] && |s0.outcomes| <= |s.outcomes|
  {
  }

  /* ----- Every step keeps the invariant ----- */

  lemma MainKeeps(u: World, s0: map<string, C.State>, s: State)
    requires Inv(u, s0, s)
    ensures Inv(u, s0, Next(u, s, Main))
  {
    PrepareTheorems.NextKeeps(u.config, s.tasks, P.Main);
    MainShape(u, s.tasks);
    hide PrepareTheorems.Inv, CachesOk, Possible, P.NextMain;
  }

  lemma MainShape(u: World, s: P.State)
    requires |s.phases| == P.SlotCount(u.config)
    ensures var t := P.NextMain(u.config, s);
            && t.urlLocks == s.urlLocks && |t.phases| == |s.phases|
            && forall k :: 0 <= k < |s.phases| && PrepareTheorems.HasOutcome(t.phases[k]) ==> t.phases[k] == s.phases[k]
  {
    hide P.UrlOf;
  }

  lemma TickKeeps(u: World, s0: map<string, C.State>, s: State, d: nat)
    requires Inv(u, s0, s)
    ensures Inv(u, s0, Next(u, s, Tick(d)))
  {
    hide PrepareTheorems.Inv, OutcomesOk, CacheOk;
    forall url | url in s0 ensures CacheOk(u, url, s0[url], s.caches[url].(clock := s.caches[url].clock + d)) {
      CacheStepKeeps(u, url, s0[url], s.caches[url], C.Tick(d));
    }
  }

  /** One cache moves while the mutexes stay. */
  lemma CacheUpdated(u: World, s0: map<string, C.State>, locks: map<string, nat>, caches: map<string, C.State>,
                     url: string, t: C.State)
    requires CachesOk(u, s0, locks, caches) && url in s0
    requires CacheOk(u, url, s0[url], t) && LockOk(locks, url, s0[url], t)
    ensures CachesOk(u, s0, locks, caches[url := t])
  {
    hide CacheOk, LockOk;
  }

  lemma CacheWorkKeeps(u: World, url: string, locks: map<string, nat>, s0: C.State, s: C.State, e: C.Event)
    requires CacheOk(u, url, s0, s) && LockOk(locks, url, s0, s) && IsWork(e, u.weather(url))
    ensures s.history != []
    ensures var t := C.Next(SettingOf(u, url), s, e); CacheOk(u, url, s0, t) && LockOk(locks, url, s0, t)
  {
    CacheOkHistory(u, url, s0, s);
    CacheStepKeeps(u, url, s0, s, e);
    WorkShape(SettingOf(u, url), s, e, u.weather(url));
    hide CacheOk, C.Next;
  }

  lemma WorkKeeps(u: World, s0: map<string, C.State>, s: State, k: nat, e: C.Event)
    requires Inv(u, s0, s)
    ensures Inv(u, s0, Next(u, s, Work(k, e)))
  {
    assert |s.tasks.phases| == P.SlotCount(u.config);
    hide PrepareTheorems.Inv, OutcomesOk, CacheOk, LockOk, P.UrlOf, C.Next;
    if k < |s.tasks.phases| && NextWork(u, s, k, e) != s {
      var url := P.UrlOf(u.config, k);
      var cache := s.caches[url];
      assert url in s0 && CacheOk(u, url, s0[url], cache) && LockOk(s.tasks.urlLocks, url, s0[url], cache);
      hide CachesOk;
      CacheWorkKeeps(u, url, s.tasks.urlLocks, s0[url], cache, e);
      CacheUpdated(u, s0, s.tasks.urlLocks, s.caches, url, C.Next(SettingOf(u, url), cache, e));
    }
  }

  /** The holder of a mutex is inside, under the URL of that mutex. */
  lemma HolderIsInside(u: World, s: P.State, k: nat)
    requires PrepareTheorems.Inv(u.config, s) && k < |s.phases| && s.phases[k].InCache?
    ensures P.Cached(u.config, k) && P.UrlOf(u.config, k) in s.urlLocks
  {
  }

  lemma EnterShape(u: World, s: P.State, k: nat)
    requires k < |s.phases| == P.SlotCount(u.config) && s.phases[k].Holding? && P.Cached(u.config, k)
    requires P.UrlOf(u.config, k) !in s.urlLocks
    ensures P.NextTask(u.config, s, k, P.Error("")) ==
            s.(phases := s.phases[k := P.InCache], urlLocks := s.urlLocks[P.UrlOf(u.config, k) := k])
  {
  }

  lemma LockTaken(u: World, s0: map<string, C.State>, locks: map<string, nat>, caches: map<string, C.State>,
                  url: string, k: nat, t: C.State)
    requires CachesOk(u, s0, locks, caches) && url in s0
    requires CacheOk(u, url, s0[url], t) && !t.pc.Unlocked?
    ensures CachesOk(u, s0, locks[url := k], caches[url := t])
  {
    hide CacheOk;
  }

  lemma EnterKeeps(u: World, s0: map<string, C.State>, s: State, k: nat)
    requires Inv(u, s0, s) && k < |s.tasks.phases| && s.tasks.phases[k].Holding? && P.Cached(u.config, k)
    ensures Inv(u, s0, Enter(u, s, k))
  {
    hide CacheOk, P.UrlOf, Possible;
    var url := P.UrlOf(u.config, k);
    if Enter(u, s, k) != s {
      var cache := s.caches[url];
      assert url in s0 && CacheOk(u, url, s0[url], cache) && cache.pc.Unlocked?;
      EnterShape(u, s.tasks, k);
      PrepareTheorems.NextKeeps(u.config, s.tasks, P.Move(k, P.Error("")));
      hide PrepareTheorems.Inv, CachesOk, P.NextTask;
      CacheStepKeeps(u, url, s0[url], cache, C.Begin(u.refresh));
      LockTaken(u, s0, s.tasks.urlLocks, s.caches, url, k, C.Next(SettingOf(u, url), cache, C.Begin(u.refresh)));
    }
  }

  lemma LastIsPermitted(u: World, url: string, s0: C.State, s: C.State)
    requires CacheOk(u, url, s0, s) && |s.outcomes| > |s0.outcomes|
    ensures s0.history != []
    ensures CacheSteady.Permitted(SettingOf(u, url), s0, u.refresh, u.weather(url), LastAnswer(s))
  {
    hide CacheSafety.Inv, CacheSteady.Permitted;
  }

  lemma LockGiven(u: World, s0: map<string, C.State>, locks: map<string, nat>, caches: map<string, C.State>, url: string)
    requires CachesOk(u, s0, locks, caches) && url in s0 && caches[url].pc.Unlocked?
    ensures CachesOk(u, s0, locks - {url}, caches)
  {
    hide CacheOk;
  }

  lemma LeavingShape(u: World, s: P.State, k: nat, o: P.Outcome)
    requires k < |s.phases| == P.SlotCount(u.config) && s.phases[k].InCache?
    ensures var t := P.NextTask(u.config, s, k, o);
            t.phases == s.phases[k := P.Back(o)] && t.urlLocks == s.urlLocks - {P.UrlOf(u.config, k)}
  {
  }

  lemma LeaveKeeps(u: World, s0: map<string, C.State>, s: State, k: nat)
    requires Inv(u, s0, s) && k < |s.tasks.phases| && s.tasks.phases[k].InCache?
    ensures Inv(u, s0, Leave(u, s, k))
  {
    hide CacheOk, P.UrlOf;
    var url := P.UrlOf(u.config, k);
    if Leave(u, s, k) != s {
      var cache := s.caches[url];
      var o := u.parse(k, LastAnswer(cache));
      HolderIsInside(u, s.tasks, k);
      LastIsPermitted(u, url, s0[url], cache);
      assert Possible(u, s0, k, o);
      assert cache.pc.Unlocked?;
      LeavingShape(u, s.tasks, k, o);
      PrepareTheorems.NextKeeps(u.config, s.tasks, P.Move(k, o));
      hide PrepareTheorems.Inv, CachesOk, Possible, P.NextTask;
      LockGiven(u, s0, s.tasks.urlLocks, s.caches, url);
    }
  }

  /** The other steps leave the cache mutexes alone. */
  lemma OtherMoveShape(u: World, s: P.State, k: nat, o: P.Outcome)
    requires k < |s.phases| == P.SlotCount(u.config)
    requires !(s.phases[k].Holding? && P.Cached(u.config, k)) && !s.phases[k].InCache?
    ensures P.NextTask(u.config, s, k, o).urlLocks == s.urlLocks
  {
  }

  lemma OtherMoveKeeps(u: World, s0: map<string, C.State>, s: State, k: nat)
    requires Inv(u, s0, s) && k < |s.tasks.phases|
    requires !(s.tasks.phases[k].Holding? && P.Cached(u.config, k)) && !s.tasks.phases[k].InCache?
    ensures Inv(u, s0, NextMove(u, s, k))
  {
    var o := u.parse(k, u.direct(k));
    var t := P.NextTask(u.config, s.tasks, k, o);
    OtherMoveShape(u, s.tasks, k, o);
    PrepareTheorems.NextKeeps(u.config, s.tasks, P.Move(k, o));
    if t != s.tasks {
      PrepareTheorems.TaskShape(u.config, s.tasks, k, o, t);
      OwnOutcome(u, s0, s.tasks, k, o);
    }
    hide PrepareTheorems.Inv, CachesOk, Possible, P.NextTask, P.Cached;
  }

  /** A slot that is not cached gets the direct answer. */
  lemma OwnOutcome(u: World, s0: map<string, C.State>, s: P.State, k: nat, o: P.Outcome)
    requires k < |s.phases| == P.SlotCount(u.config) && o == u.parse(k, u.direct(k))
    requires !(s.phases[k].Holding? && P.Cached(u.config, k)) && !s.phases[k].InCache?
    ensures var p := P.NextTask(u.config, s, k, o).phases[k];
            PrepareTheorems.HasOutcome(p) && !PrepareTheorems.HasOutcome(s.phases[k]) ==> Possible(u, s0, k, o)
  {
  }

  lemma NextKeeps(u: World, s0: map<string, C.State>, s: State, e: Event)
    requires Inv(u, s0, s)
    ensures |s.tasks.phases| == P.SlotCount(u.config) && Inv(u, s0, Next(u, s, e))
  {
    assert |s.tasks.phases| == P.SlotCount(u.config);
    hide Inv, P.Cached, Enter, Leave, NextWork, NextTick;
    match e
    case Main => MainKeeps(u, s0, s);
    case Tick(d) => TickKeeps(u, s0, s, d);
    case Work(k, w) => WorkKeeps(u, s0, s, k, w);
    case Move(k) =>
      if k < |s.tasks.phases| {
        if s.tasks.phases[k].Holding? && P.Cached(u.config, k) {
          EnterKeeps(u, s0, s, k);
        } else if s.tasks.phases[k].InCache? {
          LeaveKeeps(u, s0, s, k);
        } else {
          OtherMoveKeeps(u, s0, s, k);
        }
      }
  }

  /** Every run from a good start keeps it. */
  lemma {:induction false} RunsKeepInv(u: World, s0: map<string, C.State>, es: seq<Event>)
    requires Start(u, s0)
    ensures Inv(u, s0, Exec(u, Init(u, s0), es))
    decreases |es|
  {
    hide Start, Inv, Next;
    if es == [] {
      InitInv(u, s0);
    } else {
      RunsKeepInv(u, s0, es[..|es| - 1]);
      NextKeeps(u, s0, Exec(u, Init(u, s0), es[..|es| - 1]), es[|es| - 1]);
    }
  }

  /* ----- Runs of `prepare` over the cache are runs of `prepare` ----- */

  ghost predicate Reaches(u: World, s0: map<string, C.State>, s: State) {
    exists es :: Exec(u, Init(u, s0), es) == s
  }

  lemma ReachedInv(u: World, s0: map<string, C.State>, s: State)
    requires Start(u, s0) && Reaches(u, s0, s)
    ensures Inv(u, s0, s) && |s.tasks.phases| == P.SlotCount(u.config)
  {
    var es :| Exec(u, Init(u, s0), es) == s;
    RunsKeepInv(u, s0, es);
  }

  lemma ReachNext(u: World, s0: map<string, C.State>, s: State, e: Event)
    requires Reaches(u, s0, s) && |s.tasks.phases| == P.SlotCount(u.config)
    ensures Reaches(u, s0, Next(u, s, e))
  {
    var es :| Exec(u, Init(u, s0), es) == s;
    assert (es + [e])[..|es|] == es;
    assert Exec(u, Init(u, s0), es + [e]) == Next(u, s, e);
  }

  /** What one step does to the goroutines. */
  lemma StepProjects(u: World, s: State, e: Event) returns (p: Option<P.Event>)
    requires |s.tasks.phases| == P.SlotCount(u.config)
    ensures Next(u, s, e).tasks == if p.Some? then P.Next(u.config, s.tasks, p.value) else s.tasks
  {
    hide P.NextTask, P.NextMain, P.UrlOf, C.Next;
    match e
    case Main => p := Some(P.Main);
    case Tick(_) => p := None;
    case Work(_, _) => p := None;
    case Move(k) =>
      if k >= |s.tasks.phases| || Next(u, s, e) == s {
        p := None;
      } else if s.tasks.phases[k].Holding? && P.Cached(u.config, k) {
        p := Some(P.Move(k, P.Error("")));
      } else if s.tasks.phases[k].InCache? {
        p := Some(P.Move(k, u.parse(k, LastAnswer(s.caches[P.UrlOf(u.config, k)]))));
      } else {
        p := Some(P.Move(k, u.parse(k, u.direct(k))));
      }
  }

  /** Whatever holds of all runs of `PrepareSystem` holds here. */
  lemma {:induction false} RunsProject(u: World, s0: map<string, C.State>, es: seq<Event>) returns (ps: seq<P.Event>)
    ensures Exec(u, Init(u, s0), es).tasks == P.Exec(u.config, P.Init(u.config), ps)
    decreases |es|
  {
    hide Next, P.Next;
    if es == [] {
      ps := [];
    } else {
      ps := RunsProject(u, s0, es[..|es| - 1]);
      var p := StepProjects(u, Exec(u, Init(u, s0), es[..|es| - 1]), es[|es| - 1]);
      if p.Some? {
        assert (ps + [p.value])[..|ps|] == ps;
        ps := ps + [p.value];
      }
    }
  }

  /** Whoever takes the mutex of a URL finds its cache idle: `FetchStatic` is called as its
      contract asks. */
  lemma EnterFindsIdle(u: World, s0: map<string, C.State>, es: seq<Event>, k: nat)
    requires Start(u, s0) && k < P.SlotCount(u.config)
    ensures var s := Exec(u, Init(u, s0), es);
            s.tasks.phases[k].Holding? && Enter(u, s, k) != s ==> s.caches[P.UrlOf(u.config, k)].pc.Unlocked?
  {
    RunsKeepInv(u, s0, es);
    hide PrepareTheorems.Inv, OutcomesOk, CacheOk, P.UrlOf, C.Next;
  }

  /** What is known of the cache of a goroutine inside its section. */
  lemma Inside(u: World, s0: map<string, C.State>, s: State, k: nat)
    requires Start(u, s0) && Inv(u, s0, s)
    requires k < |s.tasks.phases| == P.SlotCount(u.config) && s.tasks.phases[k].InCache?
    ensures var url := P.UrlOf(u.config, k);
            && P.Cached(u.config, k) && url in s.caches && url in s0 && HasCache(u, s, k)
            && CacheOk(u, url, s0[url], s.caches[url]) && LockOk(s.tasks.urlLocks, url, s0[url], s.caches[url])
            && url in s.tasks.urlLocks
            && (s.caches[url].pc.Storing? ==> C.StoreReady(s.caches[url]))
  {
    HolderIsInside(u, s.tasks, k);
    InsideHasUrl(u, s.tasks, k);
    var url := P.UrlOf(u.config, k);
    assert url in s0;
    hide PrepareTheorems.Inv, OutcomesOk, P.UrlOf;
    CacheOkHistory(u, url, s0[url], s.caches[url]);
  }

  lemma InsideHasUrl(u: World, s: P.State, k: nat)
    requires PrepareTheorems.Inv(u.config, s) && k < |s.phases| && s.phases[k].InCache?
    ensures P.UrlOf(u.config, k) != ""
  {
  }

  lemma WorkStep(u: World, s0: map<string, C.State>, s: State, k: nat, e: C.Event) returns (t: State)
    requires Start(u, s0) && Reaches(u, s0, s)
    requires k < |s.tasks.phases| == P.SlotCount(u.config) && s.tasks.phases[k].InCache?
    requires IsWork(e, u.weather(P.UrlOf(u.config, k)))
    ensures var url := P.UrlOf(u.config, k);
            && url in s.caches && s.caches[url].history != []
            && t == s.(caches := s.caches[url := C.Next(SettingOf(u, url), s.caches[url], e)])
    ensures Reaches(u, s0, t)
  {
    hide Reaches, Start, Inv, CacheOk, LockOk, P.UrlOf, P.Cached, C.Next, C.StoreReady;
    ReachedInv(u, s0, s);
    Inside(u, s0, s, k);
    ReachNext(u, s0, s, Work(k, e));
    t := Next(u, s, Work(k, e));
  }
}
