/** Progress of `prepare` over the cache, calls under way included. */
module CachedProgress {
  import opened Strings
  import C = CacheSystem
  import CacheSafety
  import CacheSteady
  import MetaText
  import P = PrepareSystem
  import PrepareTheorems
  import opened CachedPrepare
  import opened CachedSafety

  /* ----- Somebody can move ----- */

  lemma ExchangeEnds(c: C.Setting, s: C.State, w: C.Weather)
    requires s.history != [] && s.pc.Loaded? && !C.MayServe(c, s) && C.WeatherOk(w)
    ensures var t := C.Next(c, s, C.Exchange(w)); t.pc.Storing? || HasReturned(t)
  {
    hide C.AfterExchange;
    var r := CacheSafety.ExchangeShape(c, s, w);
  }

  lemma ServingEnds(c: C.Setting, s: C.State)
    requires s.history != [] && s.pc.Loaded? && C.MayServe(c, s)
    ensures HasReturned(C.Next(c, s, C.ServeFresh))
  {
  }

  lemma FailureEnds(c: C.Setting, s: C.State)
    requires s.history != [] && C.StoreReady(s)
    ensures HasReturned(C.Next(c, s, C.StoreFails(false)))
  {
  }

  /** Whether a goroutine can move does not depend on what its fetch gives. */
  lemma MoveEnabled(u: World, s: P.State, k: nat, o: P.Outcome)
    requires k < |s.phases| == P.SlotCount(u.config) && P.NextTask(u.config, s, k, o) != s
    ensures forall p :: P.NextTask(u.config, s, k, p) != s
    ensures s.phases[k].Holding? && P.Cached(u.config, k) ==> P.UrlOf(u.config, k) !in s.urlLocks
  {
  }

  lemma HoldingHasCache(u: World, s0: map<string, C.State>, s: State, k: nat)
    requires Start(u, s0) && Inv(u, s0, s)
    requires k < |s.tasks.phases| == P.SlotCount(u.config) && s.tasks.phases[k].Holding? && P.Cached(u.config, k)
    ensures HasCache(u, s, k)
  {
    var url := P.UrlOf(u.config, k);
    assert url != "";
    hide PrepareTheorems.Inv, OutcomesOk, P.UrlOf;
    CacheOkHistory(u, url, s0[url], s.caches[url]);
  }

  /** The next step of a call under way. */
  function NextStep(c: C.Setting, s: C.State, w: C.Weather): C.Event {
    if s.pc.Loaded? then (if C.MayServe(c, s) then C.ServeFresh else C.Exchange(w)) else C.StoreFails(false)
  }

  lemma CallMoves(c: C.Setting, s: C.State, w: C.Weather)
    requires s.history != [] && C.WeatherOk(w) && !s.pc.Unlocked? && (s.pc.Storing? ==> C.StoreReady(s))
    ensures IsWork(NextStep(c, s, w), w) && C.Next(c, s, NextStep(c, s, w)).pc != s.pc
  {
    hide C.AfterExchange;
    if s.pc.Loaded? {
      if !C.MayServe(c, s) {
        ExchangeEnds(c, s, w);
      }
    } else {
      FailureEnds(c, s);
    }
  }

  lemma WorkChanges(u: World, s: State, k: nat, e: C.Event)
    requires k < |s.tasks.phases| == P.SlotCount(u.config) && s.tasks.phases[k].InCache? && HasCache(u, s, k)
    requires IsWork(e, u.weather(P.UrlOf(u.config, k)))
    requires var url := P.UrlOf(u.config, k); C.Next(SettingOf(u, url), s.caches[url], e).pc != s.caches[url].pc
    ensures Next(u, s, Work(k, e)) != s
  {
    hide P.UrlOf, C.Next, IsWork;
    var url := P.UrlOf(u.config, k);
    assert Next(u, s, Work(k, e)).caches[url] == C.Next(SettingOf(u, url), s.caches[url], e);
  }

  lemma LeaveChanges(u: World, s: State, k: nat)
    requires k < |s.tasks.phases| == P.SlotCount(u.config) && s.tasks.phases[k].InCache? && HasCache(u, s, k)
    requires HasReturned(s.caches[P.UrlOf(u.config, k)])
    ensures Next(u, s, Move(k)) != s
  {
    LeavingShape(u, s.tasks, k, u.parse(k, LastAnswer(s.caches[P.UrlOf(u.config, k)])));
    hide P.UrlOf, P.NextTask;
  }

  /** The goroutine inside its section can go on with its call, or leave. */
  lemma InsideCanStep(u: World, s0: map<string, C.State>, s: State, k: nat) returns (e: Event)
    requires Start(u, s0) && Inv(u, s0, s)
    requires k < |s.tasks.phases| == P.SlotCount(u.config) && s.tasks.phases[k].InCache?
    ensures !e.Tick? && Next(u, s, e) != s
  {
    var url := P.UrlOf(u.config, k);
    Inside(u, s0, s, k);
    var cache, c, w := s.caches[url], SettingOf(u, url), u.weather(url);
    assert C.WeatherOk(w) && (cache.pc.Unlocked? ==> HasReturned(cache));
    hide Start, Inv, Next, CacheOk, LockOk, P.UrlOf, P.Cached, C.Next, NextStep, C.WeatherOk, IsWork, HasReturned;
    if cache.pc.Unlocked? {
      LeaveChanges(u, s, k);
      e := Move(k);
    } else {
      CallMoves(c, cache, w);
      WorkChanges(u, s, k, NextStep(c, cache, w));
      e := Work(k, NextStep(c, cache, w));
    }
  }

  /** Until `prepare` has returned, some step other than the clock's changes the state. */
  lemma SomeoneCanStep(u: World, s0: map<string, C.State>, s: State) returns (e: Event)
    requires Start(u, s0) && Inv(u, s0, s) && !s.tasks.returned
    ensures |s.tasks.phases| == P.SlotCount(u.config)
    ensures !e.Tick? && Next(u, s, e) != s
  {
    assert |s.tasks.phases| == P.SlotCount(u.config);
    var p := PrepareTheorems.SomeoneCanMove(u.config, s.tasks);
    hide Start, Inv, PrepareTheorems.Inv, P.NextMain, P.NextTask;
    match p
    case Main => e := Main;
    case Move(k, o) =>
      if s.tasks.phases[k].InCache? {
        e := InsideCanStep(u, s0, s, k);
      } else {
        MoveEnabled(u, s.tasks, k, o);
        if s.tasks.phases[k].Holding? && P.Cached(u.config, k) {
          HoldingHasCache(u, s0, s, k);
        }
        e := Move(k);
      }
  }

  /** Where nothing but the clock can change anything, `prepare` has returned, with nothing held
      and no call under way. */
  lemma OnlyClockMeansDone(u: World, s0: map<string, C.State>, s: State)
    requires Start(u, s0) && Inv(u, s0, s) && |s.tasks.phases| == P.SlotCount(u.config)
    requires forall e: Event :: !e.Tick? ==> Next(u, s, e) == s
    ensures s.tasks.returned && s.tasks.sem == 0 && s.tasks.wg == 0 && s.tasks.urlLocks == map[] && s.tasks.errLocks == map[]
    ensures forall url <- s.caches :: s.caches[url].pc.Unlocked?
  {
    if !s.tasks.returned {
      var e := SomeoneCanStep(u, s0, s);
    }
    PrepareTheorems.ReturnedIsIdle(u.config, s.tasks);
    hide PrepareTheorems.Inv, OutcomesOk, CacheOk, P.UrlOf;
  }

  /* ----- What is left to do ----- */

  function Minus(a: nat, b: nat): nat {
    if a >= b then a - b else 0
  }

  /** What is left of a call inside `store`. */
  function StageLeft(c: C.Setting, s: C.State): nat
    requires C.StoreReady(s)
  {
    var body, text := |C.StoredBody(s)|, |MetaText.Encode(C.ReceivedMeta(c, s, |s.log| - 1))|;
    match s.pc.stage
    case Entered => body + text + 6
    case Filling(_, n) => Minus(body, n) + text + 5
    case Filled(_) => text + 4
    case Renamed => text + 3
    case MetaOpen(n) => Minus(text, n) + 1
  }

  function StoreLeft(c: C.Setting, s: C.State): nat {
    if C.StoreReady(s) then StageLeft(c, s) else 0
  }

  lemma StoreStepLowers(c: C.Setting, s: C.State, e: C.Event)
    requires CacheSafety.Inv(c, s) && C.StoreReady(s) && C.AfterStoreStep(c, s, e) != s
    ensures !C.AfterStoreStep(c, s, e).pc.Loaded?
    ensures StoreLeft(c, C.AfterStoreStep(c, s, e)) < StoreLeft(c, s)
  {
    hide MetaText.Encode, MetaText.Decode;
  }

  /** A step of a call that changes anything ends its loading, or uses up some of `store`. */
  lemma WorkLowers(c: C.Setting, s: C.State, e: C.Event, w: C.Weather)
    requires CacheSafety.Inv(c, s) && IsWork(e, w) && s.history != [] && C.Next(c, s, e) != s
    ensures var t := C.Next(c, s, e);
            !t.pc.Loaded? && (s.pc.Loaded? || StoreLeft(c, t) < StoreLeft(c, s))
  {
    hide MetaText.Encode, MetaText.Decode, CacheSafety.Inv, C.AfterStoreStep, C.AfterExchange, StageLeft;
    if C.StoreReady(s) {
      StoreStepLowers(c, s, e);
    } else if e.Exchange? {
      var r := CacheSafety.ExchangeShape(c, s, w);
    }
  }

  /** Slot `k` is inside its section and has loaded its entry. */
  function Loading(u: World, s: State, k: nat): nat
    requires k < |s.tasks.phases| == P.SlotCount(u.config)
  {
    var url := P.UrlOf(u.config, k);
    if s.tasks.phases[k].InCache? && url in s.caches && s.caches[url].pc.Loaded? then 1 else 0
  }

  /** What is left of slot `k`'s `store`. */
  function Storing(u: World, s: State, k: nat): nat
    requires k < |s.tasks.phases| == P.SlotCount(u.config)
  {
    var url := P.UrlOf(u.config, k);
    if s.tasks.phases[k].InCache? && url in s.caches then StoreLeft(SettingOf(u, url), s.caches[url]) else 0
  }

  function LoadingsUpTo(u: World, s: State, n: nat): nat
    requires n <= |s.tasks.phases| == P.SlotCount(u.config)
  {
    if n == 0 then 0 else LoadingsUpTo(u, s, n - 1) + Loading(u, s, n - 1)
  }

  function StoringsUpTo(u: World, s: State, n: nat): nat
    requires n <= |s.tasks.phases| == P.SlotCount(u.config)
  {
    if n == 0 then 0 else StoringsUpTo(u, s, n - 1) + Storing(u, s, n - 1)
  }

  /** The first and the second part of the measure. */
  function Steps(u: World, s: State): nat
    requires |s.tasks.phases| == P.SlotCount(u.config) && s.tasks.spawned <= P.SlotCount(u.config)
  {
    2 * PrepareTheorems.Measure(u.config, s.tasks) + LoadingsUpTo(u, s, |s.tasks.phases|)
  }

  function Bytes(u: World, s: State): nat
    requires |s.tasks.phases| == P.SlotCount(u.config)
  {
    StoringsUpTo(u, s, |s.tasks.phases|)
  }

  /** `t` has less left than `s`: fewer steps, or as many and less to write. */
  ghost predicate Lower(u: World, s: State, t: State)
    requires |s.tasks.phases| == |t.tasks.phases| == P.SlotCount(u.config)
    requires s.tasks.spawned <= P.SlotCount(u.config) && t.tasks.spawned <= P.SlotCount(u.config)
  {
    Steps(u, t) < Steps(u, s) || (Steps(u, t) == Steps(u, s) && Bytes(u, t) < Bytes(u, s))
  }

  /** The slots other than `k` have as much left as before. */
  ghost predicate OthersSame(u: World, s: State, t: State, k: nat)
    requires |s.tasks.phases| == |t.tasks.phases| == P.SlotCount(u.config)
  {
    forall j: nat :: j < |s.tasks.phases| && j != k ==> Loading(u, t, j) == Loading(u, s, j) && Storing(u, t, j) == Storing(u, s, j)
  }

  lemma {:induction false} OneSlotChanges(u: World, s: State, t: State, k: nat, n: nat)
    requires n <= |s.tasks.phases| == |t.tasks.phases| == P.SlotCount(u.config)
    requires OthersSame(u, s, t, k)
    ensures k >= n ==> LoadingsUpTo(u, t, n) == LoadingsUpTo(u, s, n) && StoringsUpTo(u, t, n) == StoringsUpTo(u, s, n)
    ensures k < n ==> LoadingsUpTo(u, t, n) + Loading(u, s, k) == LoadingsUpTo(u, s, n) + Loading(u, t, k)
    ensures k < n ==> StoringsUpTo(u, t, n) + Storing(u, s, k) == StoringsUpTo(u, s, n) + Storing(u, t, k)
    decreases n
  {
    hide Loading, Storing;
    if n > 0 {
      OneSlotChanges(u, s, t, k, n - 1);
    }
  }

  /** A step of the goroutines lowers the measure, whatever it does to the cache of its slot. */
  lemma TasksLower(u: World, s: State, t: State, k: nat)
    requires |s.tasks.phases| == |t.tasks.phases| == P.SlotCount(u.config)
    requires s.tasks.spawned <= P.SlotCount(u.config) && t.tasks.spawned <= P.SlotCount(u.config)
    requires OthersSame(u, s, t, k)
    requires PrepareTheorems.Measure(u.config, t.tasks) < PrepareTheorems.Measure(u.config, s.tasks)
    ensures Lower(u, s, t)
  {
    OneSlotChanges(u, s, t, k, |s.tasks.phases|);
    hide OthersSame, PrepareTheorems.Measure;
  }

  /** A step of the call of slot `k`. */
  lemma CallLowers(u: World, s: State, t: State, k: nat)
    requires |s.tasks.phases| == P.SlotCount(u.config) && k < |s.tasks.phases| && t.tasks == s.tasks
    requires s.tasks.spawned <= P.SlotCount(u.config)
    requires OthersSame(u, s, t, k)
    requires Loading(u, t, k) < Loading(u, s, k)
             || (Loading(u, t, k) == Loading(u, s, k) && Storing(u, t, k) < Storing(u, s, k))
    ensures Lower(u, s, t)
  {
    OneSlotChanges(u, s, t, k, |s.tasks.phases|);
    hide OthersSame, Loading, Storing, PrepareTheorems.Measure;
  }

  /** Nobody else is inside under the URL of slot `k`. */
  lemma AloneInside(u: World, s: P.State, j: nat, k: nat)
    requires PrepareTheorems.Inv(u.config, s) && j < |s.phases| && k < |s.phases| && s.phases[j].InCache?
    ensures s.phases[k].InCache? && P.UrlOf(u.config, j) == P.UrlOf(u.config, k) ==> j == k
    ensures P.UrlOf(u.config, j) in s.urlLocks
  {
  }

  /** Slots are judged by their phase and their cache. */
  lemma CachesStay(u: World, s: State, t: State, k: nat)
    requires |s.tasks.phases| == |t.tasks.phases| == P.SlotCount(u.config) && t.caches == s.caches
    requires forall j :: 0 <= j < |s.tasks.phases| && j != k ==> (t.tasks.phases[j].InCache? <==> s.tasks.phases[j].InCache?)
    ensures OthersSame(u, s, t, k)
  {
    hide P.UrlOf, StoreLeft;
  }

  lemma OneCacheMoves(u: World, s: State, t: State, k: nat, url: string, cache: C.State)
    requires |s.tasks.phases| == |t.tasks.phases| == P.SlotCount(u.config) && t.caches == s.caches[url := cache]
    requires forall j :: 0 <= j < |s.tasks.phases| && j != k ==> (t.tasks.phases[j].InCache? <==> s.tasks.phases[j].InCache?)
    requires forall j :: 0 <= j < |s.tasks.phases| && j != k && s.tasks.phases[j].InCache? ==> P.UrlOf(u.config, j) != url
    ensures OthersSame(u, s, t, k)
  {
    hide P.UrlOf, StoreLeft;
  }

  lemma MainLowers(u: World, s0: map<string, C.State>, s: State)
    requires Inv(u, s0, s) && P.NextMain(u.config, s.tasks) != s.tasks
    ensures Lowered(u, s, Next(u, s, Main))
  {
    var t := Next(u, s, Main);
    assert PrepareTheorems.Inv(u.config, s.tasks) && PrepareTheorems.SpawnOk(u.config, s.tasks);
    MainInside(u, s.tasks);
    hide Inv, PrepareTheorems.Inv, PrepareTheorems.Measure, P.NextMain, P.UrlOf, OthersSame, Lower;
    PrepareTheorems.StepsUseUpMeasure(u.config, s.tasks, P.Main);
    CachesStay(u, s, t, |s.tasks.phases|);
    TasksLower(u, s, t, |s.tasks.phases|);
  }

  lemma MainInside(u: World, s: P.State)
    requires |s.phases| == P.SlotCount(u.config)
    requires s.spawned < |s.phases| ==> s.phases[s.spawned].Unspawned?
    ensures var t := P.NextMain(u.config, s);
            |t.phases| == |s.phases| && forall k :: 0 <= k < |s.phases| ==> (t.phases[k].InCache? <==> s.phases[k].InCache?)
  {
    hide P.UrlOf;
  }

  ghost predicate Lowered(u: World, s: State, t: State) {
    && |s.tasks.phases| == |t.tasks.phases| == P.SlotCount(u.config)
    && s.tasks.spawned <= P.SlotCount(u.config) && t.tasks.spawned <= P.SlotCount(u.config)
    && Lower(u, s, t)
  }

  /** A step of goroutine `k` that leaves the caches alone. */
  lemma PlainMoveLowers(u: World, s0: map<string, C.State>, s: State, k: nat, o: P.Outcome)
    requires Inv(u, s0, s) && k < |s.tasks.phases| && |s.tasks.phases| == P.SlotCount(u.config)
    requires P.NextTask(u.config, s.tasks, k, o) != s.tasks
    ensures Lowered(u, s, s.(tasks := P.NextTask(u.config, s.tasks, k, o)))
  {
    var t := s.(tasks := P.NextTask(u.config, s.tasks, k, o));
    assert PrepareTheorems.Inv(u.config, s.tasks) && PrepareTheorems.SpawnOk(u.config, s.tasks);
    hide Inv, PrepareTheorems.Inv, PrepareTheorems.Measure, P.NextTask, P.UrlOf, OthersSame, Lower;
    PrepareTheorems.StepsUseUpMeasure(u.config, s.tasks, P.Move(k, o));
    CachesStay(u, s, t, k);
    TasksLower(u, s, t, k);
  }

  lemma EnterLowers(u: World, s0: map<string, C.State>, s: State, k: nat)
    requires Inv(u, s0, s) && k < |s.tasks.phases| && |s.tasks.phases| == P.SlotCount(u.config)
    requires s.tasks.phases[k].Holding? && P.Cached(u.config, k) && Enter(u, s, k) != s
    ensures Lowered(u, s, Enter(u, s, k))
  {
    var t := Enter(u, s, k);
    var o := P.Error("");
    assert PrepareTheorems.Inv(u.config, s.tasks) && PrepareTheorems.SpawnOk(u.config, s.tasks);
    hide Inv, PrepareTheorems.Inv, PrepareTheorems.Measure, P.NextTask, P.UrlOf, OthersSame, Lower, C.Next;
    EnterShape(u, s.tasks, k);
    PrepareTheorems.StepsUseUpMeasure(u.config, s.tasks, P.Move(k, o));
    forall j: nat | j < |s.tasks.phases| && s.tasks.phases[j].InCache? ensures P.UrlOf(u.config, j) in s.tasks.urlLocks {
      AloneInside(u, s.tasks, j, k);
    }
    OneCacheMoves(u, s, t, k, P.UrlOf(u.config, k), t.caches[P.UrlOf(u.config, k)]);
    TasksLower(u, s, t, k);
  }

  lemma OthersElsewhere(u: World, s0: map<string, C.State>, s: State, k: nat)
    requires Inv(u, s0, s) && k < |s.tasks.phases| && s.tasks.phases[k].InCache?
    ensures |s.tasks.phases| == P.SlotCount(u.config) && s.tasks.spawned <= P.SlotCount(u.config)
    ensures forall j :: 0 <= j < |s.tasks.phases| && s.tasks.phases[j].InCache? && j != k ==>
              P.UrlOf(u.config, j) != P.UrlOf(u.config, k)
  {
    assert PrepareTheorems.Inv(u.config, s.tasks) && PrepareTheorems.SpawnOk(u.config, s.tasks);
    hide P.UrlOf, CachesOk, OutcomesOk;
    forall j: nat | j < |s.tasks.phases| && s.tasks.phases[j].InCache? && j != k ensures P.UrlOf(u.config, j) != P.UrlOf(u.config, k) {
      AloneInside(u, s.tasks, j, k);
    }
  }

  lemma CallSlotLowers(u: World, s: State, t: State, k: nat, e: C.Event)
    requires k < |s.tasks.phases| == P.SlotCount(u.config) && s.tasks.phases[k].InCache? && t.tasks == s.tasks
    requires var url := P.UrlOf(u.config, k);
             && url in s.caches && s.caches[url].history != []
             && t.caches == s.caches[url := C.Next(SettingOf(u, url), s.caches[url], e)] && t.caches[url] != s.caches[url]
             && CacheSafety.Inv(SettingOf(u, url), s.caches[url]) && IsWork(e, u.weather(url))
    ensures Loading(u, t, k) < Loading(u, s, k)
            || (Loading(u, t, k) == Loading(u, s, k) && Storing(u, t, k) < Storing(u, s, k))
  {
    var url := P.UrlOf(u.config, k);
    hide CacheSafety.Inv, P.UrlOf, C.Next, StoreLeft, IsWork;
    WorkLowers(SettingOf(u, url), s.caches[url], e, u.weather(url));
  }

  lemma WorkStepLowers(u: World, s0: map<string, C.State>, s: State, k: nat, e: C.Event)
    requires Start(u, s0) && Inv(u, s0, s) && k < |s.tasks.phases| && |s.tasks.phases| == P.SlotCount(u.config)
    requires NextWork(u, s, k, e) != s
    ensures Lowered(u, s, NextWork(u, s, k, e))
  {
    hide Start, Inv, LockOk, CacheSafety.Inv, CacheSafety.Faithful, CacheSteady.Since, P.UrlOf, P.Cached, C.Next,
      C.StoreReady, IsWork, OthersSame, Lower, Loading, Storing;
    var url := P.UrlOf(u.config, k);
    var t := NextWork(u, s, k, e);
    Inside(u, s0, s, k);
    OthersElsewhere(u, s0, s, k);
    assert t.caches == s.caches[url := C.Next(SettingOf(u, url), s.caches[url], e)];
    CallSlotLowers(u, s, t, k, e);
    OneCacheMoves(u, s, t, k, url, t.caches[url]);
    CallLowers(u, s, t, k);
  }

  /** Every step other than the clock's that changes the state lowers the measure. */
  lemma StepsLower(u: World, s0: map<string, C.State>, s: State, e: Event)
    requires Start(u, s0) && Inv(u, s0, s) && !e.Tick?
    requires |s.tasks.phases| == P.SlotCount(u.config) && Next(u, s, e) != s
    ensures Lowered(u, s, Next(u, s, e))
  {
    hide Start, Inv, Lowered, P.NextMain, P.NextTask, P.Cached, P.UrlOf, C.Next, Enter, NextWork;
    match e
    case Main => MainLowers(u, s0, s);
    case Work(k, w) => WorkStepLowers(u, s0, s, k, w);
    case Move(k) =>
      if s.tasks.phases[k].Holding? && P.Cached(u.config, k) {
        EnterLowers(u, s0, s, k);
      } else if s.tasks.phases[k].InCache? {
        PlainMoveLowers(u, s0, s, k, u.parse(k, LastAnswer(s.caches[P.UrlOf(u.config, k)])));
      } else {
        PlainMoveLowers(u, s0, s, k, u.parse(k, u.direct(k)));
      }
  }

  lemma TickKeepsSlot(u: World, s: State, d: nat, j: nat)
    requires j < |s.tasks.phases| == P.SlotCount(u.config)
    ensures Loading(u, NextTick(u, s, d), j) == Loading(u, s, j) && Storing(u, NextTick(u, s, d), j) == Storing(u, s, j)
  {
    hide StoreLeft, P.UrlOf;
    var url := P.UrlOf(u.config, j);
    if url in s.caches {
      TickLeaves(SettingOf(u, url), s.caches[url], d);
    }
  }

  /** The clock leaves it as it is. */
  lemma TicksKeep(u: World, s: State, d: nat)
    requires |s.tasks.phases| == P.SlotCount(u.config) && s.tasks.spawned <= P.SlotCount(u.config)
    ensures Steps(u, Next(u, s, Tick(d))) == Steps(u, s) && Bytes(u, Next(u, s, Tick(d))) == Bytes(u, s)
  {
    var t := Next(u, s, Tick(d));
    hide Loading, Storing, NextTick, PrepareTheorems.Measure;
    forall j: nat | j < |s.tasks.phases| ensures Loading(u, t, j) == Loading(u, s, j) && Storing(u, t, j) == Storing(u, s, j) {
      TickKeepsSlot(u, s, d, j);
    }
    OneSlotChanges(u, s, t, |s.tasks.phases|, |s.tasks.phases|);
  }

  lemma TickLeaves(c: C.Setting, s: C.State, d: nat)
    ensures StoreLeft(c, s.(clock := s.clock + d)) == StoreLeft(c, s)
  {
    hide MetaText.Encode;
    var t := s.(clock := s.clock + d);
    if C.StoreReady(s) {
      assert C.ReceivedMeta(c, t, |t.log| - 1) == C.ReceivedMeta(c, s, |s.log| - 1);
    }
  }

  /* ----- Every run can return ----- */

  lemma {:induction false} ExecFirst(u: World, s: State, e: Event, rest: seq<Event>)
    requires |s.tasks.phases| == P.SlotCount(u.config)
    ensures Exec(u, s, [e] + rest) == Exec(u, Next(u, s, e), rest)
    decreases |rest|
  {
    hide Next;
    if rest == [] {
      assert [e] + rest == [e] && [e][..0] == [];
      assert Exec(u, s, []) == s;
    } else {
      assert ([e] + rest)[..|rest|] == [e] + rest[..|rest| - 1];
      ExecFirst(u, s, e, rest[..|rest| - 1]);
    }
  }

  /** From every reachable state some continuation returns, without the clock's help. */
  lemma {:induction false} CanReturn(u: World, s0: map<string, C.State>, s: State) returns (es: seq<Event>)
    requires Start(u, s0) && Inv(u, s0, s)
    requires |s.tasks.phases| == P.SlotCount(u.config) && s.tasks.spawned <= P.SlotCount(u.config)
    ensures Exec(u, s, es).tasks.returned && Inv(u, s0, Exec(u, s, es))
    ensures forall e <- es :: !e.Tick?
    decreases Steps(u, s), Bytes(u, s)
  {
    hide Start, Inv, Next, Steps, Bytes;
    if s.tasks.returned {
      es := [];
    } else {
      var e := SomeoneCanStep(u, s0, s);
      StepsLower(u, s0, s, e);
      NextKeeps(u, s0, s, e);
      var rest := CanReturn(u, s0, Next(u, s, e));
      es := [e] + rest;
      ExecFirst(u, s, e, rest);
    }
  }

  /** Whatever has happened, and with any number of sources: the run goes on to its return. */
  lemma EveryRunCanReturn(u: World, s0: map<string, C.State>, es: seq<Event>) returns (more: seq<Event>)
    requires Start(u, s0)
    ensures Exec(u, Exec(u, Init(u, s0), es), more).tasks.returned
  {
    hide Start, Inv;
    RunsKeepInv(u, s0, es);
    InvSpawned(u, s0, Exec(u, Init(u, s0), es));
    more := CanReturn(u, s0, Exec(u, Init(u, s0), es));
  }

  /* ----- No schedule goes on for ever ----- */

  /** An infinite schedule and its states. */
  ghost predicate Schedule(u: World, states: nat -> State, events: nat -> Event) {
    forall i: nat :: |states(i).tasks.phases| == P.SlotCount(u.config) && states(i + 1) == Next(u, states(i), events(i))
  }

  lemma InvSpawned(u: World, s0: map<string, C.State>, s: State)
    requires Inv(u, s0, s)
    ensures |s.tasks.phases| == P.SlotCount(u.config) && s.tasks.spawned <= P.SlotCount(u.config)
  {
  }

  lemma {:induction false} ScheduleKeepsInv(u: World, s0: map<string, C.State>, states: nat -> State, events: nat -> Event, i: nat)
    requires Start(u, s0) && Inv(u, s0, states(0)) && Schedule(u, states, events)
    ensures Inv(u, s0, states(i)) && |states(i).tasks.phases| == P.SlotCount(u.config)
    ensures states(i).tasks.spawned <= P.SlotCount(u.config)
  {
    hide Start, Inv, Next;
    if i > 0 {
      ScheduleKeepsInv(u, s0, states, events, i - 1);
      NextKeeps(u, s0, states(i - 1), events(i - 1));
      assert states(i) == Next(u, states(i - 1), events(i - 1));
    }
    InvSpawned(u, s0, states(i));
  }

  /** The step changes the state, and not by the clock. */
  ghost predicate Effective(states: nat -> State, events: nat -> Event, i: nat) {
    !events(i).Tick? && states(i + 1) != states(i)
  }

  lemma {:induction false} QuietKeepsMeasure(u: World, s0: map<string, C.State>, states: nat -> State, events: nat -> Event,
                                             m: nat, n: nat)
    requires Start(u, s0) && Inv(u, s0, states(0)) && Schedule(u, states, events)
    requires m <= n && forall i: nat :: m <= i < n ==> !Effective(states, events, i)
    ensures states(m).tasks.spawned <= P.SlotCount(u.config) && states(n).tasks.spawned <= P.SlotCount(u.config)
    ensures |states(m).tasks.phases| == |states(n).tasks.phases| == P.SlotCount(u.config)
    ensures Steps(u, states(n)) == Steps(u, states(m)) && Bytes(u, states(n)) == Bytes(u, states(m))
    decreases n - m
  {
    hide Start, Inv, Steps, Bytes, Next;
    ScheduleKeepsInv(u, s0, states, events, m);
    ScheduleKeepsInv(u, s0, states, events, n);
    if m < n {
      QuietKeepsMeasure(u, s0, states, events, m, n - 1);
      assert !Effective(states, events, n - 1);
      assert states(n - 1 + 1) == Next(u, states(n - 1), events(n - 1));
      QuietStepKeeps(u, states(n - 1), events(n - 1));
    }
  }

  lemma QuietStepKeeps(u: World, s: State, e: Event)
    requires |s.tasks.phases| == P.SlotCount(u.config) && s.tasks.spawned <= P.SlotCount(u.config)
    requires e.Tick? || Next(u, s, e) == s
    ensures Next(u, s, e).tasks.spawned <= P.SlotCount(u.config)
    ensures Steps(u, Next(u, s, e)) == Steps(u, s) && Bytes(u, Next(u, s, e)) == Bytes(u, s)
  {
    hide Steps, Bytes, NextMove, NextWork, P.NextMain;
    if e.Tick? {
      TicksKeep(u, s, e.d);
    }
  }

  /** From some step on, nothing but the clock changes anything. */
  lemma {:induction false} SchedulesSettle(u: World, s0: map<string, C.State>, states: nat -> State, events: nat -> Event, m: nat)
    returns (n: nat)
    requires Start(u, s0) && Inv(u, s0, states(0)) && Schedule(u, states, events)
    requires states(m).tasks.spawned <= P.SlotCount(u.config) && |states(m).tasks.phases| == P.SlotCount(u.config)
    ensures m <= n && forall i: nat :: n <= i ==> !Effective(states, events, i)
    decreases Steps(u, states(m)), Bytes(u, states(m))
  {
    n := m;
    if i: nat :| m <= i && Effective(states, events, i) && forall j: nat :: m <= j < i ==> !Effective(states, events, j) {
      QuietKeepsMeasure(u, s0, states, events, m, i);
      ScheduleKeepsInv(u, s0, states, events, i);
      ScheduleKeepsInv(u, s0, states, events, i + 1);
      assert states(i + 1) == Next(u, states(i), events(i));
      hide Start, Inv, Steps, Bytes;
      StepsLower(u, s0, states(i), events(i));
      n := SchedulesSettle(u, s0, states, events, i + 1);
    } else {
      forall i: nat | m <= i ensures !Effective(states, events, i) {
        if Effective(states, events, i) {
          var first := FirstEffective(states, events, m, i);
        }
      }
    }
  }

  lemma {:induction false} FirstEffective(states: nat -> State, events: nat -> Event, m: nat, i: nat) returns (first: nat)
    requires m <= i && Effective(states, events, i)
    ensures m <= first <= i && Effective(states, events, first)
    ensures forall j: nat :: m <= j < first ==> !Effective(states, events, j)
    decreases i
  {
    first := i;
    if j: nat :| m <= j < i && Effective(states, events, j) {
      first := FirstEffective(states, events, m, j);
    }
  }

  /** As long as `prepare` has not returned, some step comes that changes something. */
  ghost predicate Fair(states: nat -> State, events: nat -> Event) {
    forall i: nat :: !states(i).tasks.returned ==> exists j: nat :: i <= j && Effective(states, events, j)
  }

  /** Every fair schedule returns. */
  lemma FairSchedulesReturn(u: World, s0: map<string, C.State>, states: nat -> State, events: nat -> Event) returns (n: nat)
    requires Start(u, s0) && Inv(u, s0, states(0)) && Schedule(u, states, events) && Fair(states, events)
    ensures states(n).tasks.returned
  {
    ScheduleKeepsInv(u, s0, states, events, 0);
    assert |states(0).tasks.phases| == P.SlotCount(u.config);
    n := SchedulesSettle(u, s0, states, events, 0);
    hide Start, Inv, Schedule;
  }

  /* ----- Outcomes stay ----- */

  lemma RecordingKeepsOutcome(u: World, s: P.State, k: nat, o: P.Outcome)
    requires k < |s.phases| == P.SlotCount(u.config) && (s.phases[k].Back? || s.phases[k].Reporting?)
    ensures var p := P.NextTask(u.config, s, k, o).phases[k]; PrepareTheorems.HasOutcome(p) && p.o == s.phases[k].o
  {
    hide P.UrlOf, P.Cached, P.Capacity, P.SourceOf;
  }

  lemma EndingKeepsOutcome(u: World, s: P.State, k: nat, o: P.Outcome)
    requires k < |s.phases| == P.SlotCount(u.config) && PrepareTheorems.Written(s.phases[k])
    ensures var p := P.NextTask(u.config, s, k, o).phases[k]; PrepareTheorems.HasOutcome(p) && p.o == s.phases[k].o
  {
    hide P.UrlOf, P.Cached, P.Capacity, P.SourceOf;
  }

  /** A step of a goroutine keeps the outcomes there are. */
  lemma TaskKeepsOutcome(u: World, s: P.State, j: nat, o: P.Outcome, k: nat)
    requires j < |s.phases| == P.SlotCount(u.config) && k < |s.phases| && PrepareTheorems.HasOutcome(s.phases[k])
    ensures var p := P.NextTask(u.config, s, j, o).phases[k]; PrepareTheorems.HasOutcome(p) && p.o == s.phases[k].o
  {
    if j == k {
      if PrepareTheorems.Written(s.phases[k]) {
        EndingKeepsOutcome(u, s, k, o);
      } else {
        RecordingKeepsOutcome(u, s, k, o);
      }
    }
    hide P.NextTask;
  }

  lemma MainKeepsOutcome(u: World, s: P.State, k: nat)
    requires |s.phases| == P.SlotCount(u.config) && k < |s.phases| && PrepareTheorems.HasOutcome(s.phases[k])
    requires s.spawned < P.SlotCount(u.config) ==> s.phases[s.spawned].Unspawned?
    ensures P.NextMain(u.config, s).phases[k] == s.phases[k]
  {
    hide P.UrlOf;
  }

  /** Nor does any other step take an outcome back. */
  lemma StepKeepsOutcome(u: World, s0: map<string, C.State>, s: State, e: Event, k: nat)
    requires Inv(u, s0, s) && |s.tasks.phases| == P.SlotCount(u.config)
    requires k < |s.tasks.phases| && PrepareTheorems.HasOutcome(s.tasks.phases[k])
    ensures var p := Next(u, s, e).tasks.phases[k]; PrepareTheorems.HasOutcome(p) && p.o == s.tasks.phases[k].o
  {
    assert PrepareTheorems.Inv(u.config, s.tasks) && PrepareTheorems.SpawnOk(u.config, s.tasks);
    var p := StepProjects(u, s, e);
    hide Inv, PrepareTheorems.Inv, Next, P.NextMain, P.NextTask;
    if p.Some? {
      match p.value
      case Main => MainKeepsOutcome(u, s.tasks, k);
      case Move(j, o) =>
        if j < |s.tasks.phases| {
          TaskKeepsOutcome(u, s.tasks, j, o, k);
        }
    }
  }

  /** What a slot has got it keeps. */
  lemma {:induction false} RunsKeepOutcome(u: World, s0: map<string, C.State>, s: State, es: seq<Event>, k: nat)
    requires Start(u, s0) && Inv(u, s0, s) && |s.tasks.phases| == P.SlotCount(u.config)
    requires k < |s.tasks.phases| && PrepareTheorems.HasOutcome(s.tasks.phases[k])
    ensures Inv(u, s0, Exec(u, s, es))
    ensures var p := Exec(u, s, es).tasks.phases[k]; PrepareTheorems.HasOutcome(p) && p.o == s.tasks.phases[k].o
    decreases |es|
  {
    hide Start, Inv, Next, PrepareTheorems.HasOutcome;
    if es != [] {
      var t := Exec(u, s, es[..|es| - 1]);
      RunsKeepOutcome(u, s0, s, es[..|es| - 1], k);
      NextKeeps(u, s0, t, es[|es| - 1]);
      StepKeepsOutcome(u, s0, t, es[|es| - 1], k);
    }
  }
}
