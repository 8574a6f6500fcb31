/** `prepare` with the cache inside: goroutines take the steps of `FetchStatic` while they
    hold their URL's mutex, the clock runs, writes may fail, and no server changes. */
module CachedPrepare {
  import C = CacheSystem
  import P = PrepareSystem

  /** What a run of `prepare` meets. `weather` says how exchanges with a URL go, `direct`
      what the uncached GET of a slot gives, `parse` what a slot's parser makes of an answer. */
  datatype World = World(
    config: P.Config,
    ttl: int,
    refresh: bool,
    notLater: (string, string) -> bool,
    weather: string -> C.Weather,
    direct: nat -> C.Answer,
    parse: (nat, C.Answer) -> P.Outcome
  )

  function SettingOf(u: World, url: string): C.Setting {
    C.Setting(url, u.ttl, u.notLater)
  }

  /** The goroutines, and the cache of every URL. */
  datatype State = State(tasks: P.State, caches: map<string, C.State>)

  /** `Work(k, e)`: goroutine `k` takes step `e` of its call, which it began on entering. */
  datatype Event = Main | Move(k: nat) | Work(k: nat, e: C.Event) | Tick(d: nat)

  function Init(u: World, caches: map<string, C.State>): State {
    State(P.Init(u.config), caches)
  }

  /** Steps of a call behind its load. */
  predicate IsWork(e: C.Event, w: C.Weather) {
    match e
    case Publish(_) => false
    case Tick(_) => false
    case Crash => false
    case Begin(_) => false
    case Exchange(x) => x == w
    case _ => true
  }

  /** The call of the mutex's holder has returned. */
  predicate HasReturned(s: C.State) {
    s.pc.Unlocked? && s.outcomes != []
  }

  function LastAnswer(s: C.State): C.Answer
    requires s.outcomes != []
  {
    C.Returned(s.outcomes[|s.outcomes| - 1])
  }

  /** The cache of slot `k`'s URL. */
  predicate HasCache(u: World, s: State, k: nat)
    requires k < P.SlotCount(u.config)
  {
    P.UrlOf(u.config, k) in s.caches && s.caches[P.UrlOf(u.config, k)].history != []
  }

  /** Goroutine `k` takes the mutex of its URL and loads, or waits for the mutex. */
  function Enter(u: World, s: State, k: nat): (t: State)
    requires k < |s.tasks.phases| == P.SlotCount(u.config)
    ensures |t.tasks.phases| == P.SlotCount(u.config)
  {
    var url := P.UrlOf(u.config, k);
    if url in s.tasks.urlLocks || !HasCache(u, s, k) then s
    else State(P.NextTask(u.config, s.tasks, k, P.Error("")),
               s.caches[url := C.Next(SettingOf(u, url), s.caches[url], C.Begin(u.refresh))])
  }

  /** Goroutine `k` gives the mutex back once its call has returned. */
  function Leave(u: World, s: State, k: nat): (t: State)
    requires k < |s.tasks.phases| == P.SlotCount(u.config)
    ensures |t.tasks.phases| == P.SlotCount(u.config)
  {
    var url := P.UrlOf(u.config, k);
    if !(HasCache(u, s, k) && HasReturned(s.caches[url])) then s
    else s.(tasks := P.NextTask(u.config, s.tasks, k, u.parse(k, LastAnswer(s.caches[url]))))
  }

  function NextMove(u: World, s: State, k: nat): (t: State)
    requires k < |s.tasks.phases| == P.SlotCount(u.config)
    ensures |t.tasks.phases| == P.SlotCount(u.config)
  {
    if s.tasks.phases[k].Holding? && P.Cached(u.config, k) then Enter(u, s, k)
    else if s.tasks.phases[k].InCache? then Leave(u, s, k)
    else s.(tasks := P.NextTask(u.config, s.tasks, k, u.parse(k, u.direct(k))))
  }

  function NextWork(u: World, s: State, k: nat, e: C.Event): (t: State)
    requires k < |s.tasks.phases| == P.SlotCount(u.config)
    ensures t.tasks == s.tasks
  {
    var url := P.UrlOf(u.config, k);
    if s.tasks.phases[k].InCache? && HasCache(u, s, k) && IsWork(e, u.weather(url))
    then s.(caches := s.caches[url := C.Next(SettingOf(u, url), s.caches[url], e)])
    else s
  }

  /** The clock is one for all. */
  function NextTick(u: World, s: State, d: nat): (t: State)
    ensures t.tasks == s.tasks
  {
    s.(caches := map url <- s.caches :: s.caches[url].(clock := s.caches[url].clock + d))
  }

  function Next(u: World, s: State, e: Event): (t: State)
    requires |s.tasks.phases| == P.SlotCount(u.config)
    ensures |t.tasks.phases| == P.SlotCount(u.config)
  {
    match e
    case Main => s.(tasks := P.NextMain(u.config, s.tasks))
    case Tick(d) => NextTick(u, s, d)
    case Move(k) => if k < |s.tasks.phases| then NextMove(u, s, k) else s
    case Work(k, w) => if k < |s.tasks.phases| then NextWork(u, s, k, w) else s
  }

  function Exec(u: World, s: State, es: seq<Event>): (t: State)
    requires |s.tasks.phases| == P.SlotCount(u.config)
    ensures |t.tasks.phases| == P.SlotCount(u.config)
    decreases |es|
  {
    if es == [] then s else Next(u, Exec(u, s, es[..|es| - 1]), es[|es| - 1])
  }
}
