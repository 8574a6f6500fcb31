/** `prepare` as a task system: one goroutine per feed with a URL, a counting semaphore, a
    wait group, the cache's mutex per URL and the error mutex per source. Any goroutine may
    take its next step at any time; a step that would block leaves the state unchanged. */
module PrepareSystem {

  datatype Feed = StaticGtfs | VehiclePositions | TripUpdates | ServiceAlerts

  /** What a fetch and parse give: the content of a feed, or an error's text. */
  type Parsed = string
  type Failure = string

  /** The four URLs of one data source; blank means not configured. */
  datatype Source = Source(staticGtfs: string, vehiclePositions: string, tripUpdates: string, serviceAlerts: string)

  datatype Config = Config(sources: seq<Source>, maxConcurrency: int, noCache: bool)

  /** The capacity of the semaphore channel: as configured, or 4. */
  function Capacity(c: Config): (n: nat)
    ensures n >= 1
    ensures c.maxConcurrency > 0 ==> n == c.maxConcurrency
    ensures c.maxConcurrency <= 0 ==> n == 4
  {
    if c.maxConcurrency <= 0 then 4 else c.maxConcurrency
  }

  /* ----- Slots: feed `f` of source `i` is slot 4 * i + f, the order of spawning ----- */

  function SlotCount(c: Config): nat { 4 * |c.sources| }

  function SourceOf(k: nat): nat { k / 4 }

  function FeedOf(k: nat): Feed {
    match k % 4
    case 0 => StaticGtfs
    case 1 => VehiclePositions
    case 2 => TripUpdates
    case _ => ServiceAlerts
  }

  function SlotOf(i: nat, f: Feed): (k: nat)
    ensures SourceOf(k) == i && FeedOf(k) == f
  {
    4 * i + match f case StaticGtfs => 0 case VehiclePositions => 1 case TripUpdates => 2 case ServiceAlerts => 3
  }

  function UrlOf(c: Config, k: nat): string
    requires k < SlotCount(c)
  {
    var s := c.sources[SourceOf(k)];
    match FeedOf(k)
    case StaticGtfs => s.staticGtfs
    case VehiclePositions => s.vehiclePositions
    case TripUpdates => s.tripUpdates
    case ServiceAlerts => s.serviceAlerts
  }

  /** The fetch of this slot goes through the cache and its lock. */
  predicate Cached(c: Config, k: nat)
    requires k < SlotCount(c)
  {
    FeedOf(k) == StaticGtfs && !c.noCache
  }

  /* ----- State ----- */

  /** A feed fetched and parsed, or the error of either. */
  datatype Outcome = Value(value: Parsed) | Error(error: Failure)

  /** A goroutine: not spawned (for good when its URL is blank), waiting for a semaphore
      slot, holding one, inside the cache's critical section, back with an outcome, inside
      the error mutex, having recorded the outcome, past the semaphore, finished. */
  datatype Phase =
    | Unspawned | Waiting | Holding | InCache
    | Back(o: Outcome) | Reporting(o: Outcome) | Recorded(o: Outcome)
    | Released(o: Outcome) | Finished(o: Outcome)

  /** `spawned` slots have been visited by the loop; `returned` is the end of `wg.Wait`. */
  datatype State = State(
    spawned: nat,
    returned: bool,
    phases: seq<Phase>,
    sem: int,
    wg: int,
    urlLocks: map<string, nat>,
    errLocks: map<nat, nat>,
    values: map<nat, Parsed>,
    errors: map<nat, Failure>
  )

  /** The main goroutine moves, or goroutine `k` moves; `o` is what its fetch and parse
      give when this step is the one that ends them. */
  datatype Event = Main | Move(k: nat, o: Outcome)

  function Init(c: Config): State {
    State(0, false, seq(SlotCount(c), _ => Unspawned), 0, 0, map[], map[], map[], map[])
  }

  function NextMain(c: Config, s: State): State
    requires |s.phases| == SlotCount(c)
  {
    if s.spawned < SlotCount(c) then
      if UrlOf(c, s.spawned) == "" then s.(spawned := s.spawned + 1)
      else s.(spawned := s.spawned + 1, wg := s.wg + 1, phases := s.phases[s.spawned := Waiting])
    else if s.wg == 0 then s.(returned := true)
    else s
  }

  function Moved(s: State, k: nat, p: Phase): State
    requires k < |s.phases|
  {
    s.(phases := s.phases[k := p])
  }

  /* The steps of a goroutine, in program order. */

  function Acquire(s: State, k: nat): State
    requires k < |s.phases|
  {
    s.(phases := s.phases[k := Holding], sem := s.sem + 1)
  }

  function EnterCache(c: Config, s: State, k: nat): State
    requires k < |s.phases| == SlotCount(c)
  {
    s.(phases := s.phases[k := InCache], urlLocks := s.urlLocks[UrlOf(c, k) := k])
  }

  function LeaveCache(c: Config, s: State, k: nat, o: Outcome): State
    requires k < |s.phases| == SlotCount(c)
  {
    s.(phases := s.phases[k := Back(o)], urlLocks := s.urlLocks - {UrlOf(c, k)})
  }

  function WriteValue(s: State, k: nat, v: Parsed): State
    requires k < |s.phases|
  {
    s.(phases := s.phases[k := Recorded(Value(v))], values := s.values[k := v])
  }

  function EnterReport(s: State, k: nat, e: Failure): State
    requires k < |s.phases|
  {
    s.(phases := s.phases[k := Reporting(Error(e))], errLocks := s.errLocks[SourceOf(k) := k])
  }

  function WriteError(s: State, k: nat, e: Failure): State
    requires k < |s.phases|
  {
    s.(phases := s.phases[k := Recorded(Error(e))], errors := s.errors[k := e], errLocks := s.errLocks - {SourceOf(k)})
  }

  function Release(s: State, k: nat, o: Outcome): State
    requires k < |s.phases|
  {
    s.(phases := s.phases[k := Released(o)], sem := s.sem - 1)
  }

  function Done(s: State, k: nat, o: Outcome): State
    requires k < |s.phases|
  {
    s.(phases := s.phases[k := Finished(o)], wg := s.wg - 1)
  }

  /** Goroutine `k` takes its next step; the others and the main goroutine stay put. */
  function NextTask(c: Config, s: State, k: nat, o: Outcome): (t: State)
    requires k < |s.phases| == SlotCount(c)
    ensures |t.phases| == |s.phases| && t.phases == s.phases[k := t.phases[k]]
    ensures t.spawned == s.spawned && t.returned == s.returned
  {
    match s.phases[k]
    case Unspawned => s
    case Waiting => if s.sem < Capacity(c) then Acquire(s, k) else s
    case Holding =>
      if !Cached(c, k) then Moved(s, k, Back(o))
      else if UrlOf(c, k) in s.urlLocks then s
      else EnterCache(c, s, k)
    case InCache => LeaveCache(c, s, k, o)
    case Back(Value(v)) => WriteValue(s, k, v)
    case Back(Error(e)) => if SourceOf(k) in s.errLocks then s else EnterReport(s, k, e)
    case Reporting(Value(_)) => s
    case Reporting(Error(e)) => WriteError(s, k, e)
    case Recorded(r) => Release(s, k, r)
    case Released(r) => Done(s, k, r)
    case Finished(_) => s
  }

  function Next(c: Config, s: State, e: Event): State
    requires |s.phases| == SlotCount(c)
    ensures |Next(c, s, e).phases| == SlotCount(c)
  {
    match e
    case Main => NextMain(c, s)
    case Move(k, o) => if k < |s.phases| then NextTask(c, s, k, o) else s
  }

  function Exec(c: Config, s: State, es: seq<Event>): State
    requires |s.phases| == SlotCount(c)
    ensures |Exec(c, s, es).phases| == SlotCount(c)
    decreases |es|
  {
    if es == [] then s else Next(c, Exec(c, s, es[..|es| - 1]), es[|es| - 1])
  }

  /* ----- Counting goroutines ----- */

  /** What is counted: goroutines inside the semaphore, or goroutines of the wait group. */
  datatype Tally = Slots | Group

  predicate Counted(w: Tally, p: Phase) {
    if w.Slots? then InSection(p) else Live(p)
  }

  /** Between acquiring and releasing the semaphore. */
  predicate InSection(p: Phase) {
    p.Holding? || p.InCache? || p.Back? || p.Reporting? || p.Recorded?
  }

  /** Spawned and not yet done. */
  predicate Live(p: Phase) {
    !p.Unspawned? && !p.Finished?
  }

  function Count(xs: seq<Phase>, w: Tally): nat {
    if xs == [] then 0 else (if Counted(w, xs[0]) then 1 else 0) + Count(xs[1..], w)
  }

  lemma {:induction false} CountUpdate(xs: seq<Phase>, k: nat, x: Phase, w: Tally)
    requires k < |xs|
    ensures Count(xs[k := x], w) ==
            Count(xs, w) - (if Counted(w, xs[k]) then 1 else 0) + (if Counted(w, x) then 1 else 0)
    decreases |xs|
  {
    if k == 0 {
      assert xs[0 := x][1..] == xs[1..];
    } else {
      assert xs[k := x][1..] == xs[1..][k - 1 := x];
      CountUpdate(xs[1..], k - 1, x, w);
    }
  }

  lemma {:induction false} CountZero(xs: seq<Phase>, w: Tally)
    ensures Count(xs, w) == 0 <==> forall k :: 0 <= k < |xs| ==> !Counted(w, xs[k])
    decreases |xs|
  {
    if xs != [] {
      CountZero(xs[1..], w);
      if Count(xs, w) == 0 {
        forall k | 0 <= k < |xs| ensures !Counted(w, xs[k]) {
          if k > 0 {
            assert xs[k] == xs[1..][k - 1];
          }
        }
      } else if forall k :: 0 <= k < |xs| ==> !Counted(w, xs[k]) {
        forall k | 0 <= k < |xs| - 1 ensures !Counted(w, xs[1..][k]) {
          assert xs[1..][k] == xs[k + 1];
        }
      }
    }
  }
}
