/** Safety, progress, termination and schedule independence of `prepare`, for any number of
    sources and any interleaving. */
module PrepareTheorems {
  import opened PrepareSystem

  /** The outcome is written down. */
  predicate Written(p: Phase) {
    p.Recorded? || p.Released? || p.Finished?
  }

  /** The semaphore and the wait group count goroutines. */
  ghost predicate CountsOk(c: Config, s: State) {
    && s.sem == Count(s.phases, Slots) <= Capacity(c)
    && s.wg == Count(s.phases, Group)
  }

  /** Every cache mutex is held by exactly the goroutine inside its section. */
  ghost predicate UrlLocksOk(c: Config, s: State)
    requires |s.phases| == SlotCount(c)
  {
    && (forall u <- s.urlLocks :: s.urlLocks[u] < |s.phases| && s.phases[s.urlLocks[u]].InCache? && UrlOf(c, s.urlLocks[u]) == u)
    && (forall k :: 0 <= k < |s.phases| && s.phases[k].InCache? ==>
          Cached(c, k) && UrlOf(c, k) in s.urlLocks && s.urlLocks[UrlOf(c, k)] == k)
  }

  /** The same for the error mutexes; only errors are reported. */
  ghost predicate ErrLocksOk(s: State) {
    && (forall i <- s.errLocks :: s.errLocks[i] < |s.phases| && s.phases[s.errLocks[i]].Reporting? && SourceOf(s.errLocks[i]) == i)
    && (forall k :: 0 <= k < |s.phases| && s.phases[k].Reporting? ==>
          s.phases[k].o.Error? && SourceOf(k) in s.errLocks && s.errLocks[SourceOf(k)] == k)
  }

  /** A value or an error exists exactly for the goroutines that have written theirs. */
  ghost predicate ResultsOk(s: State) {
    && (forall k <- s.values :: k < |s.phases| && Written(s.phases[k]) && s.phases[k].o == Value(s.values[k]))
    && (forall k <- s.errors :: k < |s.phases| && Written(s.phases[k]) && s.phases[k].o == Error(s.errors[k]))
    && (forall k :: 0 <= k < |s.phases| && Written(s.phases[k]) ==>
          if s.phases[k].o.Value? then k in s.values else k in s.errors)
  }

  ghost predicate SpawnOk(c: Config, s: State)
    requires |s.phases| == SlotCount(c)
  {
    && s.spawned <= SlotCount(c)
    && (forall k :: 0 <= k < SlotCount(c) ==> (s.phases[k].Unspawned? <==> k >= s.spawned || UrlOf(c, k) == ""))
    && (s.returned ==> s.spawned == SlotCount(c) && s.wg == 0)
  }

  ghost predicate Inv(c: Config, s: State) {
    |s.phases| == SlotCount(c) && CountsOk(c, s) && UrlLocksOk(c, s) && ErrLocksOk(s) && ResultsOk(s) && SpawnOk(c, s)
  }

  lemma InitInv(c: Config)
    ensures Inv(c, Init(c))
  {
    var s := Init(c);
    CountZero(s.phases, Slots);
    CountZero(s.phases, Group);
  }

  lemma MovedCounts(s: State, k: nat, p: Phase)
    requires k < |s.phases|
    ensures var t := s.phases[k := p];
            Count(t, Slots) == Count(s.phases, Slots)
              - (if InSection(s.phases[k]) then 1 else 0) + (if InSection(p) then 1 else 0)
            && Count(t, Group) == Count(s.phases, Group)
              - (if Live(s.phases[k]) then 1 else 0) + (if Live(p) then 1 else 0)
  {
    CountUpdate(s.phases, k, p, Slots);
    CountUpdate(s.phases, k, p, Group);
  }

  lemma SpawnKeeps(c: Config, s: State)
    requires Inv(c, s) && s.spawned < SlotCount(c) && UrlOf(c, s.spawned) != ""
    ensures Inv(c, s.(spawned := s.spawned + 1, wg := s.wg + 1, phases := s.phases[s.spawned := Waiting]))
  {
    hide SlotOf, FeedOf, SourceOf, UrlOf, Cached, Capacity, Count;
    MovedCounts(s, s.spawned, Waiting);
    assert s.phases[s.spawned].Unspawned?;
  }

  lemma SkipKeeps(c: Config, s: State)
    requires Inv(c, s) && s.spawned < SlotCount(c) && UrlOf(c, s.spawned) == ""
    ensures Inv(c, s.(spawned := s.spawned + 1))
  {
    hide SlotOf, FeedOf, SourceOf, UrlOf, Cached, Capacity, Count;
  }

  lemma ReturnKeeps(c: Config, s: State)
    requires Inv(c, s) && s.spawned >= SlotCount(c) && s.wg == 0
    ensures Inv(c, s.(returned := true))
  {
    hide SlotOf, FeedOf, SourceOf, UrlOf, Cached, Capacity, Count;
  }

  lemma NotReturned(c: Config, s: State, k: nat)
    requires Inv(c, s) && k < |s.phases| && Live(s.phases[k])
    ensures !s.returned && s.wg > 0
  {
    CountZero(s.phases, Group);
    assert Counted(Group, s.phases[k]);
  }

  /** `t` is `s` with goroutine `k` in phase `p`, up to locks and results. */
  ghost predicate OnlyMoves(c: Config, s: State, t: State, k: nat, p: Phase) {
    && k < |s.phases| && t.phases == s.phases[k := p]
    && t.spawned == s.spawned && t.returned == s.returned
    && Live(s.phases[k]) && !p.Unspawned?
    && t.sem == s.sem - (if InSection(s.phases[k]) then 1 else 0) + (if InSection(p) then 1 else 0) <= Capacity(c)
    && t.wg == s.wg - 1 + (if Live(p) then 1 else 0)
  }

  lemma MoveKeepsCounts(c: Config, s: State, t: State, k: nat, p: Phase)
    requires Inv(c, s) && OnlyMoves(c, s, t, k, p)
    ensures CountsOk(c, t)
  {
    hide Count, Capacity, UrlLocksOk, ErrLocksOk, ResultsOk, SpawnOk;
    MovedCounts(s, k, p);
  }

  lemma MoveKeepsSpawn(c: Config, s: State, t: State, k: nat, p: Phase)
    requires Inv(c, s) && OnlyMoves(c, s, t, k, p)
    ensures SpawnOk(c, t)
  {
    NotReturned(c, s, k);
    hide Count, Capacity, UrlLocksOk, ErrLocksOk, ResultsOk, CountsOk, UrlOf;
  }

  lemma MoveKeepsUrlLocks(c: Config, s: State, t: State, k: nat, p: Phase)
    requires Inv(c, s) && OnlyMoves(c, s, t, k, p)
    requires t.urlLocks == s.urlLocks && !s.phases[k].InCache? && !p.InCache?
    ensures UrlLocksOk(c, t)
  {
    hide Count, Capacity, ErrLocksOk, ResultsOk, CountsOk, SpawnOk, UrlOf, Cached;
  }

  lemma MoveKeepsErrLocks(c: Config, s: State, t: State, k: nat, p: Phase)
    requires Inv(c, s) && OnlyMoves(c, s, t, k, p)
    requires t.errLocks == s.errLocks && !s.phases[k].Reporting? && !p.Reporting?
    ensures ErrLocksOk(t)
  {
    hide Count, Capacity, UrlLocksOk, ResultsOk, CountsOk, SpawnOk, SourceOf;
  }

  lemma MoveKeepsResults(c: Config, s: State, t: State, k: nat, p: Phase)
    requires Inv(c, s) && OnlyMoves(c, s, t, k, p)
    requires t.values == s.values && t.errors == s.errors
    requires (Written(s.phases[k]) <==> Written(p)) && (Written(p) ==> p.o == s.phases[k].o)
    ensures ResultsOk(t)
  {
    hide Count, Capacity, UrlLocksOk, ErrLocksOk, CountsOk, SpawnOk;
  }

  /** A step that touches neither a lock nor a result. */
  lemma PlainMoveKeeps(c: Config, s: State, t: State, k: nat, p: Phase)
    requires Inv(c, s) && OnlyMoves(c, s, t, k, p)
    requires t.urlLocks == s.urlLocks && t.errLocks == s.errLocks && t.values == s.values && t.errors == s.errors
    requires var q := s.phases[k]; !q.InCache? && !p.InCache? && !q.Reporting? && !p.Reporting?
    requires (Written(s.phases[k]) <==> Written(p)) && (Written(p) ==> p.o == s.phases[k].o)
    ensures Inv(c, t)
  {
    MoveKeepsCounts(c, s, t, k, p);
    MoveKeepsSpawn(c, s, t, k, p);
    MoveKeepsUrlLocks(c, s, t, k, p);
    MoveKeepsErrLocks(c, s, t, k, p);
    MoveKeepsResults(c, s, t, k, p);
    hide Count, Capacity, UrlLocksOk, ErrLocksOk, ResultsOk, CountsOk, SpawnOk;
  }

  lemma EnterCacheKeepsLocks(c: Config, s: State, k: nat)
    requires k < |s.phases| == SlotCount(c) && UrlLocksOk(c, s)
    requires s.phases[k].Holding? && Cached(c, k) && UrlOf(c, k) !in s.urlLocks
    ensures UrlLocksOk(c, EnterCache(c, s, k))
  {
    hide UrlOf, Cached;
  }

  lemma EnterCacheKeeps(c: Config, s: State, k: nat)
    requires Inv(c, s) && k < |s.phases| && s.phases[k].Holding? && Cached(c, k) && UrlOf(c, k) !in s.urlLocks
    ensures Inv(c, EnterCache(c, s, k))
  {
    var t := EnterCache(c, s, k);
    MoveKeepsCounts(c, s, t, k, InCache);
    MoveKeepsSpawn(c, s, t, k, InCache);
    MoveKeepsErrLocks(c, s, t, k, InCache);
    MoveKeepsResults(c, s, t, k, InCache);
    EnterCacheKeepsLocks(c, s, k);
    hide Count, Capacity, UrlLocksOk, ErrLocksOk, ResultsOk, CountsOk, SpawnOk, UrlOf, Cached;
  }

  lemma LeaveCacheKeepsLocks(c: Config, s: State, k: nat, o: Outcome)
    requires k < |s.phases| == SlotCount(c) && UrlLocksOk(c, s) && s.phases[k].InCache?
    ensures UrlLocksOk(c, LeaveCache(c, s, k, o))
  {
    hide UrlOf, Cached;
  }

  lemma LeaveCacheKeeps(c: Config, s: State, k: nat, o: Outcome)
    requires Inv(c, s) && k < |s.phases| && s.phases[k].InCache?
    ensures Inv(c, LeaveCache(c, s, k, o))
  {
    var t := LeaveCache(c, s, k, o);
    MoveKeepsCounts(c, s, t, k, Back(o));
    MoveKeepsSpawn(c, s, t, k, Back(o));
    MoveKeepsErrLocks(c, s, t, k, Back(o));
    MoveKeepsResults(c, s, t, k, Back(o));
    LeaveCacheKeepsLocks(c, s, k, o);
    hide Count, Capacity, UrlLocksOk, ErrLocksOk, ResultsOk, CountsOk, SpawnOk, UrlOf, Cached;
  }

  lemma WriteValueKeepsResults(s: State, k: nat, v: Parsed)
    requires ResultsOk(s) && k < |s.phases| && s.phases[k].Back?
    ensures ResultsOk(WriteValue(s, k, v))
  {
  }

  lemma WriteValueKeeps(c: Config, s: State, k: nat, v: Parsed)
    requires Inv(c, s) && k < |s.phases| && s.phases[k].Back?
    ensures Inv(c, WriteValue(s, k, v))
  {
    var t := WriteValue(s, k, v);
    MoveKeepsCounts(c, s, t, k, Recorded(Value(v)));
    MoveKeepsSpawn(c, s, t, k, Recorded(Value(v)));
    MoveKeepsUrlLocks(c, s, t, k, Recorded(Value(v)));
    MoveKeepsErrLocks(c, s, t, k, Recorded(Value(v)));
    WriteValueKeepsResults(s, k, v);
    hide Count, Capacity, UrlLocksOk, ErrLocksOk, ResultsOk, CountsOk, SpawnOk;
  }

  lemma EnterReportKeepsLocks(s: State, k: nat, e: Failure)
    requires k < |s.phases| && ErrLocksOk(s) && s.phases[k].Back? && SourceOf(k) !in s.errLocks
    ensures ErrLocksOk(EnterReport(s, k, e))
  {
    hide SourceOf;
  }

  lemma EnterReportKeeps(c: Config, s: State, k: nat, e: Failure)
    requires Inv(c, s) && k < |s.phases| && s.phases[k].Back? && SourceOf(k) !in s.errLocks
    ensures Inv(c, EnterReport(s, k, e))
  {
    var t := EnterReport(s, k, e);
    MoveKeepsCounts(c, s, t, k, Reporting(Error(e)));
    MoveKeepsSpawn(c, s, t, k, Reporting(Error(e)));
    MoveKeepsUrlLocks(c, s, t, k, Reporting(Error(e)));
    MoveKeepsResults(c, s, t, k, Reporting(Error(e)));
    EnterReportKeepsLocks(s, k, e);
    hide Count, Capacity, UrlLocksOk, ErrLocksOk, ResultsOk, CountsOk, SpawnOk, SourceOf;
  }

  lemma WriteErrorKeepsResults(c: Config, s: State, k: nat, e: Failure)
    requires Inv(c, s) && k < |s.phases| && s.phases[k].Reporting?
    ensures ResultsOk(WriteError(s, k, e))
  {
    hide Count, Capacity, UrlLocksOk, ErrLocksOk, CountsOk, SpawnOk, SourceOf;
  }

  lemma WriteErrorKeepsLocks(s: State, k: nat, e: Failure)
    requires ErrLocksOk(s) && k < |s.phases| && s.phases[k].Reporting?
    ensures ErrLocksOk(WriteError(s, k, e))
  {
    hide SourceOf;
  }

  lemma WriteErrorKeeps(c: Config, s: State, k: nat, e: Failure)
    requires Inv(c, s) && k < |s.phases| && s.phases[k].Reporting?
    ensures Inv(c, WriteError(s, k, e))
  {
    var t := WriteError(s, k, e);
    MoveKeepsCounts(c, s, t, k, Recorded(Error(e)));
    MoveKeepsSpawn(c, s, t, k, Recorded(Error(e)));
    MoveKeepsUrlLocks(c, s, t, k, Recorded(Error(e)));
    WriteErrorKeepsResults(c, s, k, e);
    WriteErrorKeepsLocks(s, k, e);
    hide Count, Capacity, UrlLocksOk, ErrLocksOk, ResultsOk, CountsOk, SpawnOk, SourceOf;
  }

  /** Acquiring, and fetching without the cache. */
  lemma AcquireKeeps(c: Config, s: State, k: nat)
    requires Inv(c, s) && k < |s.phases| && s.phases[k].Waiting? && s.sem < Capacity(c)
    ensures Inv(c, Acquire(s, k))
  {
    assert |s.phases| == SlotCount(c) && s.sem <= Capacity(c);
    hide Inv, Capacity, Count;
    PlainMoveKeeps(c, s, Acquire(s, k), k, Holding);
  }

  lemma FetchKeeps(c: Config, s: State, k: nat, o: Outcome)
    requires Inv(c, s) && k < |s.phases| && s.phases[k].Holding?
    ensures Inv(c, Moved(s, k, Back(o)))
  {
    assert |s.phases| == SlotCount(c) && s.sem <= Capacity(c);
    hide Inv, Capacity, Count;
    PlainMoveKeeps(c, s, Moved(s, k, Back(o)), k, Back(o));
  }

  /** Releasing the semaphore, and finishing. */
  lemma ReleaseKeeps(c: Config, s: State, k: nat, o: Outcome)
    requires Inv(c, s) && k < |s.phases| && s.phases[k] == Recorded(o)
    ensures Inv(c, Release(s, k, o))
  {
    assert |s.phases| == SlotCount(c) && s.sem <= Capacity(c);
    hide Inv, Capacity, Count;
    PlainMoveKeeps(c, s, Release(s, k, o), k, Released(o));
  }

  lemma DoneKeeps(c: Config, s: State, k: nat, o: Outcome)
    requires Inv(c, s) && k < |s.phases| && s.phases[k] == Released(o)
    ensures Inv(c, Done(s, k, o))
  {
    assert |s.phases| == SlotCount(c) && s.sem <= Capacity(c);
    hide Inv, Capacity, Count;
    PlainMoveKeeps(c, s, Done(s, k, o), k, Finished(o));
  }

  lemma TaskKeeps(c: Config, s: State, k: nat, o: Outcome)
    requires Inv(c, s) && k < |s.phases|
    ensures Inv(c, NextTask(c, s, k, o))
  {
    assert |s.phases| == SlotCount(c);
    hide Inv, SourceOf, FeedOf, UrlOf, Cached, Capacity, Acquire, Moved, Release, Done, EnterCache, LeaveCache,
      WriteValue, EnterReport, WriteError;
    match s.phases[k]
    case Waiting =>
      if s.sem < Capacity(c) {
        AcquireKeeps(c, s, k);
      }
    case Holding =>
      FetchKeeps(c, s, k, o);
      if Cached(c, k) && UrlOf(c, k) !in s.urlLocks {
        EnterCacheKeeps(c, s, k);
      }
    case InCache => LeaveCacheKeeps(c, s, k, o);
    case Back(Value(v)) => WriteValueKeeps(c, s, k, v);
    case Back(Error(e)) =>
      if SourceOf(k) !in s.errLocks {
        EnterReportKeeps(c, s, k, e);
      }
    case Reporting(Error(e)) => WriteErrorKeeps(c, s, k, e);
    case Recorded(r) => ReleaseKeeps(c, s, k, r);
    case Released(r) => DoneKeeps(c, s, k, r);
    case _ =>
  }

  lemma NextKeeps(c: Config, s: State, e: Event)
    requires Inv(c, s)
    ensures Inv(c, Next(c, s, e))
  {
    assert |s.phases| == SlotCount(c);
    hide Inv, NextTask, UrlOf;
    match e
    case Main =>
      if s.spawned >= SlotCount(c) {
        if s.wg == 0 {
          ReturnKeeps(c, s);
        }
      } else if UrlOf(c, s.spawned) == "" {
        SkipKeeps(c, s);
      } else {
        SpawnKeeps(c, s);
      }
    case Move(k, o) =>
      if k < |s.phases| {
        TaskKeeps(c, s, k, o);
      }
  }

  /** Every run keeps the invariant. */
  lemma {:induction false} RunsKeepInv(c: Config, es: seq<Event>)
    ensures Inv(c, Exec(c, Init(c), es))
    decreases |es|
  {
    if es == [] {
      InitInv(c);
    } else {
      RunsKeepInv(c, es[..|es| - 1]);
      NextKeeps(c, Exec(c, Init(c), es[..|es| - 1]), es[|es| - 1]);
    }
  }

  /* ----- Safety ----- */

  /** At most one goroutine is inside each mutex. */
  ghost predicate MutualExclusion(c: Config, s: State)
    requires |s.phases| == SlotCount(c)
  {
    forall j, k :: 0 <= j < |s.phases| && 0 <= k < |s.phases| ==>
      && (s.phases[j].InCache? && s.phases[k].InCache? && UrlOf(c, j) == UrlOf(c, k) ==> j == k)
      && (s.phases[j].Reporting? && s.phases[k].Reporting? && SourceOf(j) == SourceOf(k) ==> j == k)
  }

  /** In every reachable state at most `Capacity` goroutines hold a semaphore slot, at most
      one is inside the cache's section of a URL, and at most one writes a source's errors. */
  lemma SectionsAreExclusive(c: Config, es: seq<Event>)
    ensures Count(Exec(c, Init(c), es).phases, Slots) <= Capacity(c)
    ensures MutualExclusion(c, Exec(c, Init(c), es))
  {
    hide Count, Capacity, SourceOf, FeedOf, UrlOf;
    RunsKeepInv(c, es);
  }

  /* ----- Progress ----- */

  /** Until `prepare` has returned, somebody can move. */
  lemma SomeoneCanMove(c: Config, s: State) returns (e: Event)
    requires Inv(c, s) && !s.returned
    ensures Next(c, s, e) != s
  {
    hide Count, SourceOf, FeedOf, UrlOf;
    var o := Error("");
    if k :| 0 <= k < |s.phases| && (s.phases[k].InCache? || s.phases[k].Reporting? || s.phases[k].Recorded? || s.phases[k].Released?) {
      e := Move(k, o);
    } else if k :| 0 <= k < |s.phases| && s.phases[k].Back? {
      e := Move(k, o);
    } else if k :| 0 <= k < |s.phases| && s.phases[k].Holding? {
      e := Move(k, o);
    } else {
      CountZero(s.phases, Slots);
      if k :| 0 <= k < |s.phases| && s.phases[k].Waiting? {
        e := Move(k, o);
      } else {
        CountZero(s.phases, Group);
        e := Main;
      }
    }
  }

  /** What is left to do for one goroutine. */
  function Remaining(p: Phase): nat {
    match p
    case Unspawned => 8
    case Waiting => 7
    case Holding => 6
    case InCache => 5
    case Back(_) => 4
    case Reporting(_) => 3
    case Recorded(_) => 2
    case Released(_) => 1
    case Finished(_) => 0
  }

  function TotalRemaining(ps: seq<Phase>): nat {
    if ps == [] then 0 else Remaining(ps[0]) + TotalRemaining(ps[1..])
  }

  function Measure(c: Config, s: State): nat
    requires s.spawned <= SlotCount(c)
  {
    TotalRemaining(s.phases) + (SlotCount(c) - s.spawned) + (if s.returned then 0 else 1)
  }

  lemma {:induction false} RemainingUpdate(ps: seq<Phase>, k: nat, p: Phase)
    requires k < |ps|
    ensures TotalRemaining(ps[k := p]) == TotalRemaining(ps) - Remaining(ps[k]) + Remaining(p)
    decreases |ps|
  {
    if k == 0 {
      assert ps[0 := p][1..] == ps[1..];
    } else {
      assert ps[k := p][1..] == ps[1..][k - 1 := p];
      RemainingUpdate(ps[1..], k - 1, p);
    }
  }

  /** A step of a goroutine brings it forward and keeps the outcome it already has. */
  lemma TaskShape(c: Config, s: State, k: nat, o: Outcome, t: State)
    requires k < |s.phases| == SlotCount(c) && t == NextTask(c, s, k, o) && t != s
    ensures Remaining(t.phases[k]) < Remaining(s.phases[k])
    ensures HasOutcome(t.phases[k]) ==> t.phases[k].o == if HasOutcome(s.phases[k]) then s.phases[k].o else o
  {
    hide UrlOf, Cached, SourceOf, FeedOf, Capacity, Remaining, HasOutcome;
    if t.phases[k] == s.phases[k] {
      TaskChangesPhase(c, s, k, o, t);
    }
    TaskPhase(c, s, k, o, t.phases[k]);
  }

  lemma TaskChangesPhase(c: Config, s: State, k: nat, o: Outcome, t: State)
    requires k < |s.phases| == SlotCount(c) && t == NextTask(c, s, k, o) && t.phases[k] == s.phases[k]
    ensures t == s
  {
    hide UrlOf, Cached, SourceOf, FeedOf, Capacity;
  }

  lemma TaskPhase(c: Config, s: State, k: nat, o: Outcome, p: Phase)
    requires k < |s.phases| == SlotCount(c) && p == NextTask(c, s, k, o).phases[k] && p != s.phases[k]
    ensures Remaining(p) < Remaining(s.phases[k])
    ensures HasOutcome(p) ==> p.o == if HasOutcome(s.phases[k]) then s.phases[k].o else o
  {
    hide UrlOf, Cached, SourceOf, FeedOf, Capacity;
  }

  /** Every step that changes anything uses up some of the measure. */
  lemma StepsUseUpMeasure(c: Config, s: State, e: Event)
    requires Inv(c, s) && Next(c, s, e) != s
    ensures Next(c, s, e).spawned <= SlotCount(c) && Measure(c, Next(c, s, e)) < Measure(c, s)
  {
    assert s.spawned <= SlotCount(c) && |s.phases| == SlotCount(c);
    assert s.spawned < SlotCount(c) ==> s.phases[s.spawned].Unspawned? && !s.returned;
    hide Inv, NextTask, UrlOf, TotalRemaining;
    var t := Next(c, s, e);
    match e
    case Main =>
      if s.spawned < SlotCount(c) {
        RemainingUpdate(s.phases, s.spawned, Waiting);
      }
    case Move(k, o) =>
      TaskShape(c, s, k, o, t);
      RemainingUpdate(s.phases, k, t.phases[k]);
  }

  /** The number of steps of a run that change the state. */
  function Effective(c: Config, s: State, es: seq<Event>): nat
    requires |s.phases| == SlotCount(c)
    decreases |es|
  {
    if es == [] then 0
    else
      var before := Exec(c, s, es[..|es| - 1]);
      Effective(c, s, es[..|es| - 1]) + (if Next(c, before, es[|es| - 1]) == before then 0 else 1)
  }

  /** No schedule makes more than a fixed number of steps. */
  lemma {:induction false} RunsAreShort(c: Config, es: seq<Event>)
    ensures var s := Exec(c, Init(c), es);
            s.spawned <= SlotCount(c) && Effective(c, Init(c), es) + Measure(c, s) <= Measure(c, Init(c))
    decreases |es|
  {
    if es != [] {
      RunsAreShort(c, es[..|es| - 1]);
      RunsKeepInv(c, es[..|es| - 1]);
      var s := Exec(c, Init(c), es[..|es| - 1]);
      hide Inv, Measure;
      if Next(c, s, es[|es| - 1]) != s {
        StepsUseUpMeasure(c, s, es[|es| - 1]);
      }
    }
  }

  /** Nobody can move. */
  ghost predicate Stuck(c: Config, s: State)
    requires |s.phases| == SlotCount(c)
  {
    forall e :: Next(c, s, e) == s
  }

  /** A run that cannot go on is over: everyone has finished, and nothing is held. */
  lemma StuckMeansDone(c: Config, es: seq<Event>)
    requires Stuck(c, Exec(c, Init(c), es))
    ensures var s := Exec(c, Init(c), es);
            s.returned && s.sem == 0 && s.wg == 0 && s.urlLocks == map[] && s.errLocks == map[]
  {
    var s := Exec(c, Init(c), es);
    RunsKeepInv(c, es);
    StuckReturned(c, s);
    ReturnedIsIdle(c, s);
  }

  lemma StuckReturned(c: Config, s: State)
    requires Inv(c, s) && Stuck(c, s)
    ensures s.returned
  {
    if !s.returned {
      var e := SomeoneCanMove(c, s);
    }
  }

  lemma ReturnedIsIdle(c: Config, s: State)
    requires Inv(c, s) && s.returned
    ensures s.sem == 0 && s.wg == 0 && s.urlLocks == map[] && s.errLocks == map[]
    ensures forall k :: 0 <= k < |s.phases| ==> if UrlOf(c, k) == "" then s.phases[k].Unspawned? else s.phases[k].Finished?
  {
    hide Count, SourceOf, FeedOf, UrlOf;
    CountZero(s.phases, Group);
    assert forall k :: 0 <= k < |s.phases| ==> !Counted(Group, s.phases[k]);
    CountZero(s.phases, Slots);
  }

  /** From every reachable state some continuation returns. */
  lemma {:induction false} CanFinish(c: Config, s: State) returns (es: seq<Event>)
    requires Inv(c, s)
    ensures Exec(c, s, es).returned
    decreases Measure(c, s)
  {
    if s.returned {
      es := [];
    } else {
      var e := SomeoneCanMove(c, s);
      StepsUseUpMeasure(c, s, e);
      NextKeeps(c, s, e);
      var rest := CanFinish(c, Next(c, s, e));
      es := [e] + rest;
      ExecFirst(c, s, e, rest);
    }
  }

  lemma {:induction false} ExecFirst(c: Config, s: State, e: Event, rest: seq<Event>)
    requires |s.phases| == SlotCount(c)
    ensures Exec(c, s, [e] + rest) == Exec(c, Next(c, s, e), rest)
    decreases |rest|
  {
    hide Next;
    if rest == [] {
      assert [e] + rest == [e] && [e][..0] == [];
      assert Exec(c, s, []) == s;
    } else {
      assert ([e] + rest)[..|rest|] == [e] + rest[..|rest| - 1];
      ExecFirst(c, s, e, rest[..|rest| - 1]);
    }
  }

  /* ----- Results ----- */

  /** After the return every configured feed has a value or an error, never both, and every
      other feed has neither: each of the four by its own field. */
  lemma ExactlyOneOutcome(c: Config, es: seq<Event>, i: nat, f: Feed)
    requires Exec(c, Init(c), es).returned && i < |c.sources|
    ensures var s := Exec(c, Init(c), es);
            var k := SlotOf(i, f);
            var url := match f
              case StaticGtfs => c.sources[i].staticGtfs
              case VehiclePositions => c.sources[i].vehiclePositions
              case TripUpdates => c.sources[i].tripUpdates
              case ServiceAlerts => c.sources[i].serviceAlerts;
            k < SlotCount(c)
            && (url == "" ==> k !in s.values && k !in s.errors)
            && (url != "" ==> (k in s.values <==> k !in s.errors))
  {
    RunsKeepInv(c, es);
    var s := Exec(c, Init(c), es);
    ReturnedIsIdle(c, s);
    hide Count;
    var k := SlotOf(i, f);
    assert k < |s.phases|;
    assert s.phases[k].Unspawned? || s.phases[k].Finished?;
  }

  /** A goroutine goes through the cache exactly for the static feed, unless the cache is off. */
  lemma OnlyStaticIsCached(c: Config, s: State, i: nat, f: Feed, o: Outcome)
    requires |s.phases| == SlotCount(c) && i < |c.sources| && s.phases[SlotOf(i, f)].Holding?
    ensures var k := SlotOf(i, f);
            var p := NextTask(c, s, k, o).phases[k];
            && (f == StaticGtfs && !c.noCache ==>
                  p == if c.sources[i].staticGtfs in s.urlLocks then Holding else InCache)
            && (f != StaticGtfs || c.noCache ==> p == Back(o))
  {
  }

  /** `answers[k]` is what the fetch of slot `k` gives, whenever it ends. */
  ghost predicate Steady(es: seq<Event>, answers: seq<Outcome>) {
    forall i :: 0 <= i < |es| && es[i].Move? && es[i].k < |answers| ==> es[i].o == answers[es[i].k]
  }

  predicate HasOutcome(p: Phase) {
    p.Back? || p.Reporting? || Written(p)
  }

  /** An outcome is what the goroutine's own fetch gave, in one of its own steps. */
  lemma {:induction false} OutcomesAreOwn(c: Config, es: seq<Event>, k: nat)
    requires k < SlotCount(c)
    ensures var p := Exec(c, Init(c), es).phases[k]; HasOutcome(p) ==> Move(k, p.o) in es
    decreases |es|
  {
    if es != [] {
      var e := es[|es| - 1];
      var s := Exec(c, Init(c), es[..|es| - 1]);
      OutcomesAreOwn(c, es[..|es| - 1], k);
      assert es == es[..|es| - 1] + [e];
      hide Exec;
      StepOutcome(c, s, e, k);
    }
  }

  lemma StepOutcome(c: Config, s: State, e: Event, k: nat)
    requires k < |s.phases| == SlotCount(c)
    ensures var p := Next(c, s, e).phases[k];
            HasOutcome(p) ==> (HasOutcome(s.phases[k]) && p.o == s.phases[k].o) || e == Move(k, p.o)
  {
    hide NextTask, UrlOf;
    var t := Next(c, s, e);
    if e.Move? && e.k == k && t != s {
      TaskShape(c, s, k, e.o, t);
    }
  }

  lemma OutcomesAreAnswers(c: Config, es: seq<Event>, answers: seq<Outcome>)
    requires Steady(es, answers) && |answers| == SlotCount(c)
    ensures var s := Exec(c, Init(c), es);
            forall k :: 0 <= k < |s.phases| && HasOutcome(s.phases[k]) ==> s.phases[k].o == answers[k]
  {
    var s := Exec(c, Init(c), es);
    forall k | 0 <= k < |s.phases| && HasOutcome(s.phases[k]) ensures s.phases[k].o == answers[k] {
      OutcomesAreOwn(c, es, k);
      var i :| 0 <= i < |es| && es[i] == Move(k, s.phases[k].o);
    }
  }

  /** What `prepare` leaves behind, whatever the schedule was. */
  function ExpectedValues(c: Config, answers: seq<Outcome>): map<nat, Parsed>
    requires |answers| == SlotCount(c)
  {
    map k: nat | k < SlotCount(c) && UrlOf(c, k) != "" && answers[k].Value? :: answers[k].value
  }

  function ExpectedErrors(c: Config, answers: seq<Outcome>): map<nat, Failure>
    requires |answers| == SlotCount(c)
  {
    map k: nat | k < SlotCount(c) && UrlOf(c, k) != "" && answers[k].Error? :: answers[k].error
  }

  /** If every slot's fetch gives the same whenever it ends, the prepared context does not
      depend on the schedule. */
  lemma ScheduleIndependent(c: Config, es: seq<Event>, answers: seq<Outcome>)
    requires |answers| == SlotCount(c) && Steady(es, answers)
    requires Exec(c, Init(c), es).returned
    ensures var s := Exec(c, Init(c), es);
            s.values == ExpectedValues(c, answers) && s.errors == ExpectedErrors(c, answers)
  {
    var s := Exec(c, Init(c), es);
    RunsKeepInv(c, es);
    ReturnedIsIdle(c, s);
    OutcomesAreAnswers(c, es, answers);
    FinalResults(c, s, answers);
  }

  lemma FinalResults(c: Config, s: State, answers: seq<Outcome>)
    requires |answers| == |s.phases| == SlotCount(c) && ResultsOk(s)
    requires forall k :: 0 <= k < |s.phases| ==> if UrlOf(c, k) == "" then s.phases[k].Unspawned? else s.phases[k].Finished?
    requires forall k :: 0 <= k < |s.phases| && HasOutcome(s.phases[k]) ==> s.phases[k].o == answers[k]
    ensures s.values == ExpectedValues(c, answers) && s.errors == ExpectedErrors(c, answers)
  {
    hide UrlOf;
    forall k | 0 <= k < |s.phases| && UrlOf(c, k) != "" ensures s.phases[k] == Finished(answers[k]) {
      assert HasOutcome(s.phases[k]);
    }
    assert s.values.Keys == ExpectedValues(c, answers).Keys;
    assert s.errors.Keys == ExpectedErrors(c, answers).Keys;
  }
}
