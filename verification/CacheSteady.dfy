/** One key of the cache while its server stays as it is: what the calls of such a stretch
    return, whatever the clock does and whatever `store` fails to write. */
module CacheSteady {
  import opened Strings
  import opened MetaText
  import opened CacheSystem
  import opened CacheSafety

  /** A step of a call or of the clock. Every exchange goes the same way. */
  predicate Calm(e: Event, refresh: bool, w: Weather) {
    match e
    case Publish(_) => false
    case Crash => false
    case Begin(r) => r == refresh
    case Exchange(x) => x == w
    case _ => true
  }

  /** What a call that asks the server gets, judged by the state at the start. */
  function Settled(c: Setting, s0: State, refresh: bool, w: Weather): Answer
    requires s0.history != []
  {
    var v := Current(s0);
    if ServerReply(c, v, ConditionsFor(refresh, Load(s0.disk)), w).NotModified? then Body(v.body) else PlainGet(c, v, w)
  }

  /** The entry at the start may be served without a request. */
  predicate StartsFresh(c: Setting, s0: State, refresh: bool) {
    !refresh && Load(s0.disk).Some? && Fresh(Load(s0.disk).value.meta, s0.clock, c.ttl)
  }

  /** The only answers there are. */
  predicate Permitted(c: Setting, s0: State, refresh: bool, w: Weather, a: Answer)
    requires s0.history != []
  {
    a == Settled(c, s0, refresh, w) || (StartsFresh(c, s0, refresh) && a == Body(Load(s0.disk).value.body))
  }

  /** The files are those of the start, or the body file has been replaced by the current body. */
  predicate FilesOk(s0: State, s: State, w: Weather)
    requires s.history != []
  {
    || (s.disk.body == s0.disk.body && s.disk.meta == s0.disk.meta)
    || (w.Up? && s.disk.body == Some(Current(s).body))
  }

  ghost predicate NewOutcomesOk(c: Setting, s0: State, s: State, refresh: bool, w: Weather)
    requires s0.history != []
  {
    forall i :: |s0.outcomes| <= i < |s.outcomes| ==> Permitted(c, s0, refresh, w, Returned(s.outcomes[i]))
  }

  /** `s` comes after `s0` in a calm stretch. */
  ghost predicate Since(c: Setting, s0: State, s: State, refresh: bool, w: Weather) {
    && s0.history != [] && s.history == s0.history
    && s0.clock <= s.clock && |s0.outcomes| <= |s.outcomes|
    && FilesOk(s0, s, w)
    && (s.pc.Loaded? ==> s.pc.refresh == refresh)
    && (s.pc.Storing? ==> w.Up? && StoreReady(s) && StoredBody(s) == Current(s).body)
    && NewOutcomesOk(c, s0, s, refresh, w)
  }

  lemma StartIsSince(c: Setting, s0: State, refresh: bool, w: Weather)
    requires s0.history != [] && s0.pc.Unlocked?
    ensures Since(c, s0, s0, refresh, w)
  {
  }

  /** Under a server that is up, asking gives the current body. */
  lemma UpSettles(c: Setting, s0: State, refresh: bool)
    requires s0.history != []
    ensures Settled(c, s0, refresh, Up) == Body(Current(s0).body)
  {
  }

  lemma ServeFreshPermitted(c: Setting, s0: State, s: State, refresh: bool, w: Weather)
    requires Inv(c, s) && Since(c, s0, s, refresh, w)
    requires s.pc.Loaded? && MayServe(c, s)
    ensures Permitted(c, s0, refresh, w, Body(s.pc.entry.value.body))
  {
    hide Encode, Decode;
    if w.Up? {
      UpSettles(c, s0, refresh);
    }
  }

  /** The exchange gives what it would have given at the start. */
  lemma ExchangeSettles(c: Setting, s0: State, s: State, refresh: bool, w: Weather, r: Outcome)
    requires Inv(c, s) && Since(c, s0, s, refresh, w) && s.pc.Loaded? && Faithful(c, s.history) && WeatherOk(w)
    requires r.Fetched? && r.cond == ConditionsFor(s.pc.refresh, s.pc.entry)
    requires ServerReply(c, Current(s), r.cond, w).NotModified? && s.pc.entry.Some? ==>
               r.result == Body(s.pc.entry.value.body)
    requires !ServerReply(c, Current(s), r.cond, w).NotModified? ==> r.result == PlainGet(c, Current(s), w)
    ensures r.result == Settled(c, s0, refresh, w)
  {
    ExchangeAgrees(c, s, w);
    assert s.pc.entry == Load(s.disk);
    hide Encode, Decode, Inv, Faithful, Matches;
    if w.Up? {
      UpSettles(c, s0, refresh);
    }
  }

  lemma ReturningSince(c: Setting, s0: State, s: State, refresh: bool, w: Weather, r: Outcome)
    requires Since(c, s0, s, refresh, w) && Permitted(c, s0, refresh, w, Returned(r))
    ensures Since(c, s0, Returning(s, r), refresh, w)
  {
    hide Permitted, Returned;
  }

  lemma StoringSince(c: Setting, s0: State, s: State, refresh: bool, w: Weather, r: Outcome)
    requires Since(c, s0, s, refresh, w) && w.Up? && r.Fetched? && r.result == Body(Current(s).body)
    ensures Since(c, s0, s.(pc := Storing(r, Entered), log := s.log + [Receipt(|s.history| - 1, s.clock)]), refresh, w)
  {
    hide Permitted;
  }

  lemma ExchangePermitted(c: Setting, s0: State, s: State, refresh: bool, w: Weather)
    requires Inv(c, s) && Since(c, s0, s, refresh, w) && s.pc.Loaded? && Faithful(c, s.history) && WeatherOk(w)
    ensures Since(c, s0, AfterExchange(c, s, w), refresh, w)
  {
    assert s.history != [];
    hide *;
    var r := ExchangeShape(c, s, w);
    ExchangeSettles(c, s0, s, refresh, w, r);
    if ServerReply(c, Current(s), r.cond, w) == Full(true) {
      StoringSince(c, s0, s, refresh, w, r);
    } else {
      SettledIsPermitted(c, s0, refresh, w, r);
      ReturningSince(c, s0, s, refresh, w, r);
    }
  }

  lemma SettledIsPermitted(c: Setting, s0: State, refresh: bool, w: Weather, r: Outcome)
    requires s0.history != [] && r.Fetched? && r.result == Settled(c, s0, refresh, w)
    ensures Permitted(c, s0, refresh, w, Returned(r))
  {
  }

  lemma StoreStepSince(c: Setting, s0: State, s: State, e: Event, refresh: bool, w: Weather)
    requires Inv(c, s) && Since(c, s0, s, refresh, w) && StoreReady(s)
    ensures Since(c, s0, AfterStoreStep(c, s, e), refresh, w)
  {
    hide Encode, Decode, Faithful, OutcomeOk, Fresh;
    UpSettles(c, s0, refresh);
  }

  /** Calm steps keep to the answers that are permitted. */
  lemma CalmStepSince(c: Setting, s0: State, s: State, e: Event, refresh: bool, w: Weather)
    requires Inv(c, s) && Since(c, s0, s, refresh, w) && Calm(e, refresh, w) && Faithful(c, s.history)
    ensures Since(c, s0, Next(c, s, e), refresh, w)
  {
    hide Encode, Decode, Faithful, Inv, AfterExchange, AfterStoreStep, Permitted, Settled, StartsFresh;
    match e
    case ServeFresh =>
      if Next(c, s, e) != s {
        ServeFreshPermitted(c, s0, s, refresh, w);
      }
    case Exchange(_) =>
      if s.pc.Loaded? && !MayServe(c, s) && WeatherOk(w) {
        ExchangePermitted(c, s0, s, refresh, w);
      }
    case Tick(_) =>
    case Begin(_) =>
    case _ =>
      if StoreReady(s) {
        StoreStepSince(c, s0, s, e, refresh, w);
      }
  }
}
