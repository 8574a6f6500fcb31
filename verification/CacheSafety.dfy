/** What every run of the cache keeps, and what follows for its callers. */
module CacheSafety {
  import opened Strings
  import opened MetaText
  import opened CacheSystem

  /* ----- Invariant ----- */

  /** Receipts come in the order of the server's changes and of the clock. */
  ghost predicate LogOk(s: State) {
    && (forall i :: 0 <= i < |s.log| ==> s.log[i].version < |s.history| && s.log[i].at <= s.clock)
    && (forall i, j :: 0 <= i <= j < |s.log| ==> s.log[i].version <= s.log[j].version && s.log[i].at <= s.log[j].at)
  }

  /** The body file is one receipt's body; the meta file is a prefix of the text of a
      receipt that is not newer than the body's. */
  ghost predicate DiskOk(c: Setting, s: State)
    requires LogOk(s)
  {
    && (s.disk.body.Some? ==> s.bodyFrom < |s.log| && s.disk.body.value == ReceivedBody(s, s.bodyFrom))
    && (s.disk.meta.Some? ==>
          && s.disk.body.Some?
          && s.metaFrom <= s.bodyFrom
          && s.disk.meta.value <= Encode(ReceivedMeta(c, s, s.metaFrom)))
  }

  ghost predicate StoringOk(c: Setting, s: State)
    requires LogOk(s) && s.pc.Storing?
  {
    && StoreReady(s)
    && var last := |s.log| - 1;
    && StoredBody(s) == ReceivedBody(s, last)
    && match s.pc.stage
       case Entered => true
       case Filling(tmp, n) => n <= |StoredBody(s)| && tmp in s.disk.temps && s.disk.temps[tmp] == StoredBody(s)[..n]
       case Filled(tmp) => tmp in s.disk.temps && s.disk.temps[tmp] == StoredBody(s)
       case Renamed => s.disk.body.Some? && s.bodyFrom == last
       case MetaOpen(n) =>
         && s.disk.body.Some? && s.bodyFrom == last && s.metaFrom == last
         && n <= |Encode(ReceivedMeta(c, s, last))|
         && s.disk.meta == Some(Encode(ReceivedMeta(c, s, last))[..n])
  }

  /** The exchange of a finished call got a 304. */
  predicate GotNotModified(c: Setting, h: seq<Version>, r: Outcome)
    requires r.Fetched? && 0 < r.seen <= |h|
  {
    ServerReply(c, h[r.seen - 1], r.cond, r.weather).NotModified?
  }

  /** A call that asked the server returns what the plain GET would have returned, except
      that a 304 spares it a body that would have broken off. */
  predicate Agrees(c: Setting, h: seq<Version>, r: Outcome)
    requires r.Fetched? && 0 < r.seen <= |h|
  {
    r.result == if GotNotModified(c, h, r) then Body(h[r.seen - 1].body)
                else PlainGet(c, h[r.seen - 1], r.weather)
  }

  /** A validator that matches now matched a version whose body, and every body since, is
      the current one. */
  ghost predicate Faithful(c: Setting, h: seq<Version>) {
    forall i, k, j :: 0 <= i <= k <= j < |h| && ClaimsUnchanged(c, h, i, j) ==> h[k].body == h[j].body
  }

  predicate ClaimsUnchanged(c: Setting, h: seq<Version>, i: nat, j: nat)
    requires i < |h| && j < |h|
  {
    Matches(c, h[j], Conditions(h[i].etag, h[i].lastModified))
  }

  ghost predicate FetchedOk(c: Setting, h: seq<Version>, r: Outcome)
    requires r.Fetched?
  {
    && 0 < r.seen <= |h|
    && (Faithful(c, h[..r.seen]) ==> Agrees(c, h, r))
  }

  /** A TTL hit serves the body of receipt `b` under the meta of receipt `m`, whose response
      had no validators and came less than ttl ago. */
  ghost predicate ServedUnder(c: Setting, s: State, body: Bytes, at: nat, m: nat, b: nat)
    requires LogOk(s)
  {
    && m <= b < |s.log| && body == ReceivedBody(s, b)
    && s.history[s.log[m].version].etag == "" && s.history[s.log[m].version].lastModified == ""
    && s.log[m].at <= s.log[b].at <= at < s.log[m].at + c.ttl
  }

  ghost predicate RecentBody(c: Setting, s: State, body: Bytes, at: nat)
    requires LogOk(s)
  {
    exists m: nat, b: nat :: ServedUnder(c, s, body, at, m, b)
  }

  ghost predicate OutcomeOk(c: Setting, s: State, r: Outcome)
    requires LogOk(s)
  {
    match r
    case ServedFresh(body, at) => at <= s.clock && RecentBody(c, s, body, at)
    case Fetched(_, _, _, _) => FetchedOk(c, s.history, r)
  }

  ghost predicate Inv(c: Setting, s: State) {
    && s.history != []
    && LogOk(s)
    && DiskOk(c, s)
    && (s.pc.Loaded? ==> s.pc.entry == Load(s.disk))
    && (s.pc.Storing? ==> StoringOk(c, s) && OutcomeOk(c, s, s.pc.pending))
    && forall i :: 0 <= i < |s.outcomes| ==> OutcomeOk(c, s, s.outcomes[i])
  }

  /* ----- Loads ----- */

  /** A hit pairs the body of one 200 response with the meta of the same or an earlier
      one. */
  lemma LoadIsReceived(c: Setting, s: State)
    requires Inv(c, s) && Load(s.disk).Some?
    ensures s.metaFrom <= s.bodyFrom < |s.log|
    ensures Load(s.disk).value == Entry(ReceivedBody(s, s.bodyFrom), ReceivedMeta(c, s, s.metaFrom))
  {
    var m := ReceivedMeta(c, s, s.metaFrom);
    var text := s.disk.meta.value;
    if text < Encode(m) {
      TornMetaNeverDecodes(m, text);
    } else {
      assert text == Encode(m);
      MetaRoundTrip(m);
    }
  }

  /* ----- Every step keeps the invariant ----- */

  /** `t` continues `s`: the server, the clock and the log only grow. */
  ghost predicate Continues(s: State, t: State) {
    s.history <= t.history && s.log <= t.log && s.clock <= t.clock
  }

  lemma OutcomeStays(c: Setting, s: State, t: State, r: Outcome)
    requires LogOk(s) && LogOk(t) && Continues(s, t) && OutcomeOk(c, s, r)
    ensures OutcomeOk(c, t, r)
  {
    match r
    case ServedFresh(body, at) =>
      var m: nat, b: nat :| ServedUnder(c, s, body, at, m, b);
      assert ServedUnder(c, t, body, at, m, b);
    case Fetched(_, seen, _, _) =>
      assert t.history[..seen] == s.history[..seen];
  }

  lemma OutcomesStay(c: Setting, s: State, t: State)
    requires Inv(c, s) && LogOk(t) && Continues(s, t)
    ensures forall i :: 0 <= i < |s.outcomes| ==> OutcomeOk(c, t, s.outcomes[i])
    ensures s.pc.Storing? ==> OutcomeOk(c, t, s.pc.pending)
  {
    forall i | 0 <= i < |s.outcomes| ensures OutcomeOk(c, t, s.outcomes[i]) {
      OutcomeStays(c, s, t, s.outcomes[i]);
    }
    if s.pc.Storing? {
      OutcomeStays(c, s, t, s.pc.pending);
    }
  }

  lemma GrowthKeeps(c: Setting, s: State, t: State)
    requires Inv(c, s) && Continues(s, t)
    requires t == s.(history := t.history, clock := t.clock)
    ensures Inv(c, t)
  {
    OutcomesStay(c, s, t);
    assert forall i :: 0 <= i < |s.log| ==> ReceivedMeta(c, t, i) == ReceivedMeta(c, s, i);
    assert forall i :: 0 <= i < |s.log| ==> ReceivedBody(t, i) == ReceivedBody(s, i);
  }

  lemma ServeFreshKeeps(c: Setting, s: State)
    requires Inv(c, s)
    ensures Inv(c, Next(c, s, ServeFresh))
  {
    hide Encode, Decode;
    var t := Next(c, s, ServeFresh);
    if t != s {
      LoadIsReceived(c, s);
      OutcomesStay(c, s, t);
      assert ServedUnder(c, t, s.pc.entry.value.body, s.clock, s.metaFrom, s.bodyFrom);
    }
  }

  /** What the exchange of a call under the lock returns. */
  lemma ExchangeAgrees(c: Setting, s: State, w: Weather)
    requires Inv(c, s) && s.pc.Loaded?
    requires Faithful(c, s.history)
    requires WeatherOk(w)
    ensures var cond := ConditionsFor(s.pc.refresh, s.pc.entry);
            ServerReply(c, Current(s), cond, w).NotModified? ==>
              s.pc.entry.Some? && s.pc.entry.value.body == Current(s).body
  {
    var cond := ConditionsFor(s.pc.refresh, s.pc.entry);
    if ServerReply(c, Current(s), cond, w).NotModified? {
      LoadIsReceived(c, s);
      var i, k, j := s.log[s.metaFrom].version, s.log[s.bodyFrom].version, |s.history| - 1;
      assert ClaimsUnchanged(c, s.history, i, j);
    }
  }

  /** The exchange ends the call or leads into `store`; but for a 304 its result is the plain
      answer. */
  lemma ExchangeShape(c: Setting, s: State, w: Weather) returns (r: Outcome)
    requires s.pc.Loaded? && s.history != []
    ensures var cond := ConditionsFor(s.pc.refresh, s.pc.entry);
            var reply := ServerReply(c, Current(s), cond, w);
            && r.Fetched? && r.seen == |s.history| && r.weather == w && r.cond == cond
            && (reply.NotModified? && s.pc.entry.Some? ==> r.result == Body(s.pc.entry.value.body))
            && (!reply.NotModified? ==> r.result == PlainGet(c, Current(s), w))
            && (reply == Full(true) ==> w.Up? && r.result == Body(Current(s).body))
            && AfterExchange(c, s, w) ==
               if reply == Full(true)
               then s.(pc := Storing(r, Entered), log := s.log + [Receipt(|s.history| - 1, s.clock)])
               else Returning(s, r)
  {
    var t := AfterExchange(c, s, w);
    r := if t.pc.Storing? then t.pc.pending else t.outcomes[|s.outcomes|];
  }

  /** The outcome of the exchange, returned or about to be stored. */
  lemma ExchangeOutcomeOk(c: Setting, s: State, r: Outcome)
    requires Inv(c, s) && s.pc.Loaded? && r.Fetched? && WeatherOk(r.weather) && r.seen == |s.history|
    requires r.cond == ConditionsFor(s.pc.refresh, s.pc.entry)
    requires ServerReply(c, Current(s), r.cond, r.weather).NotModified? && s.pc.entry.Some? ==>
               r.result == Body(s.pc.entry.value.body)
    requires !ServerReply(c, Current(s), r.cond, r.weather).NotModified? ==> r.result == PlainGet(c, Current(s), r.weather)
    ensures FetchedOk(c, s.history, r)
  {
    assert s.history[..|s.history|] == s.history && s.history != [];
    if Faithful(c, s.history) {
      ExchangeAgrees(c, s, r.weather);
    }
    hide Encode, Decode, LogOk, DiskOk, OutcomeOk, Matches, ServerReply, PlainGet, Inv, Faithful, ConditionsFor;
  }

  lemma ReturnKeeps(c: Setting, s: State, r: Outcome)
    requires Inv(c, s) && r.Fetched? && FetchedOk(c, s.history, r)
    ensures Inv(c, Returning(s, r))
  {
    hide Encode, Decode, FetchedOk, Load;
    OutcomesStay(c, s, Returning(s, r));
    assert forall i :: 0 <= i < |s.log| ==> ReceivedMeta(c, Returning(s, r), i) == ReceivedMeta(c, s, i);
  }

  lemma ReceiptKeeps(c: Setting, s: State, r: Outcome)
    requires Inv(c, s) && r.Fetched? && FetchedOk(c, s.history, r) && r.result == Body(Current(s).body)
    ensures Inv(c, s.(pc := Storing(r, Entered), log := s.log + [Receipt(|s.history| - 1, s.clock)]))
  {
    hide Encode, Decode, FetchedOk, Load;
    var t := s.(pc := Storing(r, Entered), log := s.log + [Receipt(|s.history| - 1, s.clock)]);
    OutcomesStay(c, s, t);
    assert forall i :: 0 <= i < |s.log| ==> ReceivedMeta(c, t, i) == ReceivedMeta(c, s, i);
  }

  lemma ExchangeNext(c: Setting, s: State, w: Weather)
    requires s.history != []
    ensures Next(c, s, Exchange(w)) ==
            if s.pc.Loaded? && !MayServe(c, s) && WeatherOk(w) then AfterExchange(c, s, w) else s
  {
    hide AfterExchange, MayServe, AfterStoreStep;
  }

  lemma ExchangeKeeps(c: Setting, s: State, w: Weather)
    requires Inv(c, s)
    ensures s.history != [] && Inv(c, Next(c, s, Exchange(w)))
  {
    assert s.history != [];
    ExchangeNext(c, s, w);
    hide Encode, Decode, FetchedOk, Inv, AfterExchange, PlainGet, ServerReply, ConditionsFor, MayServe, Returning, Next;
    if s.pc.Loaded? && !MayServe(c, s) && WeatherOk(w) {
      var r := ExchangeShape(c, s, w);
      ExchangeOutcomeOk(c, s, r);
      if ServerReply(c, Current(s), r.cond, w) == Full(true) {
        ReceiptKeeps(c, s, r);
      } else {
        ReturnKeeps(c, s, r);
      }
    }
  }

  /** A step of `store` that leaves the two files alone. */
  lemma FilesUntouchedKeeps(c: Setting, s: State, t: State)
    requires Inv(c, s)
    requires t == s.(pc := t.pc, disk := t.disk, outcomes := t.outcomes)
    requires t.disk.body == s.disk.body && t.disk.meta == s.disk.meta
    requires t.pc.Storing? ==> StoringOk(c, t) && OutcomeOk(c, s, t.pc.pending)
    requires t.pc.Loaded? ==> t.pc.entry == Load(t.disk)
    requires forall i :: 0 <= i < |t.outcomes| ==> OutcomeOk(c, s, t.outcomes[i])
    ensures Inv(c, t)
  {
    hide Encode, Decode;
    forall i | 0 <= i < |t.outcomes| ensures OutcomeOk(c, t, t.outcomes[i]) {
      OutcomeStays(c, s, t, t.outcomes[i]);
    }
    if t.pc.Storing? {
      OutcomeStays(c, s, t, t.pc.pending);
    }
    assert s.disk.meta.Some? ==> ReceivedMeta(c, t, s.metaFrom) == ReceivedMeta(c, s, s.metaFrom);
  }

  lemma RenameKeeps(c: Setting, s: State)
    requires Inv(c, s) && StoreReady(s)
    ensures Inv(c, AfterStoreStep(c, s, Rename))
  {
    hide Encode, Decode;
    var t := AfterStoreStep(c, s, Rename);
    OutcomesStay(c, s, t);
    assert s.disk.meta.Some? ==> ReceivedMeta(c, t, s.metaFrom) == ReceivedMeta(c, s, s.metaFrom);
  }

  lemma TruncateMetaKeeps(c: Setting, s: State)
    requires Inv(c, s) && StoreReady(s)
    ensures Inv(c, AfterStoreStep(c, s, TruncateMeta))
  {
    hide Encode, Decode;
    var t := AfterStoreStep(c, s, TruncateMeta);
    OutcomesStay(c, s, t);
    assert Encode(ReceivedMeta(c, t, |s.log| - 1))[..0] == "";
  }

  lemma WriteMetaKeeps(c: Setting, s: State, n: nat)
    requires Inv(c, s) && StoreReady(s)
    ensures Inv(c, AfterStoreStep(c, s, WriteMeta(n)))
  {
    hide Encode, Decode;
    var t := AfterStoreStep(c, s, WriteMeta(n));
    OutcomesStay(c, s, t);
    var last := |s.log| - 1;
    assert ReceivedMeta(c, t, last) == ReceivedMeta(c, s, last);
  }

  lemma TempStepKeeps(c: Setting, s: State, e: Event)
    requires Inv(c, s) && StoreReady(s) && (e.MakeTemp? || e.Fill? || e.CloseTemp?)
    ensures Inv(c, AfterStoreStep(c, s, e))
  {
    hide Encode, Decode;
    var t := AfterStoreStep(c, s, e);
    if t != s {
      assert StoredBody(t) == StoredBody(s);
      FilesUntouchedKeeps(c, s, t);
    }
  }

  lemma ReturnStepKeeps(c: Setting, s: State, e: Event)
    requires Inv(c, s) && StoreReady(s) && (e.Finish? || e.StoreFails?)
    ensures Inv(c, AfterStoreStep(c, s, e))
  {
    hide Encode, Decode;
    var t := AfterStoreStep(c, s, e);
    if t != s {
      assert t.pc.Unlocked? && t.outcomes == s.outcomes + [s.pc.pending];
      FilesUntouchedKeeps(c, s, t);
    }
  }

  lemma StoreStepKeeps(c: Setting, s: State, e: Event)
    requires Inv(c, s) && StoreReady(s)
    ensures Inv(c, AfterStoreStep(c, s, e))
  {
    match e
    case Rename => RenameKeeps(c, s);
    case TruncateMeta => TruncateMetaKeeps(c, s);
    case WriteMeta(n) => WriteMetaKeeps(c, s, n);
    case MakeTemp(_) => TempStepKeeps(c, s, e);
    case Fill(_) => TempStepKeeps(c, s, e);
    case CloseTemp => TempStepKeeps(c, s, e);
    case Finish => ReturnStepKeeps(c, s, e);
    case StoreFails(_) => ReturnStepKeeps(c, s, e);
    case _ =>
  }

  /** The process dies, or a call begins. */
  lemma PcKeeps(c: Setting, s: State, pc: Pc)
    requires Inv(c, s) && (pc.Unlocked? || (pc.Loaded? && pc.entry == Load(s.disk)))
    ensures Inv(c, s.(pc := pc))
  {
    hide Encode, Decode, Load;
    OutcomesStay(c, s, s.(pc := pc));
    assert forall i :: 0 <= i < |s.log| ==> ReceivedMeta(c, s.(pc := pc), i) == ReceivedMeta(c, s, i);
  }

  lemma NextKeeps(c: Setting, s: State, e: Event)
    requires Inv(c, s)
    ensures Inv(c, Next(c, s, e))
  {
    assert s.history != [];
    hide Inv, AfterExchange, AfterStoreStep, MayServe, Load, Encode, Decode;
    match e
    case Publish(v) => GrowthKeeps(c, s, Next(c, s, e));
    case Tick(d) => GrowthKeeps(c, s, Next(c, s, e));
    case Crash => PcKeeps(c, s, Unlocked);
    case Begin(refresh) => PcKeeps(c, s, Loaded(refresh, Load(s.disk)));
    case ServeFresh => ServeFreshKeeps(c, s);
    case Exchange(w) => ExchangeKeeps(c, s, w);
    case _ =>
      if StoreReady(s) {
        StoreStepKeeps(c, s, e);
      }
  }

  /** Every run from an empty cache keeps the invariant. */
  lemma {:induction false} RunsKeepInv(c: Setting, first: Version, es: seq<Event>)
    ensures Inv(c, Exec(c, Init(first), es))
    decreases |es|
  {
    if es != [] {
      RunsKeepInv(c, first, es[..|es| - 1]);
      NextKeeps(c, Exec(c, Init(first), es[..|es| - 1]), es[|es| - 1]);
    }
  }
}
