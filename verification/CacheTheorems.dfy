/** The cache's promises, over all runs: server changes, clock ticks, refreshes, failed
    stores and crashes between any two steps. */
module CacheTheorems {
  import opened Strings
  import opened MetaText
  import opened CacheSystem
  import opened CacheSafety

  /** Some run from an empty cache directory leads to `s`. */
  ghost predicate Reaches(c: Setting, first: Version, s: State) {
    exists es :: Exec(c, Init(first), es) == s
  }

  lemma ReachedInv(c: Setting, first: Version, s: State)
    requires Reaches(c, first, s)
    ensures Inv(c, s)
  {
    var es :| Exec(c, Init(first), es) == s;
    RunsKeepInv(c, first, es);
  }

  /** Whatever was interrupted before, a hit pairs a complete body received with a 200
      with the meta of that response or of an earlier one, and a meta file cut short is
      a miss. */
  lemma HitIsComplete(c: Setting, first: Version, s: State)
    requires Reaches(c, first, s)
    ensures Load(s.disk).Some? ==>
              exists b: nat, m: nat :: m <= b < |s.log| && s.log[b].version < |s.history| && s.log[m].version <= s.log[b].version
                && Load(s.disk).value == Entry(ReceivedBody(s, b), ReceivedMeta(c, s, m))
    ensures Load(s.disk).Some? <==>
              s.disk.body.Some? && s.disk.meta.Some? && s.metaFrom < |s.log| && s.log[s.metaFrom].version < |s.history|
              && s.disk.meta.value == Encode(ReceivedMeta(c, s, s.metaFrom))
  {
    ReachedInv(c, first, s);
    if Load(s.disk).Some? {
      LoadIsReceived(c, s);
      var m := ReceivedMeta(c, s, s.metaFrom);
      if s.disk.meta.value < Encode(m) {
        TornMetaNeverDecodes(m, s.disk.meta.value);
      }
    } else if s.disk.body.Some? && s.disk.meta.Some? {
      MetaRoundTrip(ReceivedMeta(c, s, s.metaFrom));
    }
  }

  /** A body served without asking is a complete one, under the meta of a response that had no
      validators and came less than ttl ago; the body came with it or later, also when a crash
      left a newer body beside an older meta. */
  lemma TtlHitIsRecent(c: Setting, first: Version, s: State, i: nat)
    requires Reaches(c, first, s) && i < |s.outcomes| && s.outcomes[i].ServedFresh?
    ensures var r := s.outcomes[i];
            exists m: nat, b: nat :: m <= b < |s.log|
              && s.log[m].version < |s.history| && s.log[b].version < |s.history| && r.body == ReceivedBody(s, b)
              && s.history[s.log[m].version].etag == "" && s.history[s.log[m].version].lastModified == ""
              && s.log[m].at <= s.log[b].at <= r.at < s.log[m].at + c.ttl
  {
    ReachedInv(c, first, s);
    var r := s.outcomes[i];
    assert OutcomeOk(c, s, r);
    var m: nat, b: nat :| ServedUnder(c, s, r.body, r.at, m, b);
  }

  /* ----- Agreement with the uncached fetch ----- */

  /** Faithfulness over the headers: an ETag given out and current again, or a date given out
      that the current one is not later than where no ETag was given out, comes with a body
      that has not changed between. */
  lemma FaithfulMeans(c: Setting, h: seq<Version>)
    ensures Faithful(c, h) <==>
      forall i, k, j :: 0 <= i <= k <= j < |h|
        && (if h[i].etag != "" then h[j].etag == h[i].etag
            else h[i].lastModified != "" && h[j].lastModified != "" && c.notLater(h[j].lastModified, h[i].lastModified))
        ==> h[k].body == h[j].body
  {
    assert forall i, j :: 0 <= i < |h| && 0 <= j < |h| ==>
      (ClaimsUnchanged(c, h, i, j) <==>
        if h[i].etag != "" then h[j].etag == h[i].etag
        else h[i].lastModified != "" && h[j].lastModified != "" && c.notLater(h[j].lastModified, h[i].lastModified));
    hide ClaimsUnchanged;
  }

  /** Two versions that answer to the same validator have the same body. */
  ghost predicate IdentifiesBodies(c: Setting, h: seq<Version>) {
    forall i, j :: 0 <= i <= j < |h| && ClaimsUnchanged(c, h, i, j) ==> h[i].body == h[j].body
  }

  /** A validator that matches now has matched ever since it was given out. */
  ghost predicate NeverReuses(c: Setting, h: seq<Version>) {
    forall i, k, j :: 0 <= i <= k <= j < |h| && ClaimsUnchanged(c, h, i, j) ==> ClaimsUnchanged(c, h, k, j)
  }

  lemma HonestServerIsFaithful(c: Setting, h: seq<Version>)
    requires IdentifiesBodies(c, h) && NeverReuses(c, h)
    ensures Faithful(c, h)
  {
    forall i, k, j | 0 <= i <= k <= j < |h| && ClaimsUnchanged(c, h, i, j) ensures h[k].body == h[j].body {
      assert ClaimsUnchanged(c, h, k, j);
    }
  }

  /** Every call that asked the server returned the current version's plain answer. */
  ghost predicate AllAgree(c: Setting, s: State) {
    forall i :: 0 <= i < |s.outcomes| && s.outcomes[i].Fetched? ==>
      0 < s.outcomes[i].seen <= |s.history| && Agrees(c, s.history, s.outcomes[i])
  }

  /** For a faithful server every call that is not a TTL hit returns what the plain GET
      would return then, unless a 304 saved it from a body that would have broken off:
      then it returns the current body where the plain GET fails. */
  lemma FaithfulServerAgrees(c: Setting, first: Version, s: State, i: nat)
    requires Reaches(c, first, s) && Faithful(c, s.history)
    requires i < |s.outcomes| && s.outcomes[i].Fetched?
    ensures var r := s.outcomes[i];
            0 < r.seen <= |s.history|
            && var v := s.history[r.seen - 1];
            var spared := r.weather.Cut? && Matches(c, v, r.cond);
            (r.result == PlainGet(c, v, r.weather) <==> !spared) && (spared ==> r.result == Body(v.body))
  {
    ReachedInv(c, first, s);
    var r := s.outcomes[i];
    assert OutcomeOk(c, s, r);
    FaithfulPrefix(c, s.history, r.seen);
  }

  lemma FaithfulPrefix(c: Setting, h: seq<Version>, n: nat)
    requires Faithful(c, h) && n <= |h|
    ensures Faithful(c, h[..n])
  {
    var p := h[..n];
    forall i, k, j | 0 <= i <= k <= j < n && ClaimsUnchanged(c, p, i, j) ensures p[k].body == p[j].body {
      assert ClaimsUnchanged(c, h, i, j);
    }
  }

  /** Exactly the faithful servers are cached correctly: if one version's validator
      outlives a different body, some run with a crash between the two writes of `store`
      serves that body as the current one. */
  lemma AgreementIsExact(c: Setting, h: seq<Version>)
    requires h != []
    ensures Faithful(c, h) <==> forall s :: Reaches(c, h[0], s) && s.history <= h ==> AllAgree(c, s)
  {
    if Faithful(c, h) {
      forall s | Reaches(c, h[0], s) && s.history <= h ensures AllAgree(c, s) {
        assert s.history == h[..|s.history|];
        FaithfulPrefix(c, h, |s.history|);
        forall i | 0 <= i < |s.outcomes| && s.outcomes[i].Fetched?
          ensures 0 < s.outcomes[i].seen <= |s.history| && Agrees(c, s.history, s.outcomes[i])
        {
          FaithfulServerAgrees(c, h[0], s, i);
        }
      }
    } else {
      var i, k, j :| 0 <= i <= k <= j < |h| && ClaimsUnchanged(c, h, i, j) && h[k].body != h[j].body;
      var s := UnfaithfulRun(c, h, i, k, j);
    }
  }

  /* ----- The run that an unfaithful server spoils ----- */

  lemma ReachNext(c: Setting, first: Version, s: State, e: Event)
    requires Reaches(c, first, s) && s.history != []
    ensures Reaches(c, first, Next(c, s, e))
  {
    var es :| Exec(c, Init(first), es) == s;
    assert (es + [e])[..|es|] == es;
    assert Exec(c, Init(first), es + [e]) == Next(c, s, e);
  }

  lemma {:induction false} ReachPublished(c: Setting, s: State, h: seq<Version>, n: nat)
    requires h != [] && Reaches(c, h[0], s) && s.history != [] && s.history <= h && |s.history| <= n <= |h|
    ensures Reaches(c, h[0], s.(history := h[..n]))
    decreases n
  {
    hide Reaches, Exec;
    if |s.history| == n {
      assert s.history == h[..n];
    } else {
      ReachPublished(c, s, h, n - 1);
      var t := s.(history := h[..n - 1]);
      ReachNext(c, h[0], t, Publish(h[n - 1]));
      assert h[..n - 1] + [h[n - 1]] == h[..n];
    }
  }

  /** A forced download up to the entry of `store`. */
  lemma ReachEntered(c: Setting, first: Version, s: State) returns (t: State)
    requires Reaches(c, first, s) && s.history != [] && s.pc.Unlocked?
    ensures Reaches(c, first, t)
    ensures t == s.(pc := t.pc, log := s.log + [Receipt(|s.history| - 1, s.clock)])
    ensures StoreReady(t) && t.pc.stage == Entered && t.pc.pending.result == Body(Current(s).body)
  {
    hide Encode, Decode, Reaches, Exec;
    ReachNext(c, first, s, Begin(true));
    t := Next(c, s, Begin(true));
    ReachNext(c, first, t, Exchange(Up));
    t := Next(c, t, Exchange(Up));
  }

  /** A forced download up to the rename of the body. */
  lemma ReachRenamed(c: Setting, first: Version, s: State) returns (t: State)
    requires Reaches(c, first, s) && s.history != [] && s.pc.Unlocked? && s.disk.temps == map[]
    ensures Reaches(c, first, t)
    ensures t == s.(disk := s.disk.(body := Some(Current(s).body)), pc := t.pc, log := t.log, bodyFrom := |s.log|)
    ensures t.log == s.log + [Receipt(|s.history| - 1, s.clock)]
    ensures t.pc.Storing? && t.pc.stage == Renamed && StoreReady(t)
  {
    hide Encode, Decode, Reaches, Exec;
    t := ReachEntered(c, first, s);
    var body := Current(s).body;
    ReachNext(c, first, t, MakeTemp(0));
    t := Next(c, t, MakeTemp(0));
    ReachNext(c, first, t, Fill(|body|));
    t := Next(c, t, Fill(|body|));
    assert body[..|body|] == body;
    ReachNext(c, first, t, CloseTemp);
    t := Next(c, t, CloseTemp);
    ReachNext(c, first, t, Rename);
    t := Next(c, t, Rename);
    assert t.disk.temps == map[];
  }

  /** From there to the end of the meta write. */
  lemma ReachStored(c: Setting, first: Version, s: State) returns (t: State)
    requires Reaches(c, first, s) && s.history != [] && StoreReady(s) && s.pc.stage == Renamed
    ensures Reaches(c, first, t)
    ensures var text := Encode(ReceivedMeta(c, s, |s.log| - 1));
            t == s.(disk := s.disk.(meta := Some(text)), pc := Unlocked, metaFrom := |s.log| - 1, outcomes := t.outcomes)
  {
    hide Encode, Decode, Reaches, Exec;
    var text := Encode(ReceivedMeta(c, s, |s.log| - 1));
    ReachNext(c, first, s, TruncateMeta);
    t := Next(c, s, TruncateMeta);
    assert Encode(ReceivedMeta(c, t, |s.log| - 1)) == text;
    ReachNext(c, first, t, WriteMeta(|text|));
    t := Next(c, t, WriteMeta(|text|));
    assert text[..|text|] == text;
    ReachNext(c, first, t, Finish);
    t := Next(c, t, Finish);
  }

  lemma ReachCrashed(c: Setting, first: Version, s: State)
    requires Reaches(c, first, s) && s.history != []
    ensures Reaches(c, first, s.(pc := Unlocked))
  {
    hide Reaches, Exec;
    ReachNext(c, first, s, Crash);
  }

  /** A forced download, stored to the end. */
  lemma ReachDownloaded(c: Setting, first: Version, s: State) returns (t: State)
    requires Reaches(c, first, s) && s.history != [] && s.pc.Unlocked? && s.disk.temps == map[]
    ensures Reaches(c, first, t) && t.history == s.history && t.clock == s.clock && t.pc.Unlocked?
    ensures var v := Current(s);
            t.disk == Disk(Some(v.body), Some(Encode(Meta(c.url, v.etag, v.lastModified, s.clock))), map[])
  {
    hide Encode, Decode, Reaches, Exec, Next;
    t := ReachRenamed(c, first, s);
    assert ReceivedMeta(c, t, |s.log|) == Meta(c.url, Current(s).etag, Current(s).lastModified, s.clock);
    t := ReachStored(c, first, t);
  }

  /** Version `i` is fetched and stored as the first of all. */
  lemma FirstStored(c: Setting, h: seq<Version>, i: nat) returns (s: State)
    requires i < |h|
    ensures Reaches(c, h[0], s) && s.history == h[..i + 1] && s.pc.Unlocked? && s.clock == 0
    ensures s.disk == Disk(Some(h[i].body), Some(Encode(Meta(c.url, h[i].etag, h[i].lastModified, 0))), map[])
  {
    s := Init(h[0]);
    assert Exec(c, s, []) == s;
    hide Encode, Decode, Reaches, Exec, Next;
    ReachPublished(c, s, h, i + 1);
    s := s.(history := h[..i + 1]);
    s := ReachDownloaded(c, h[0], s);
  }

  /** Version `was` is stored at 0, version `now` replaces it at the server, and time goes by. */
  lemma StoredThenReplaced(c: Setting, was: Version, now: Version, d: nat) returns (s: State)
    ensures Reaches(c, was, s) && s.history == [was, now] && s.pc.Unlocked? && s.clock == d
    ensures Load(s.disk) == Some(Entry(was.body, Meta(c.url, was.etag, was.lastModified, 0)))
  {
    var h := [was, now];
    s := FirstStored(c, h, 0);
    MetaRoundTrip(Meta(c.url, was.etag, was.lastModified, 0));
    hide Encode, Decode, Reaches, Exec;
    ReachPublished(c, s, h, 2);
    assert h[..2] == h;
    s := s.(history := h);
    ReachNext(c, was, s, Tick(d));
    s := Next(c, s, Tick(d));
  }

  /** Then version `k` replaces the body, and the process dies. */
  lemma MismatchedFiles(c: Setting, h: seq<Version>, i: nat, k: nat) returns (s: State)
    requires i <= k < |h|
    ensures Reaches(c, h[0], s) && s.history == h[..k + 1] && s.pc.Unlocked?
    ensures s.disk.body == Some(h[k].body)
    ensures s.disk.meta == Some(Encode(Meta(c.url, h[i].etag, h[i].lastModified, 0)))
  {
    hide Encode, Decode, Reaches, Exec, Next;
    s := FirstStored(c, h, i);
    assert s.history <= h[..k + 1];
    ReachPublished(c, s, h, k + 1);
    s := s.(history := h[..k + 1]);
    s := ReachRenamed(c, h[0], s);
    ReachCrashed(c, h[0], s);
    s := s.(pc := Unlocked);
  }

  lemma UnfaithfulRun(c: Setting, h: seq<Version>, i: nat, k: nat, j: nat) returns (s: State)
    requires i <= k <= j < |h| && ClaimsUnchanged(c, h, i, j) && h[k].body != h[j].body
    ensures Reaches(c, h[0], s) && s.history <= h && !AllAgree(c, s)
  {
    hide Encode, Decode, Reaches, Exec, Next, AllAgree;
    s := MismatchedFiles(c, h, i, k);
    ReachPublished(c, s, h, j + 1);
    s := s.(history := h[..j + 1]);
    s := StaleBodyServed(c, h[0], s, Meta(c.url, h[i].etag, h[i].lastModified, 0));
  }

  /** A body beside the meta of another response, and a server that still knows that meta. */
  lemma StaleBodyServed(c: Setting, first: Version, s: State, m: Meta) returns (t: State)
    requires Reaches(c, first, s) && s.history != [] && s.pc.Unlocked?
    requires s.disk.body.Some? && s.disk.meta == Some(Encode(m))
    requires Matches(c, Current(s), Conditions(m.etag, m.lastModified))
    requires s.disk.body.value != Current(s).body
    ensures Reaches(c, first, t) && t.history == s.history && !AllAgree(c, t)
  {
    MetaRoundTrip(m);
    hide Encode, Decode, Reaches, Exec;
    ReachNext(c, first, s, Begin(false));
    t := Next(c, s, Begin(false));
    ReachNext(c, first, t, Exchange(Up));
    t := Next(c, t, Exchange(Up));
    var r := t.outcomes[|s.outcomes|];
    assert r == Fetched(Body(s.disk.body.value), |s.history|, Up, Conditions(m.etag, m.lastModified));
    assert !Agrees(c, t.history, r);
  }

  /* ----- When agreement has no exception ----- */

  /** Every call that asked returned exactly what the plain GET would have returned. */
  ghost predicate AllExact(c: Setting, s: State) {
    forall i :: 0 <= i < |s.outcomes| && s.outcomes[i].Fetched? ==>
      0 < s.outcomes[i].seen <= |s.history|
      && s.outcomes[i].result == PlainGet(c, s.history[s.outcomes[i].seen - 1], s.outcomes[i].weather)
  }

  /** No version answers to the validators of itself or of an earlier one. */
  ghost predicate NeverMatches(c: Setting, h: seq<Version>) {
    forall i, j :: 0 <= i <= j < |h| ==> !ClaimsUnchanged(c, h, i, j)
  }

  /** A call asks without conditions, or with the validators of a version it can have seen. */
  ghost predicate CondOk(h: seq<Version>, r: Outcome) {
    r.Fetched? ==>
      && 0 < r.seen <= |h|
      && (r.cond == UNCONDITIONAL || exists i :: 0 <= i < r.seen && r.cond == Conditions(h[i].etag, h[i].lastModified))
  }

  ghost predicate CondsOk(s: State) {
    && (forall i :: 0 <= i < |s.outcomes| ==> CondOk(s.history, s.outcomes[i]))
    && (s.pc.Storing? ==> CondOk(s.history, s.pc.pending))
  }

  lemma CondStays(h: seq<Version>, v: Version, r: Outcome)
    requires CondOk(h, r)
    ensures CondOk(h + [v], r)
  {
    if r.Fetched? && r.cond != UNCONDITIONAL {
      var i :| 0 <= i < r.seen && r.cond == Conditions(h[i].etag, h[i].lastModified);
      assert (h + [v])[i] == h[i];
    }
  }

  lemma ExchangeCondOk(c: Setting, s: State, r: Outcome)
    requires Inv(c, s) && s.pc.Loaded? && r.Fetched? && r.seen == |s.history|
    requires r.cond == ConditionsFor(s.pc.refresh, s.pc.entry)
    ensures CondOk(s.history, r)
  {
    hide Encode, Decode;
    if r.cond != UNCONDITIONAL {
      LoadIsReceived(c, s);
      var i := s.log[s.metaFrom].version;
      assert r.cond == Conditions(s.history[i].etag, s.history[i].lastModified);
    }
  }

  lemma StoreStepConds(c: Setting, s: State, e: Event)
    requires StoreReady(s) && CondsOk(s)
    ensures CondsOk(AfterStoreStep(c, s, e))
  {
    hide Encode, Decode, CondOk;
  }

  lemma NextKeepsConds(c: Setting, s: State, e: Event)
    requires Inv(c, s) && CondsOk(s) && s.history != []
    ensures CondsOk(Next(c, s, e))
  {
    hide Inv, Encode, Decode, Load, AfterExchange, AfterStoreStep, CondOk, MayServe;
    match e
    case Publish(v) =>
      forall r | CondOk(s.history, r) ensures CondOk(s.history + [v], r) {
        CondStays(s.history, v, r);
      }
    case ServeFresh => ServedCondOk(s.history);
    case Exchange(w) =>
      ExchangeNext(c, s, w);
      if s.pc.Loaded? && !MayServe(c, s) && WeatherOk(w) {
        var r := ExchangeShape(c, s, w);
        ExchangeCondOk(c, s, r);
      }
    case Tick(_) =>
    case Begin(_) =>
    case Crash =>
    case _ =>
      if StoreReady(s) {
        StoreStepConds(c, s, e);
      }
  }

  lemma ServedCondOk(h: seq<Version>)
    ensures forall r: Outcome | r.ServedFresh? :: CondOk(h, r)
  {
  }

  lemma {:induction false} RunsKeepConds(c: Setting, first: Version, es: seq<Event>)
    ensures CondsOk(Exec(c, Init(first), es))
    decreases |es|
  {
    hide CondsOk, Inv, Next;
    if es == [] {
      StartCondsOk(first);
    } else {
      RunsKeepConds(c, first, es[..|es| - 1]);
      RunsKeepInv(c, first, es[..|es| - 1]);
      NextKeepsConds(c, Exec(c, Init(first), es[..|es| - 1]), es[|es| - 1]);
    }
  }

  lemma StartCondsOk(first: Version)
    ensures CondsOk(Init(first))
  {
  }

  /** Where nothing ever matches, no transfer is spared. */
  lemma UnmatchedIsExact(c: Setting, first: Version, s: State, i: nat)
    requires Reaches(c, first, s) && Faithful(c, s.history) && NeverMatches(c, s.history)
    requires i < |s.outcomes| && s.outcomes[i].Fetched?
    ensures var r := s.outcomes[i]; 0 < r.seen <= |s.history| && r.result == PlainGet(c, s.history[r.seen - 1], r.weather)
  {
    var r := s.outcomes[i];
    FaithfulServerAgrees(c, first, s, i);
    var es :| Exec(c, Init(first), es) == s;
    RunsKeepConds(c, first, es);
    assert CondOk(s.history, r);
    hide Reaches, Exec, Faithful, PlainGet;
    if r.cond != UNCONDITIONAL {
      var k :| 0 <= k < r.seen && r.cond == Conditions(s.history[k].etag, s.history[k].lastModified);
      assert !ClaimsUnchanged(c, s.history, k, r.seen - 1);
    }
  }

  lemma NeverMatchesPrefix(c: Setting, h: seq<Version>, n: nat)
    requires NeverMatches(c, h) && n <= |h|
    ensures NeverMatches(c, h[..n])
  {
    forall i, j | 0 <= i <= j < n ensures !ClaimsUnchanged(c, h[..n], i, j) {
      assert !ClaimsUnchanged(c, h, i, j);
    }
  }

  /** Version `i` is stored, and the server goes on to version `j`. */
  lemma StoredEarlier(c: Setting, h: seq<Version>, i: nat, j: nat) returns (s: State)
    requires i <= j < |h|
    ensures Reaches(c, h[0], s) && s.history == h[..j + 1] && s.pc.Unlocked?
    ensures Load(s.disk) == Some(Entry(h[i].body, Meta(c.url, h[i].etag, h[i].lastModified, 0)))
  {
    s := FirstStored(c, h, i);
    MetaRoundTrip(Meta(c.url, h[i].etag, h[i].lastModified, 0));
    hide Encode, Decode, Reaches, Exec;
    assert s.history <= h[..j + 1];
    ReachPublished(c, s, h, j + 1);
    s := s.(history := h[..j + 1]);
  }

  /** When version `j` still answers to version `i`, a call whose transfer would break off is
      answered 304 and returns the stored body. */
  lemma SparedTransfer(c: Setting, h: seq<Version>, i: nat, j: nat) returns (s: State)
    requires i <= j < |h| && ClaimsUnchanged(c, h, i, j)
    ensures Reaches(c, h[0], s) && s.history == h[..j + 1] && s.outcomes != []
    ensures var r := s.outcomes[|s.outcomes| - 1];
            && r.Fetched? && r.seen == j + 1 && r.weather == Cut
            && r.result == Body(h[i].body) && PlainGet(c, h[j], Cut) == ReadFailed
    ensures !AllExact(c, s)
  {
    s := StoredEarlier(c, h, i, j);
    hide Reaches, Exec, Load;
    ReachNext(c, h[0], s, Begin(false));
    s := Next(c, s, Begin(false));
    ReachNext(c, h[0], s, Exchange(Cut));
    ExchangeNext(c, s, Cut);
    s := Next(c, s, Exchange(Cut));
  }

  /** Agreement with the plain GET is exact, for every call in every run, if and only if the
      server's validators never match. */
  lemma ExactAgreementIsExact(c: Setting, h: seq<Version>)
    requires h != [] && Faithful(c, h)
    ensures NeverMatches(c, h) <==> forall s :: Reaches(c, h[0], s) && s.history <= h ==> AllExact(c, s)
  {
    if NeverMatches(c, h) {
      forall s | Reaches(c, h[0], s) && s.history <= h ensures AllExact(c, s) {
        assert s.history == h[..|s.history|];
        FaithfulPrefix(c, h, |s.history|);
        NeverMatchesPrefix(c, h, |s.history|);
        forall i | 0 <= i < |s.outcomes| && s.outcomes[i].Fetched?
          ensures 0 < s.outcomes[i].seen <= |s.history|
                  && s.outcomes[i].result == PlainGet(c, s.history[s.outcomes[i].seen - 1], s.outcomes[i].weather)
        {
          UnmatchedIsExact(c, h[0], s, i);
        }
      }
    } else {
      var i, j :| 0 <= i <= j < |h| && ClaimsUnchanged(c, h, i, j);
      var s := SparedTransfer(c, h, i, j);
    }
  }
}
