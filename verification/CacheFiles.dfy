/** The cache as the program runs it: a directory whose files the methods change one after
    the other. Each method is a run of the step system on its key, so every statement about
    runs holds for it, and it leaves the files of all other keys alone. */
module CacheFiles {
  import opened Strings
  import opened MetaText
  import opened CacheSystem
  import opened CacheSafety
  import opened CacheTheorems

  class Mutex {
    var held: bool

    constructor ()
      ensures !held
    {
      held := false;
    }
  }

  /** The operations of `store` in order; the last one stops after `n` characters. */
  datatype Point = AtMkdir | AtCreate | AtWrite(n: nat) | AtClose | AtRename | AtMarshal | AtMeta(n: nat)

  /** How a call of `store` ends: well, with an error of one operation (and its temporary
      file removed or not), or with the process dying in front of that operation. */
  datatype Ending = Completes | FailsAt(p: Point, removed: bool) | DiesAt(p: Point)

  predicate StopsAt(e: Ending, p: Point) {
    (e.FailsAt? || e.DiesAt?) && e.p == p
  }

  /** The body has been renamed into place when the call ends. */
  predicate BodyReplaced(e: Ending) {
    e.Completes? || e.p.AtMarshal? || e.p.AtMeta?
  }

  /** The meta file when the call ends. */
  function MetaAfter(e: Ending, before: Option<string>, text: string): Option<string> {
    if e.Completes? then Some(text)
    else if e.p.AtMeta? then Some(text[..if e.p.n <= |text| then e.p.n else |text|])
    else before
  }

  lemma ExecStep(c: Setting, s: State, es: seq<Event>, e: Event)
    requires s.history != []
    ensures Exec(c, s, es + [e]) == Next(c, Exec(c, s, es), e)
  {
    assert (es + [e])[..|es|] == es;
  }

  /** `text` written up to `n`, or whole when it is shorter. */
  function UpTo<T>(text: seq<T>, n: nat): (r: seq<T>)
    ensures r <= text && (n >= |text| ==> r == text)
  {
    text[..if n <= |text| then n else |text|]
  }

  class Cache {
    const ttl: int
    var bodies: map<string, Bytes>
    var metas: map<string, string>
    var temps: map<string, map<nat, Bytes>>
    var locks: map<string, Mutex>
    /** The conditional headers of each request so far. */
    var asked: seq<Conditions>

    constructor (ttl: int)
      ensures this.ttl == ttl && bodies == map[] && metas == map[] && temps == map[] && locks == map[] && asked == []
    {
      this.ttl := ttl;
      bodies, metas, temps, locks, asked := map[], map[], map[], map[], [];
    }

    /** The files of one key. */
    function Files(k: string): Disk
      reads this
    {
      Disk(if k in bodies then Some(bodies[k]) else None,
           if k in metas then Some(metas[k]) else None,
           if k in temps then temps[k] else map[])
    }

    /** `LoadOrStore`: every caller of a key gets the mutex of the first one. */
    method LockFor(k: string) returns (m: Mutex)
      modifies this`locks
      ensures k in locks && locks[k] == m
      ensures k in old(locks) ==> locks == old(locks)
      ensures k !in old(locks) ==> fresh(m) && !m.held && locks == old(locks)[k := m]
    {
      if k !in locks {
        var created := new Mutex();
        locks := locks[k := created];
      }
      m := locks[k];
    }

    method LoadEntry(k: string) returns (entry: Option<Entry>)
      ensures entry == Load(Files(k))
    {
      if k !in bodies {
        return None;
      }
      if k !in metas {
        return None;
      }
      var m := Decode(metas[k]);
      if m.None? {
        return None;
      }
      return Some(Entry(bodies[k], m.value));
    }

    /** The temporary file of `store` holds the first part of the body. */
    method FillTemp(k: string, body: Bytes, tmp: nat, part: Bytes, ghost c: Setting, ghost s: State)
      returns (ghost es: seq<Event>)
      requires s.history != [] && StoreReady(s) && s.pc.stage == Entered
      requires s.disk == Files(k) && tmp !in s.disk.temps && StoredBody(s) == body && part <= body
      modifies this`temps
      ensures forall j :: j != k ==> Files(j) == old(Files(j))
      ensures Files(k) == s.disk.(temps := s.disk.temps[tmp := part])
      ensures Exec(c, s, es) == s.(disk := Files(k), pc := s.pc.(stage := Filling(tmp, |part|)))
    {
      hide Encode, Decode, Exec, AfterStoreStep, Next;
      var mine := if k in temps then temps[k] else map[];
      OneStep(c, s);
      es := [];
      temps := temps[k := mine[tmp := []]];
      ghost var t: State;
      es, t := CreateRun(c, s, es, tmp);
      temps := temps[k := mine[tmp := part]];
      es, t := FillRun(c, s, es, t, |part|);
      assert body[..|part|] == part;
      assert t.disk.temps == mine[tmp := part];
    }

    /** The temporary file of `store`: created, written and closed, or given up. */
    method WriteTemp(k: string, body: Bytes, tmp: nat, ending: Ending, ghost c: Setting, ghost s: State)
      returns (err: bool, ghost es: seq<Event>)
      requires s.history != [] && StoreReady(s) && s.pc.stage == Entered
      requires s.disk == Files(k) && tmp !in s.disk.temps && StoredBody(s) == body
      modifies this`temps
      ensures err <==> !BodyReplaced(ending) && !ending.p.AtRename?
      ensures forall j :: j != k ==> Files(j) == old(Files(j))
      ensures !err ==> Files(k).temps == s.disk.temps[tmp := body]
      ensures var t := s.(disk := Files(k));
              Exec(c, s, es) == if err then Stopped(t, ending) else t.(pc := t.pc.(stage := Filled(tmp)))
    {
      hide Encode, Decode, Exec, AfterStoreStep, Next;
      if StopsAt(ending, AtMkdir) || StopsAt(ending, AtCreate) {
        OneStep(c, s);
        es := StopRun(c, s, [], s, ending, tmp);
        return true, es;
      }
      var part := if !ending.Completes? && ending.p.AtWrite? then UpTo(body, ending.p.n) else body;
      es := FillTemp(k, body, tmp, part, c, s);
      ghost var t := Exec(c, s, es);
      if !ending.Completes? && (ending.p.AtWrite? || ending.p.AtClose?) {
        assert tmp in Files(k).temps;
        if ending.FailsAt? && ending.removed {
          temps := temps[k := temps[k] - {tmp}];
        }
        es := StopRun(c, s, es, t, ending, tmp);
        return true, es;
      }
      es, t := CloseRun(c, s, es, t);
      return false, es;
    }

    /** The first half of `store`: the temporary file, then the rename. */
    method WriteBody(k: string, body: Bytes, tmp: nat, ending: Ending, ghost c: Setting, ghost s: State)
      returns (err: bool, ghost es: seq<Event>)
      requires s.history != [] && StoreReady(s) && s.pc.stage == Entered
      requires s.disk == Files(k) && tmp !in s.disk.temps && StoredBody(s) == body
      modifies this`bodies, this`temps
      ensures err <==> !BodyReplaced(ending)
      ensures forall j :: j != k ==> Files(j) == old(Files(j))
      ensures Files(k).body == if err then old(Files(k)).body else Some(body)
      ensures Exec(c, s, es) == if err then Stopped(s.(disk := Files(k)), ending) else AtRenamed(s.(disk := Files(k)))
    {
      hide Encode, Decode, Exec, AfterStoreStep, Next;
      err, es := WriteTemp(k, body, tmp, ending, c, s);
      if err {
        return;
      }
      ghost var t := Exec(c, s, es);
      if StopsAt(ending, AtRename) {
        if ending.FailsAt? && ending.removed {
          temps := temps[k := temps[k] - {tmp}];
        }
        es := StopRun(c, s, es, t, ending, tmp);
        return true, es;
      }
      assert tmp in Files(k).temps;
      bodies, temps := bodies[k := body], temps[k := temps[k] - {tmp}];
      es := RenameRun(c, s, es, t);
      return false, es;
    }

    /** The second half: `os.WriteFile` of the meta text. */
    method WriteMetaFile(k: string, m: Meta, ending: Ending, ghost c: Setting, ghost s: State)
      returns (err: bool, ghost es: seq<Event>)
      requires s.history != [] && StoreReady(s) && s.pc.stage == Renamed && BodyReplaced(ending)
      requires s.disk == Files(k) && ReceivedMeta(c, s, |s.log| - 1) == m
      modifies this`metas
      ensures err <==> !ending.Completes?
      ensures forall j :: j != k ==> Files(j) == old(Files(j))
      ensures Files(k).meta == MetaAfter(ending, old(Files(k)).meta, Encode(m))
      ensures var t := Exec(c, s, es);
              t == Stopped(s.(disk := Files(k), metaFrom := t.metaFrom), ending)
    {
      hide Encode, Decode, Exec, AfterStoreStep, Next;
      OneStep(c, s);
      es := [];
      if StopsAt(ending, AtMarshal) {
        es := StopRun(c, s, es, s, ending, 0);
        return true, es;
      }
      var text := Encode(m);
      metas := metas[k := ""];
      var written := if ending.Completes? then text else UpTo(text, ending.p.n);
      ghost var t: State;
      es, t := TruncateRun(c, s, es);
      assert ReceivedMeta(c, t, |t.log| - 1) == m;
      es, t := MetaRun(c, s, es, t, written);
      metas := metas[k := written];
      if !ending.Completes? {
        es := StopRun(c, s, es, t, ending, 0);
        return true, es;
      }
      es := FinishRun(c, s, es, t);
      return false, es;
    }

    /** `store` for the last receipt of `s`. */
    method Store(k: string, body: Bytes, m: Meta, tmp: nat, ending: Ending, ghost c: Setting, ghost s: State)
      returns (err: bool, ghost es: seq<Event>)
      requires s.history != [] && StoreReady(s) && s.pc.stage == Entered
      requires s.disk == Files(k) && tmp !in s.disk.temps
      requires StoredBody(s) == body && ReceivedMeta(c, s, |s.log| - 1) == m
      modifies this`bodies, this`metas, this`temps
      ensures err <==> !ending.Completes?
      ensures forall j :: j != k ==> Files(j) == old(Files(j))
      ensures Files(k).body == if BodyReplaced(ending) then Some(body) else old(Files(k)).body
      ensures Files(k).meta == MetaAfter(ending, old(Files(k)).meta, Encode(m))
      ensures var t := Exec(c, s, es);
              t == Stopped(s.(disk := Files(k), bodyFrom := t.bodyFrom, metaFrom := t.metaFrom), ending)
    {
      hide Encode, Decode, Exec, AfterStoreStep, Next;
      err, es := WriteBody(k, body, tmp, ending, c, s);
      if err {
        return;
      }
      ghost var t := Exec(c, s, es);
      ghost var rest;
      assert ReceivedMeta(c, t, |t.log| - 1) == m;
      err, rest := WriteMetaFile(k, m, ending, c, t);
      ExecConcat(c, s, es, rest);
      es := es + rest;
    }

    /** One request: the reply of a server whose current version is `v`. */
    method Get(c: Setting, v: Version, cond: Conditions, w: Weather) returns (reply: Reply)
      modifies this`asked
      ensures asked == old(asked) + [cond] && reply == ServerReply(c, v, cond, w)
    {
      asked := asked + [cond];
      reply := ServerReply(c, v, cond, w);
    }

    method FetchRealtime(c: Setting, v: Version, w: Weather) returns (answer: Answer)
      requires WeatherOk(w)
      modifies this`asked
      ensures asked == old(asked) + [Conditions("", "")] && answer == PlainGet(c, v, w)
      ensures answer == (match w case Up => Body(v.body) case Cut => ReadFailed case Refuse(status) => BadStatus(status) case Down => NoResponse)
    {
      var reply := Get(c, v, UNCONDITIONAL, w);
      if reply.Silence? {
        return NoResponse;
      }
      if !reply.Full? {
        return BadStatus(if reply.NotModified? then 304 else reply.code);
      }
      return if reply.whole then Body(v.body) else ReadFailed;
    }

    /** A 200: the body goes to the disk and to the caller. */
    method KeepReply(c: Setting, v: Version, now: nat, tmp: nat, ending: Ending, ghost s: State)
      returns (answer: Option<Answer>, ghost es: seq<Event>)
      requires s.history != [] && Current(s) == v && s.clock == now
      requires StoreReady(s) && s.pc.stage == Entered && StoredBody(s) == v.body
      requires s.log[|s.log| - 1] == Receipt(|s.history| - 1, s.clock)
      requires s.disk == Files(c.url) && tmp !in s.disk.temps
      modifies this`bodies, this`metas, this`temps
      ensures forall j :: j != c.url ==> Files(j) == old(Files(j))
      ensures answer == if ending.DiesAt? then None else Some(Body(v.body))
      ensures var t := Exec(c, s, es);
              && Between(s, t) && t.disk == Files(c.url)
              && t.outcomes == s.outcomes + (if ending.DiesAt? then [] else [s.pc.pending])
    {
      hide Encode, Decode, Exec, AfterStoreStep, AfterExchange, Next;
      var m := Meta(c.url, v.etag, v.lastModified, now);
      assert ReceivedMeta(c, s, |s.log| - 1) == m;
      var err;
      err, es := Store(c.url, v.body, m, tmp, ending, c, s);
      answer := if ending.DiesAt? then None else Some(Body(v.body));
    }

    /** `FetchStatic` behind the lock, from the load to the return `r`: a run of the step
        system from `s`. */
    method FetchLocked(c: Setting, refresh: bool, v: Version, w: Weather, now: nat, tmp: nat,
                       ending: Ending, ghost s: State)
      returns (answer: Option<Answer>, ghost es: seq<Event>, ghost r: Outcome)
      requires WeatherOk(w) && c.ttl == ttl
      requires s.history != [] && Current(s) == v && s.clock == now && s.pc.Unlocked?
      requires s.disk == Files(c.url) && tmp !in s.disk.temps
      modifies this`bodies, this`metas, this`temps, this`asked
      ensures forall j :: j != c.url ==> Files(j) == old(Files(j))
      ensures var t := Exec(c, s, es);
              && Between(s, t) && t.disk == Files(c.url)
              && t.outcomes == s.outcomes + (if answer.Some? then [r] else [])
      ensures answer.None? ==> ending.DiesAt?
      ensures answer.Some? ==> answer.value == Returned(r)
      ensures asked == old(asked) + if r.ServedFresh? then [] else [r.cond]
      ensures r.ServedFresh? <==> !refresh && Servable(s.disk, now, ttl)
      ensures r.ServedFresh? ==> answer.Some? && Some(r.body) == s.disk.body
      ensures r.Fetched? ==> r.seen == |s.history| && r.weather == w && r.cond == Headers(s.disk, refresh)
    {
      hide Encode, Decode, Exec, AfterStoreStep, AfterExchange, Next;
      var entry := LoadEntry(c.url);
      ghost var t := BeginRun(c, s, refresh);
      es := [Begin(refresh)];
      if entry.Some? && !refresh && Fresh(entry.value.meta, now, ttl) {
        r := ServeRun(c, s, es, t);
        return Some(Body(entry.value.body)), es + [ServeFresh], r;
      }
      var cond := UNCONDITIONAL;
      if entry.Some? && !refresh {
        cond := Conditions(entry.value.meta.etag, entry.value.meta.lastModified);
      }
      var reply := Get(c, v, cond, w);
      r := ExchangeRun(c, s, es, t, w);
      es := es + [Exchange(w)];
      if reply == Full(true) {
        t := Exec(c, s, es);
        ghost var rest;
        answer, rest := KeepReply(c, v, now, tmp, ending, t);
        ExecConcat(c, s, es, rest);
        es := es + rest;
        return;
      }
      return Some(
        if reply.Silence? then NoResponse
        else if reply.NotModified? && entry.Some? then Body(entry.value.body)
        else if !reply.Full? then BadStatus(if reply.NotModified? then 304 else reply.code)
        else ReadFailed), es, r;
    }

    /** The path through the cache, under the key's mutex; no other mutex changes. */
    method FetchCached(c: Setting, refresh: bool, v: Version, w: Weather, now: nat, tmp: nat,
                       ending: Ending, ghost s: State)
      returns (answer: Option<Answer>, ghost es: seq<Event>, ghost r: Outcome)
      requires WeatherOk(w) && c.ttl == ttl
      requires s.history != [] && Current(s) == v && s.clock == now && s.pc.Unlocked?
      requires s.disk == Files(c.url) && tmp !in s.disk.temps
      requires c.url in locks ==> !locks[c.url].held
      modifies this, if c.url in locks then {locks[c.url]} else {}
      ensures forall j :: j != c.url ==> Files(j) == old(Files(j))
      ensures c.url in locks && !locks[c.url].held
      ensures if c.url in old(locks) then locks == old(locks)
              else fresh(locks[c.url]) && locks == old(locks)[c.url := locks[c.url]]
      ensures var t := Exec(c, s, es);
              && Between(s, t) && t.disk == Files(c.url)
              && t.outcomes == s.outcomes + (if answer.Some? then [r] else [])
      ensures answer.None? ==> ending.DiesAt?
      ensures answer.Some? ==> answer.value == Returned(r)
      ensures asked == old(asked) + if r.ServedFresh? then [] else [r.cond]
      ensures r.ServedFresh? <==> !refresh && Servable(s.disk, now, ttl)
      ensures r.ServedFresh? ==> answer.Some? && Some(r.body) == s.disk.body
      ensures r.Fetched? ==> r.seen == |s.history| && r.weather == w && r.cond == Headers(s.disk, refresh)
    {
      hide Encode, Decode, Exec, AfterStoreStep, AfterExchange, Next, Returned, Servable, Headers, Between;
      var mu := LockFor(c.url);
      mu.held := true;
      answer, es, r := FetchLocked(c, refresh, v, w, now, tmp, ending, s);
      mu.held := false;
    }

    /** `FetchStatic` for a state `s` of its key, while the key's mutex is free: a run of the
        step system from `s`. `None` means that the process died inside `store`. With a
        faithful server, a call that asked it returns what the plain GET would get, unless a
        304 spares a transfer that would have broken off: then it returns the current body. */
    method FetchStatic(c: Setting, noCache: bool, refresh: bool, v: Version, w: Weather, now: nat, tmp: nat,
                       ending: Ending, ghost s: State)
      returns (answer: Option<Answer>, ghost es: seq<Event>)
      requires WeatherOk(w) && c.ttl == ttl
      requires s.history != [] && Current(s) == v && s.clock == now && s.pc.Unlocked?
      requires s.disk == Files(c.url) && tmp !in s.disk.temps
      requires c.url in locks ==> !locks[c.url].held
      modifies this, if c.url in locks then {locks[c.url]} else {}
      ensures forall j :: j != c.url ==> Files(j) == old(Files(j))
      ensures if noCache || c.url in old(locks) then locks == old(locks)
              else c.url in locks && fresh(locks[c.url]) && locks == old(locks)[c.url := locks[c.url]]
      ensures c.url in locks ==> !locks[c.url].held
      ensures Between(s, Exec(c, s, es)) && Exec(c, s, es).disk == Files(c.url)
      ensures noCache ==> es == [] && answer == Some(PlainGet(c, v, w))
      ensures answer.None? ==> ending.DiesAt?
      ensures asked == old(asked) +
                if noCache then [Conditions("", "")]
                else if !refresh && Servable(s.disk, now, ttl) then []
                else [Headers(s.disk, refresh)]
      ensures !noCache && !refresh && Servable(s.disk, now, ttl) ==> answer == Some(Body(s.disk.body.value))
      ensures !noCache && !(!refresh && Servable(s.disk, now, ttl)) && Reachable(c, s) && Faithful(c, s.history) && answer.Some? ==>
                answer.value ==
                  if w.Cut? && Matches(c, v, Headers(s.disk, refresh)) then Body(v.body) else PlainGet(c, v, w)
    {
      if noCache {
        var plain := FetchRealtime(c, v, w);
        OneStep(c, s);
        return Some(plain), [];
      }
      hide Encode, Decode, Reachable, Exec, AfterStoreStep, AfterExchange, Next, Faithful, PlainGet, Servable, Headers, Matches;
      ghost var r;
      answer, es, r := FetchCached(c, refresh, v, w, now, tmp, ending, s);
      if Reachable(c, s) && Faithful(c, s.history) && answer.Some? && r.Fetched? {
        AskedAnswer(c, s, es, r);
      }
    }
  }

  /** The files are an entry that came without validators less than ttl ago. */
  predicate Servable(d: Disk, now: nat, ttl: int) {
    && d.body.Some? && d.meta.Some? && Decode(d.meta.value).Some?
    && var m := Decode(d.meta.value).value;
       m.etag == "" && m.lastModified == "" && now - m.fetchedAt < ttl
  }

  /** The conditional headers: the validators of a complete entry, unless a download is forced. */
  function Headers(d: Disk, refresh: bool): Conditions {
    if refresh || d.body.None? || d.meta.None? || Decode(d.meta.value).None? then Conditions("", "")
    else Conditions(Decode(d.meta.value).value.etag, Decode(d.meta.value).value.lastModified)
  }

  /** The calls' share of a run: the server and the clock stand still, and the lock is free
      again. */
  predicate Between(s: State, t: State) {
    t.history == s.history && t.clock == s.clock && t.pc.Unlocked?
  }

  /** Some run from an empty cache directory leads to `s`. */
  ghost predicate Reachable(c: Setting, s: State) {
    exists first :: Reaches(c, first, s)
  }

  /** What the exact agreement says of a call that has asked. */
  lemma AskedAnswer(c: Setting, s: State, es: seq<Event>, r: Outcome)
    requires s.history != [] && Reachable(c, s) && Faithful(c, s.history)
    requires Exec(c, s, es).history == s.history && Exec(c, s, es).outcomes == s.outcomes + [r]
    requires r.Fetched? && r.seen == |s.history|
    ensures Returned(r) ==
              if r.weather.Cut? && Matches(c, Current(s), r.cond) then Body(Current(s).body) else PlainGet(c, Current(s), r.weather)
  {
    hide Reaches, Exec, Faithful, Matches, PlainGet;
    var first :| Reaches(c, first, s);
    var t := Exec(c, s, es);
    ReachRun(c, first, s, es);
    assert t.outcomes[|s.outcomes|] == r && t.history[r.seen - 1] == Current(s);
    FaithfulServerAgrees(c, first, t, |s.outcomes|);
  }

  lemma BeginRun(c: Setting, s: State, refresh: bool) returns (t: State)
    requires s.history != [] && s.pc.Unlocked?
    ensures t == s.(pc := Loaded(refresh, Load(s.disk))) && Exec(c, s, [Begin(refresh)]) == t
  {
    OneStep(c, s);
    hide Encode, Decode, Load, Exec;
    t := Next(c, s, Begin(refresh));
    assert [] + [Begin(refresh)] == [Begin(refresh)];
    ExecStep(c, s, [], Begin(refresh));
  }

  lemma ServeRun(c: Setting, s: State, es: seq<Event>, t: State) returns (r: Outcome)
    requires s.history != [] && Exec(c, s, es) == t && t.pc.Loaded? && MayServe(c, t)
    ensures r == ServedFresh(t.pc.entry.value.body, t.clock) && Exec(c, s, es + [ServeFresh]) == Returning(t, r)
  {
    hide Encode, Decode, Exec;
    r := ServedFresh(t.pc.entry.value.body, t.clock);
    ExecStep(c, s, es, ServeFresh);
  }

  /** The exchange, with the answer that the program makes of the reply. */
  lemma ExchangeRun(c: Setting, s: State, es: seq<Event>, t: State, w: Weather) returns (r: Outcome)
    requires s.history != [] && Exec(c, s, es) == t && t.pc.Loaded? && !MayServe(c, t) && WeatherOk(w)
    ensures var reply := ServerReply(c, Current(t), ConditionsFor(t.pc.refresh, t.pc.entry), w);
            var u := Exec(c, s, es + [Exchange(w)]);
            && r.Fetched? && r.seen == |t.history| && r.weather == w && r.cond == ConditionsFor(t.pc.refresh, t.pc.entry)
            && r.result == (if reply.Silence? then NoResponse
                            else if reply.NotModified? && t.pc.entry.Some? then Body(t.pc.entry.value.body)
                            else if reply == Full(true) then Body(Current(t).body)
                            else if !reply.Full? then BadStatus(if reply.NotModified? then 304 else reply.code)
                            else ReadFailed)
            && u == if reply == Full(true)
                    then t.(pc := Storing(r, Entered), log := t.log + [Receipt(|t.history| - 1, t.clock)])
                    else Returning(t, r)
  {
    ExecStep(c, s, es, Exchange(w));
    ExchangeNext(c, t, w);
    hide Encode, Decode, Exec, Next, MayServe, Matches;
    var u := AfterExchange(c, t, w);
    r := if u.pc.Storing? then u.pc.pending else u.outcomes[|t.outcomes|];
  }

  lemma ReachRun(c: Setting, first: Version, s: State, es: seq<Event>)
    requires Reaches(c, first, s) && s.history != []
    ensures Reaches(c, first, Exec(c, s, es))
  {
    var before :| Exec(c, Init(first), before) == s;
    ExecConcat(c, Init(first), before, es);
  }

  /** The lock released, and the call's outcome recorded unless the process died. */
  ghost function Stopped(s: State, ending: Ending): State
    requires s.pc.Storing?
  {
    if ending.DiesAt? then s.(pc := Unlocked) else Returning(s, s.pc.pending)
  }

  ghost function AtRenamed(s: State): State
    requires StoreReady(s)
  {
    s.(pc := s.pc.(stage := Renamed), bodyFrom := |s.log| - 1)
  }

  /* ----- The events behind each file operation ----- */

  lemma OneStep(c: Setting, s: State)
    requires s.history != []
    ensures Exec(c, s, []) == s
  {}

  predicate OfStore(e: Event) {
    e.MakeTemp? || e.Fill? || e.CloseTemp? || e.Rename? || e.TruncateMeta? || e.WriteMeta? || e.Finish? || e.StoreFails?
  }

  lemma StoreNext(c: Setting, t: State, e: Event)
    requires t.history != [] && StoreReady(t) && OfStore(e)
    ensures Next(c, t, e) == AfterStoreStep(c, t, e)
  {
    hide AfterStoreStep, AfterExchange, MayServe, Load, StoreReady;
  }

  /** A step of `store`, appended to a run. */
  lemma StoreStep(c: Setting, s: State, es: seq<Event>, t: State, e: Event)
    requires s.history != [] && Exec(c, s, es) == t && StoreReady(t) && OfStore(e)
    ensures Exec(c, s, es + [e]) == AfterStoreStep(c, t, e)
  {
    hide *;
    ExecStep(c, s, es, e);
    StoreNext(c, t, e);
  }

  lemma CreateRun(c: Setting, s: State, es: seq<Event>, tmp: nat) returns (longer: seq<Event>, u: State)
    requires s.history != [] && Exec(c, s, es) == s
    requires StoreReady(s) && s.pc.stage == Entered && tmp !in s.disk.temps
    ensures u == s.(disk := s.disk.(temps := s.disk.temps[tmp := []]), pc := s.pc.(stage := Filling(tmp, 0)))
    ensures Exec(c, s, longer) == u
  {
    hide Encode, Exec, AfterExchange, Load, StoreReady;
    longer, u := es + [MakeTemp(tmp)], AfterStoreStep(c, s, MakeTemp(tmp));
    StoreStep(c, s, es, s, MakeTemp(tmp));
  }

  lemma FillRun(c: Setting, s: State, es: seq<Event>, t: State, n: nat) returns (longer: seq<Event>, u: State)
    requires s.history != [] && Exec(c, s, es) == t
    requires StoreReady(t) && t.pc.stage.Filling? && t.pc.stage.n <= n <= |StoredBody(t)|
    ensures var tmp := t.pc.stage.tmp;
            u == t.(disk := t.disk.(temps := t.disk.temps[tmp := StoredBody(t)[..n]]), pc := t.pc.(stage := Filling(tmp, n)))
    ensures Exec(c, s, longer) == u
  {
    hide Encode, Exec, AfterExchange, Load, StoreReady;
    longer, u := es + [Fill(n)], AfterStoreStep(c, t, Fill(n));
    StoreStep(c, s, es, t, Fill(n));
  }

  lemma CloseRun(c: Setting, s: State, es: seq<Event>, t: State) returns (longer: seq<Event>, u: State)
    requires s.history != [] && Exec(c, s, es) == t
    requires StoreReady(t) && t.pc.stage.Filling? && t.pc.stage.n == |StoredBody(t)|
    ensures u == t.(pc := t.pc.(stage := Filled(t.pc.stage.tmp)))
    ensures Exec(c, s, longer) == u
  {
    hide Encode, Exec, AfterExchange, Load, StoreReady;
    longer, u := es + [CloseTemp], AfterStoreStep(c, t, CloseTemp);
    StoreStep(c, s, es, t, CloseTemp);
  }

  lemma RenameRun(c: Setting, s: State, es: seq<Event>, t: State) returns (longer: seq<Event>)
    requires s.history != [] && Exec(c, s, es) == t
    requires StoreReady(t) && t.pc.stage.Filled? && t.pc.stage.tmp in t.disk.temps
    ensures var tmp := t.pc.stage.tmp;
            Exec(c, s, longer) ==
              AtRenamed(t.(disk := t.disk.(body := Some(t.disk.temps[tmp]), temps := t.disk.temps - {tmp})))
  {
    hide Encode, Exec, AfterExchange, Load, StoreReady;
    longer := es + [Rename];
    StoreStep(c, s, es, t, Rename);
  }

  lemma TruncateRun(c: Setting, s: State, es: seq<Event>) returns (longer: seq<Event>, u: State)
    requires s.history != [] && Exec(c, s, es) == s
    requires StoreReady(s) && s.pc.stage == Renamed
    ensures u == s.(disk := s.disk.(meta := Some("")), pc := s.pc.(stage := MetaOpen(0)), metaFrom := |s.log| - 1)
    ensures Exec(c, s, longer) == u
  {
    hide Encode, Exec, AfterExchange, Load, StoreReady;
    longer, u := es + [TruncateMeta], AfterStoreStep(c, s, TruncateMeta);
    StoreStep(c, s, es, s, TruncateMeta);
  }

  lemma MetaRun(c: Setting, s: State, es: seq<Event>, t: State, written: string) returns (longer: seq<Event>, u: State)
    requires s.history != [] && Exec(c, s, es) == t
    requires StoreReady(t) && t.pc.stage == MetaOpen(0)
    requires written <= Encode(ReceivedMeta(c, t, |t.log| - 1))
    ensures u == t.(disk := t.disk.(meta := Some(written)), pc := t.pc.(stage := MetaOpen(|written|)))
    ensures Exec(c, s, longer) == u
  {
    hide Encode, Exec, AfterExchange, Load;
    longer, u := es + [WriteMeta(|written|)], AfterStoreStep(c, t, WriteMeta(|written|));
    StoreStep(c, s, es, t, WriteMeta(|written|));
    assert Encode(ReceivedMeta(c, t, |t.log| - 1))[..|written|] == written;
  }

  lemma FinishRun(c: Setting, s: State, es: seq<Event>, t: State) returns (longer: seq<Event>)
    requires s.history != [] && Exec(c, s, es) == t
    requires StoreReady(t) && t.pc.stage == MetaOpen(|Encode(ReceivedMeta(c, t, |t.log| - 1))|)
    ensures Exec(c, s, longer) == Returning(t, t.pc.pending)
  {
    hide Encode, Exec, AfterExchange, Load, StoreReady;
    longer := es + [Finish];
    StoreStep(c, s, es, t, Finish);
  }

  /** The disk after a call that gives up with its temporary file `tmp`. */
  ghost function GivenUp(t: State, ending: Ending, tmp: nat): Disk
    requires t.pc.Storing?
  {
    if ending.FailsAt? && ending.removed && (t.pc.stage.Filling? || t.pc.stage.Filled?)
    then t.disk.(temps := t.disk.temps - {tmp})
    else t.disk
  }

  lemma FailStep(c: Setting, t: State, ending: Ending, tmp: nat)
    requires t.history != [] && StoreReady(t) && ending.FailsAt?
    requires t.pc.stage.Filling? || t.pc.stage.Filled? ==> t.pc.stage.tmp == tmp
    ensures AfterStoreStep(c, t, StoreFails(ending.removed)) == Stopped(t.(disk := GivenUp(t, ending, tmp)), ending)
  {
    hide Encode, ReceivedMeta, StoredBody;
  }

  /** An error, with the temporary file removed or left, or a crash. */
  lemma StopRun(c: Setting, s: State, es: seq<Event>, t: State, ending: Ending, tmp: nat) returns (longer: seq<Event>)
    requires s.history != [] && Exec(c, s, es) == t && StoreReady(t) && !ending.Completes?
    requires t.pc.stage.Filling? || t.pc.stage.Filled? ==> t.pc.stage.tmp == tmp
    ensures Exec(c, s, longer) == Stopped(t.(disk := GivenUp(t, ending, tmp)), ending)
  {
    hide Encode, Exec, AfterStoreStep, AfterExchange, Load, MayServe;
    if ending.FailsAt? {
      longer := es + [StoreFails(ending.removed)];
      StoreStep(c, s, es, t, StoreFails(ending.removed));
      FailStep(c, t, ending, tmp);
    } else {
      longer := es + [Crash];
      ExecStep(c, s, es, Crash);
    }
  }
}
