/** One key of the static-feed cache as a step system: the disk, the caller that holds
    the key's lock, a server that changes over time, failing writes and process crashes.

    Every run is a sequence of events. A disabled event leaves the state unchanged, so
    `Exec` is total and every statement about `Exec` is about every run. `log`,
    `bodyFrom`, `metaFrom` and `outcomes` are history variables: no step reads them to
    decide what to do. */
module CacheSystem {
  import opened Strings
  import opened MetaText

  type Bytes = seq<bv8>

  /* ----- Server ----- */

  /** What the server serves between two changes. */
  datatype Version = Version(etag: string, lastModified: string, body: Bytes)

  /** The conditional headers of a request; blank means absent. */
  datatype Conditions = Conditions(ifNoneMatch: string, ifModifiedSince: string)

  const UNCONDITIONAL := Conditions("", "")

  /** How the next exchange goes: the answer arrives, its body breaks off, the server
      answers with another status, or nothing comes back. */
  datatype Weather = Up | Cut | Refuse(status: nat) | Down

  /** `notLater` is the server's comparison of two Last-Modified texts. */
  datatype Setting = Setting(url: string, ttl: int, notLater: (string, string) -> bool)

  /** Section 13.2.2 of RFC 9110: If-None-Match decides alone when it is present. */
  predicate Matches(c: Setting, v: Version, cond: Conditions) {
    if cond.ifNoneMatch != "" then v.etag == cond.ifNoneMatch
    else cond.ifModifiedSince != "" && v.lastModified != "" && c.notLater(v.lastModified, cond.ifModifiedSince)
  }

  datatype Reply = Silence | Status(code: nat) | NotModified | Full(whole: bool)

  /** A 304 answers only a matching conditional request that would otherwise get a 200. */
  function ServerReply(c: Setting, v: Version, cond: Conditions, w: Weather): Reply {
    match w
    case Down => Silence
    case Refuse(status) => Status(status)
    case Up => if Matches(c, v, cond) then NotModified else Full(true)
    case Cut => if Matches(c, v, cond) then NotModified else Full(false)
  }

  /** A plain request is never answered with a 304, and a 200 has a body. */
  predicate WeatherOk(w: Weather) {
    w.Refuse? ==> w.status != 200 && w.status != 304
  }

  datatype Answer = Body(bytes: Bytes) | NoResponse | BadStatus(code: nat) | ReadFailed

  /** `FetchRealtime`: the uncached GET. */
  function PlainGet(c: Setting, v: Version, w: Weather): Answer {
    match ServerReply(c, v, UNCONDITIONAL, w)
    case Silence => NoResponse
    case Status(code) => BadStatus(code)
    case NotModified => BadStatus(304)
    case Full(whole) => if whole then Body(v.body) else ReadFailed
  }

  /* ----- Disk ----- */

  /** The files of one key. `temps` holds temporary files by name. */
  datatype Disk = Disk(body: Option<Bytes>, meta: Option<string>, temps: map<nat, Bytes>)

  datatype Entry = Entry(body: Bytes, meta: Meta)

  /** `load`. */
  function Load(d: Disk): Option<Entry> {
    if d.body.None? || d.meta.None? || Decode(d.meta.value).None? then None
    else Some(Entry(d.body.value, Decode(d.meta.value).value))
  }

  /** `fresh`. */
  predicate Fresh(m: Meta, now: nat, ttl: int) {
    m.etag == "" && m.lastModified == "" && now - m.fetchedAt < ttl
  }

  /** The headers `FetchStatic` sets. */
  function ConditionsFor(refresh: bool, entry: Option<Entry>): Conditions {
    if entry.None? || refresh then UNCONDITIONAL
    else Conditions(entry.value.meta.etag, entry.value.meta.lastModified)
  }

  /* ----- State ----- */

  /** A 200 response whose body was read to the end. */
  datatype Receipt = Receipt(version: nat, at: nat)

  /** Where `store` is: before the temporary file, writing it, closed, renamed, or with
      `n` characters of the meta file written. */
  datatype Stage = Entered | Filling(tmp: nat, n: nat) | Filled(tmp: nat) | Renamed | MetaOpen(n: nat)

  /** What a finished call returned. `seen` counts the versions published by the time of
      the exchange, so `history[seen - 1]` was current. */
  datatype Outcome =
    | ServedFresh(body: Bytes, at: nat)
    | Fetched(result: Answer, seen: nat, weather: Weather, cond: Conditions)

  /** What the caller gets. */
  function Returned(r: Outcome): Answer {
    if r.ServedFresh? then Body(r.body) else r.result
  }

  /** The caller that holds the key's lock, if any. */
  datatype Pc =
    | Unlocked
    | Loaded(refresh: bool, entry: Option<Entry>)
    | Storing(pending: Outcome, stage: Stage)

  datatype State = State(
    history: seq<Version>,
    clock: nat,
    disk: Disk,
    pc: Pc,
    log: seq<Receipt>,
    bodyFrom: nat,
    metaFrom: nat,
    outcomes: seq<Outcome>
  )

  datatype Event =
    | Publish(v: Version) | Tick(d: nat)
    | Begin(refresh: bool) | ServeFresh | Exchange(weather: Weather)
    | MakeTemp(tmp: nat) | Fill(n: nat) | CloseTemp | Rename | TruncateMeta | WriteMeta(n: nat) | Finish
    | StoreFails(tempRemoved: bool)
    | Crash

  /** An empty cache directory and a server with its first version. */
  function Init(first: Version): State {
    State([first], 0, Disk(None, None, map[]), Unlocked, [], 0, 0, [])
  }

  /* ----- Steps ----- */

  function Current(s: State): Version
    requires s.history != []
  {
    s.history[|s.history| - 1]
  }

  /** The bytes and the meta that receipt `i` brings to the disk. */
  function ReceivedBody(s: State, i: nat): Bytes
    requires i < |s.log| && s.log[i].version < |s.history|
  {
    s.history[s.log[i].version].body
  }

  function ReceivedMeta(c: Setting, s: State, i: nat): Meta
    requires i < |s.log| && s.log[i].version < |s.history|
  {
    var v := s.history[s.log[i].version];
    Meta(c.url, v.etag, v.lastModified, s.log[i].at)
  }

  function Returning(s: State, r: Outcome): State {
    s.(pc := Unlocked, outcomes := s.outcomes + [r])
  }

  /** The loaded entry is served without a request. */
  predicate MayServe(c: Setting, s: State)
    requires s.pc.Loaded?
  {
    s.pc.entry.Some? && !s.pc.refresh && Fresh(s.pc.entry.value.meta, s.clock, c.ttl)
  }

  /** The request of a call that holds the lock, up to its return or to `store`. */
  function AfterExchange(c: Setting, s: State, w: Weather): State
    requires s.pc.Loaded? && s.history != []
  {
    var cond := ConditionsFor(s.pc.refresh, s.pc.entry);
    var answered := (a: Answer) => Fetched(a, |s.history|, w, cond);
    match ServerReply(c, Current(s), cond, w)
    case Silence => Returning(s, answered(NoResponse))
    case Status(code) => Returning(s, answered(BadStatus(code)))
    case NotModified =>
      Returning(s, answered(if s.pc.entry.Some? then Body(s.pc.entry.value.body) else BadStatus(304)))
    case Full(whole) =>
      if !whole then Returning(s, answered(ReadFailed))
      else s.(pc := Storing(answered(Body(Current(s).body)), Entered),
              log := s.log + [Receipt(|s.history| - 1, s.clock)])
  }

  /** The body that is being stored. */
  function StoredBody(s: State): Bytes
    requires s.pc.Storing? && s.pc.pending.Fetched? && s.pc.pending.result.Body?
  {
    s.pc.pending.result.bytes
  }

  /** The last receipt is the one being stored. */
  predicate StoreReady(s: State) {
    && s.pc.Storing? && s.pc.pending.Fetched? && s.pc.pending.result.Body?
    && s.log != [] && s.log[|s.log| - 1].version < |s.history|
  }

  function AfterStoreStep(c: Setting, s: State, e: Event): State
    requires StoreReady(s)
  {
    var text := Encode(ReceivedMeta(c, s, |s.log| - 1));
    match (e, s.pc.stage)
    case (MakeTemp(tmp), Entered) =>
      if tmp in s.disk.temps then s
      else s.(disk := s.disk.(temps := s.disk.temps[tmp := []]), pc := s.pc.(stage := Filling(tmp, 0)))
    case (Fill(n), Filling(tmp, old_n)) =>
      if n < old_n || n > |StoredBody(s)| then s
      else s.(disk := s.disk.(temps := s.disk.temps[tmp := StoredBody(s)[..n]]), pc := s.pc.(stage := Filling(tmp, n)))
    case (CloseTemp, Filling(tmp, n)) =>
      if n != |StoredBody(s)| then s else s.(pc := s.pc.(stage := Filled(tmp)))
    case (Rename, Filled(tmp)) =>
      if tmp !in s.disk.temps then s
      else s.(disk := s.disk.(body := Some(s.disk.temps[tmp]), temps := s.disk.temps - {tmp}),
              pc := s.pc.(stage := Renamed), bodyFrom := |s.log| - 1)
    case (TruncateMeta, Renamed) =>
      s.(disk := s.disk.(meta := Some("")), pc := s.pc.(stage := MetaOpen(0)), metaFrom := |s.log| - 1)
    case (WriteMeta(n), MetaOpen(old_n)) =>
      if n < old_n || n > |text| then s
      else s.(disk := s.disk.(meta := Some(text[..n])), pc := s.pc.(stage := MetaOpen(n)))
    case (Finish, MetaOpen(n)) =>
      if n != |text| then s else Returning(s, s.pc.pending)
    case (StoreFails(removed), Filling(tmp, _)) =>
      Returning(if removed then s.(disk := s.disk.(temps := s.disk.temps - {tmp})) else s, s.pc.pending)
    case (StoreFails(removed), Filled(tmp)) =>
      Returning(if removed then s.(disk := s.disk.(temps := s.disk.temps - {tmp})) else s, s.pc.pending)
    case (StoreFails(_), _) => Returning(s, s.pc.pending)
    case _ => s
  }

  function Next(c: Setting, s: State, e: Event): State
    requires s.history != []
    ensures Next(c, s, e).history != []
  {
    match e
    case Publish(v) => s.(history := s.history + [v])
    case Tick(d) => s.(clock := s.clock + d)
    case Crash => s.(pc := Unlocked)
    case Begin(refresh) => if s.pc.Unlocked? then s.(pc := Loaded(refresh, Load(s.disk))) else s
    case ServeFresh =>
      if s.pc.Loaded? && MayServe(c, s) then Returning(s, ServedFresh(s.pc.entry.value.body, s.clock)) else s
    case Exchange(w) =>
      if s.pc.Loaded? && !MayServe(c, s) && WeatherOk(w) then AfterExchange(c, s, w) else s
    case _ => if StoreReady(s) then AfterStoreStep(c, s, e) else s
  }

  function Exec(c: Setting, s: State, es: seq<Event>): State
    requires s.history != []
    ensures Exec(c, s, es).history != []
    decreases |es|
  {
    if es == [] then s else Next(c, Exec(c, s, es[..|es| - 1]), es[|es| - 1])
  }

  lemma {:induction false} ExecConcat(c: Setting, s: State, a: seq<Event>, b: seq<Event>)
    requires s.history != []
    ensures Exec(c, s, a + b) == Exec(c, Exec(c, s, a), b)
    decreases |b|
  {
    if b == [] {
      assert a + b == a;
    } else {
      assert (a + b)[..|a + b| - 1] == a + b[..|b| - 1];
      ExecConcat(c, s, a, b[..|b| - 1]);
    }
  }
}
