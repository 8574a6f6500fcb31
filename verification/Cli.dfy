/** One run of the command: output first, then at most one row, then the exit code; and what
    a database holds after any number of runs. */
module Cli {
  import opened Strings
  import opened Redaction
  import opened Sink

  datatype Settings = Settings(apiKey: string, sink: Sink.Config)

  /** Arguments and configuration: refused, not loadable, or good. `secrets` are the ones
      found in the raw argument. */
  datatype Loaded = Usage | BadConfig(message: string, secrets: seq<string>) | Good(cfg: Settings)

  /** `renderJSON`: bytes (`None` is a nil slice) or an error. */
  datatype Rendering = RenderFailed(message: string) | Rendered(bytes: Option<string>)

  datatype Ran = RunFailed(message: string) | Reported(json: Rendering, text: string)

  /** Everything one run meets. `errorDoc` renders the error document. */
  datatype Invocation = Invocation(jsonOut: bool, loaded: Loaded, ran: Ran, errorDoc: string -> Option<string>, fault: Fault)

  /** Standard output; it fails once `room` more bytes are written. */
  class Stream {
    var text: string
    var room: nat

    constructor (room: nat)
      ensures text == "" && this.room == room
    {
      text, this.room := "", room;
    }

    method Write(s: string) returns (ok: bool)
      modifies this
      ensures ok <==> |s| <= old(room)
      ensures text == old(text) + Cut(s, old(room)) && room == old(room) - |Cut(s, old(room))|
    {
      ok := |s| <= room;
      var part := Cut(s, room);
      text, room := text + part, room - |part|;
    }
  }

  function Cut(s: string, room: nat): (r: string)
    ensures r <= s && |r| == if |s| <= room then |s| else room
  {
    if |s| <= room then s else s[..room]
  }

  /* ----- What a run does ----- */

  function ErrorText(cfg: Settings, message: string): string {
    Scrubbed(message, [cfg.apiKey, cfg.sink.dbPass])
  }

  function BytesOf(b: Option<string>): string {
    if b.Some? then b.value else ""
  }

  /** What the run sends to standard output. */
  function Output(inv: Invocation): string {
    match inv.loaded
    case Usage => ""
    case BadConfig(message, secrets) =>
      if inv.jsonOut then BytesOf(inv.errorDoc(Scrubbed(message, secrets))) else ""
    case Good(cfg) =>
      match inv.ran
      case RunFailed(message) => if inv.jsonOut then BytesOf(inv.errorDoc(ErrorText(cfg, message))) else ""
      case Reported(json, text) =>
        if !inv.jsonOut then text else if json.Rendered? then BytesOf(json.bytes) else ""
  }

  function ExitOf(inv: Invocation, room: nat): int {
    if !inv.loaded.Good? || inv.ran.RunFailed? then 2
    else if inv.jsonOut && inv.ran.json.RenderFailed? then 2
    else if |Output(inv)| > room then 2
    else 0
  }

  function RowOfReport(json: Rendering): Option<Row> {
    match json
    case RenderFailed(m) => Some(Row("error", "", "internal: render JSON failed: " + m))
    case Rendered(None) => None
    case Rendered(Some(bytes)) => Some(Row("completed", bytes, ""))
  }

  /** The row a run tries to write when its sink is active. */
  function RowOf(inv: Invocation, room: nat): Option<Row> {
    if !inv.loaded.Good? then None
    else if inv.ran.RunFailed? then Some(Row("error", "", ErrorText(inv.loaded.cfg, inv.ran.message)))
    else if |Output(inv)| > room then None
    else RowOfReport(inv.ran.json)
  }

  /** The tables after the run. */
  function Recorded(ts: Tables, inv: Invocation, room: nat): Tables {
    var row := RowOf(inv, room);
    if row.Some? && Accepts(inv.loaded.cfg.sink, row.value.status)
    then Applied(ts, inv.loaded.cfg.sink, row.value, inv.fault)
    else ts
  }

  /** Writes a row if the sink is active; an error only goes to standard error. */
  method WriteRow(db: Database, c: Sink.Config, row: Row, fault: Fault)
    modifies db
    ensures db.tables == if Accepts(c, row.status) then Applied(old(db.tables), c, row, fault) else old(db.tables)
  {
    if Configured(c) {
      var err := db.Write(c, row.status, row.resultData, row.errorMessage, fault);
    } else {
      TrimBlank(c.dbURL);
    }
  }

  /** The part of `run` behind a successful validation. */
  method Finish(inv: Invocation, stdout: Stream, db: Database) returns (exit: int)
    requires inv.loaded.Good? && inv.ran.Reported?
    modifies stdout, db
    ensures exit == ExitOf(inv, old(stdout.room))
    ensures stdout.text == old(stdout.text) + Cut(Output(inv), old(stdout.room))
    ensures db.tables == Recorded(old(db.tables), inv, old(stdout.room))
  {
    var sink := inv.loaded.cfg.sink;
    var rendering := inv.ran.json;
    var reportBytes: Option<string> := None;
    if inv.jsonOut {
      if rendering.RenderFailed? {
        WriteRow(db, sink, Row("error", "", "internal: render JSON failed: " + rendering.message), inv.fault);
        return 2;
      }
      reportBytes := rendering.bytes;
      var ok := stdout.Write(BytesOf(reportBytes));
      if !ok {
        return 2;
      }
    } else {
      var ok := stdout.Write(inv.ran.text);
      if !ok {
        return 2;
      }
      TrimBlank(sink.dbURL);
      if Configured(sink) {
        if rendering.RenderFailed? {
          WriteRow(db, sink, Row("error", "", "internal: render JSON failed: " + rendering.message), inv.fault);
          return 0;
        }
        reportBytes := rendering.bytes;
      }
    }
    if reportBytes.Some? {
      WriteRow(db, sink, Row("completed", reportBytes.value, ""), inv.fault);
    }
    return 0;
  }

  /** `run`. */
  method Run(inv: Invocation, stdout: Stream, db: Database) returns (exit: int)
    modifies stdout, db
    ensures exit == ExitOf(inv, old(stdout.room))
    ensures stdout.text == old(stdout.text) + Cut(Output(inv), old(stdout.room))
    ensures db.tables == Recorded(old(db.tables), inv, old(stdout.room))
  {
    if inv.loaded.Usage? {
      return 2;
    }
    if inv.loaded.BadConfig? {
      var msg := Scrub(inv.loaded.message, inv.loaded.secrets);
      if inv.jsonOut && inv.errorDoc(msg).Some? {
        var ok := stdout.Write(inv.errorDoc(msg).value);
      }
      return 2;
    }
    var cfg := inv.loaded.cfg;
    if inv.ran.RunFailed? {
      var errMsg := Scrub(inv.ran.message, [cfg.apiKey, cfg.sink.dbPass]);
      if inv.jsonOut && inv.errorDoc(errMsg).Some? {
        var ok := stdout.Write(inv.errorDoc(errMsg).value);
      }
      WriteRow(db, cfg.sink, Row("error", "", errMsg), inv.fault);
      return 2;
    }
    exit := Finish(inv, stdout, db);
  }

  /* ----- What the tables promise after any sequence of runs ----- */

  datatype Call = Call(inv: Invocation, room: nat)

  function Runs(ts: Tables, calls: seq<Call>): Tables {
    if calls == [] then ts
    else
      var last := calls[|calls| - 1];
      Recorded(Runs(ts, calls[..|calls| - 1]), last.inv, last.room)
  }

  /** The place a run writes to. */
  function PlaceOf(inv: Invocation): (string, string)
    requires inv.loaded.Good?
  {
    (inv.loaded.cfg.sink.resultTable, inv.loaded.cfg.sink.correlationID)
  }

  predicate Active(inv: Invocation) {
    inv.loaded.Good? && !Blank(inv.loaded.cfg.sink.dbURL) && Complete(inv.loaded.cfg.sink)
  }

  /** A run adds at most the row of its own correlation id, only to the table the program
      owns, and only with an active sink; whatever was there stays as it was. */
  lemma OneRowPerRun(ts: Tables, inv: Invocation, room: nat)
    ensures var after := Recorded(ts, inv, room);
            forall name, id ::
              && (HasRow(ts, name, id) ==> HasRow(after, name, id) && after[name][id] == ts[name][id])
              && (HasRow(after, name, id) && !HasRow(ts, name, id) ==>
                    Active(inv) && (name, id) == PlaceOf(inv) && name in ALLOWED)
  {
    hide Output, ErrorText, RowOfReport, Blank;
  }

  /** The first row of a correlation id is never changed or removed. */
  lemma {:induction false} FirstRowStays(ts: Tables, calls: seq<Call>, name: string, id: string)
    requires HasRow(ts, name, id)
    ensures HasRow(Runs(ts, calls), name, id) && Runs(ts, calls)[name][id] == ts[name][id]
    decreases |calls|
  {
    if calls != [] {
      FirstRowStays(ts, calls[..|calls| - 1], name, id);
      var last := calls[|calls| - 1];
      OneRowPerRun(Runs(ts, calls[..|calls| - 1]), last.inv, last.room);
    }
  }

  function ActiveRuns(calls: seq<Call>): nat {
    if calls == [] then 0
    else ActiveRuns(calls[..|calls| - 1]) + if Active(calls[|calls| - 1].inv) then 1 else 0
  }

  /** `places` covers the rows of `ts`. */
  ghost predicate Covers(ts: Tables, places: set<(string, string)>) {
    forall name, id :: HasRow(ts, name, id) ==> (name, id) in places
  }

  /** From an empty database, there are never more rows than runs with an active sink, and
      every row is at the place of one of them. */
  lemma {:induction false} RowsAreFew(calls: seq<Call>) returns (places: set<(string, string)>)
    ensures Covers(Runs(map[], calls), places) && |places| <= ActiveRuns(calls)
    ensures forall p <- places :: exists c <- calls :: Active(c.inv) && p == PlaceOf(c.inv)
    decreases |calls|
  {
    places := {};
    if calls != [] {
      var front, last := calls[..|calls| - 1], calls[|calls| - 1];
      places := RowsAreFew(front);
      OneRowPerRun(Runs(map[], front), last.inv, last.room);
      if Active(last.inv) {
        places := places + {PlaceOf(last.inv)};
      }
    }
  }

  /** Completed with a report and no error, or an error and no report. */
  predicate GoodRow(row: Row) {
    || (row.status == "completed" && row.errorMessage == "")
    || (row.status == "error" && row.resultData == "")
  }

  ghost predicate GoodRows(ts: Tables) {
    forall name, id :: HasRow(ts, name, id) ==> GoodRow(ts[name][id])
  }

  /** Every row of any history of runs is of one of the two kinds. */
  lemma {:induction false} RowsAreGood(ts: Tables, calls: seq<Call>)
    requires GoodRows(ts)
    ensures GoodRows(Runs(ts, calls))
    decreases |calls|
  {
    if calls != [] {
      var front, last := calls[..|calls| - 1], calls[|calls| - 1];
      RowsAreGood(ts, front);
      OneRowPerRun(Runs(ts, front), last.inv, last.room);
      forall name, id | HasRow(Runs(ts, calls), name, id) && !HasRow(Runs(ts, front), name, id)
        ensures GoodRow(Runs(ts, calls)[name][id])
      {
        NewRow(Runs(ts, front), last.inv, last.room, name, id);
      }
    }
  }

  lemma NewRow(ts: Tables, inv: Invocation, room: nat, name: string, id: string)
    requires !HasRow(ts, name, id) && HasRow(Recorded(ts, inv, room), name, id)
    ensures RowOf(inv, room) == Some(Recorded(ts, inv, room)[name][id])
    ensures GoodRow(Recorded(ts, inv, room)[name][id])
  {
  }

  /** In JSON mode a new completed row holds exactly the bytes that standard output got, and
      the run ends with 0; an error row comes with exit code 2. */
  lemma NewRowMatchesOutput(ts: Tables, inv: Invocation, room: nat, name: string, id: string)
    requires inv.jsonOut
    requires !HasRow(ts, name, id) && HasRow(Recorded(ts, inv, room), name, id)
    ensures var row := Recorded(ts, inv, room)[name][id];
            && (row.status == "completed" ==> row.resultData == Cut(Output(inv), room) && ExitOf(inv, room) == 0)
            && (row.status == "error" ==> ExitOf(inv, room) == 2)
  {
    NewRow(ts, inv, room, name, id);
  }

  /** With a database that works, the caller finds a row for its correlation id exactly when
      there already was one, or the validation failed, or the output was accepted and the
      report could be rendered or its rendering failed; in JSON mode a failed rendering needs
      no output. */
  lemma CallerFindsRow(ts: Tables, inv: Invocation, room: nat)
    requires Active(inv) && inv.fault.Works?
    ensures var place := PlaceOf(inv);
            HasRow(Recorded(ts, inv, room), place.0, place.1) <==>
            || HasRow(ts, place.0, place.1)
            || inv.ran.RunFailed?
            || (|Output(inv)| <= room && inv.ran.json != Rendered(None))
  {
  }

  /** The exit code: 0 exactly when a report came out, 2 otherwise. */
  lemma ExitMeans(inv: Invocation, room: nat)
    ensures ExitOf(inv, room) == 0 || ExitOf(inv, room) == 2
    ensures ExitOf(inv, room) == 0 <==>
              && inv.loaded.Good? && inv.ran.Reported?
              && (if inv.jsonOut then inv.ran.json.Rendered? && (inv.ran.json.bytes.None? || |inv.ran.json.bytes.value| <= room)
                  else |inv.ran.text| <= room)
  {
  }

  /** Neither the state of the database, nor its faults, nor the sink's address change the
      exit code or the output. */
  lemma SinkNeverMatters(inv: Invocation, other: Invocation, room: nat)
    requires inv.loaded.Good? && other.loaded.Good?
    requires other == inv.(fault := other.fault, loaded := other.loaded)
    requires other.loaded.cfg.apiKey == inv.loaded.cfg.apiKey && other.loaded.cfg.sink.dbPass == inv.loaded.cfg.sink.dbPass
    ensures ExitOf(inv, room) == ExitOf(other, room) && Output(inv) == Output(other)
  {
  }

  /** The error row of a failed validation holds neither the API key nor the password. */
  lemma ErrorRowHidesSecrets(inv: Invocation, room: nat)
    requires inv.loaded.Good? && inv.ran.RunFailed?
    ensures var cfg, row := inv.loaded.cfg, RowOf(inv, room).value;
            && (Removable(cfg.apiKey) ==> !Contains(row.errorMessage, cfg.apiKey))
            && (Removable(cfg.sink.dbPass) ==> !Contains(row.errorMessage, cfg.sink.dbPass))
  {
    var cfg := inv.loaded.cfg;
    if Removable(cfg.apiKey) {
      ScrubRemoves(inv.ran.message, [cfg.apiKey, cfg.sink.dbPass], cfg.apiKey);
    }
    if Removable(cfg.sink.dbPass) {
      ScrubRemoves(inv.ran.message, [cfg.apiKey, cfg.sink.dbPass], cfg.sink.dbPass);
    }
  }
}
