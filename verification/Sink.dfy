/** The optional result table: when it is active, which configurations it accepts, and how a
    row gets in. */
module Sink {
  import opened Strings
  import opened Redaction

  datatype Config = Config(dbURL: string, dbUser: string, dbPass: string, correlationID: string, resultTable: string)

  const SPACES := {'\t', '\n', 0x0B as char, 0x0C as char, '\r', ' '}

  predicate Blank(s: string) {
    forall i :: 0 <= i < |s| ==> s[i] in SPACES
  }

  function TrimLeft(s: string): string {
    if s != "" && s[0] in SPACES then TrimLeft(s[1..]) else s
  }

  function TrimRight(s: string): string {
    if s != "" && s[|s| - 1] in SPACES then TrimRight(s[..|s| - 1]) else s
  }

  /** `strings.TrimSpace`, for ASCII. */
  function TrimSpace(s: string): string {
    TrimRight(TrimLeft(s))
  }

  lemma {:induction false} TrimLeftBlank(s: string)
    ensures TrimLeft(s) == "" <==> Blank(s)
  {
    if s != "" && s[0] in SPACES {
      TrimLeftBlank(s[1..]);
      assert forall i :: 0 < i < |s| ==> s[i] == s[1..][i - 1];
    }
  }

  /** Nothing is left exactly when everything was white space. */
  lemma TrimBlank(s: string)
    ensures TrimSpace(s) == "" <==> Blank(s)
  {
    TrimLeftBlank(s);
    TrimLeftStops(s);
    var t := TrimLeft(s);
    if t != "" {
      TrimRightKeepsHead(t);
    }
  }

  lemma {:induction false} TrimLeftStops(s: string)
    ensures TrimLeft(s) == "" || TrimLeft(s)[0] !in SPACES
  {
    if s != "" && s[0] in SPACES {
      TrimLeftStops(s[1..]);
    }
  }

  lemma {:induction false} TrimRightKeepsHead(t: string)
    requires t != "" && t[0] !in SPACES
    ensures TrimRight(t) != ""
    decreases |t|
  {
    if t[|t| - 1] in SPACES {
      TrimRightKeepsHead(t[..|t| - 1]);
    }
  }

  predicate Configured(c: Config) {
    TrimSpace(c.dbURL) != ""
  }

  const ALLOWED := {"oba_validator_results"}

  const FIELDS := ["db_user", "db_pass", "correlation_id", "result_table"]

  function FieldAt(c: Config, i: nat): string
    requires i < 4
  {
    if i == 0 then c.dbUser else if i == 1 then c.dbPass else if i == 2 then c.correlationID else c.resultTable
  }

  datatype WriteError =
    | Unconfigured | UnknownStatus(status: string)
    | Missing(field: string) | UnknownTable(name: string)
    | Database(message: string)

  /** All five inputs are there and the table is one the program may write. */
  predicate Complete(c: Config) {
    (forall i :: 0 <= i < 4 ==> !Blank(FieldAt(c, i))) && c.resultTable in ALLOWED
  }

  /** `Validate`: names the first offending field. */
  method Validate(c: Config) returns (err: Option<WriteError>)
    ensures err == None <==> Blank(c.dbURL) || Complete(c)
    ensures err ==
            if Blank(c.dbURL) then None
            else if Blank(c.dbUser) then Some(Missing("db_user"))
            else if Blank(c.dbPass) then Some(Missing("db_pass"))
            else if Blank(c.correlationID) then Some(Missing("correlation_id"))
            else if Blank(c.resultTable) then Some(Missing("result_table"))
            else if c.resultTable != "oba_validator_results" then Some(UnknownTable(c.resultTable))
            else None
  {
    hide Blank;
    TrimBlank(c.dbURL);
    if !Configured(c) {
      return None;
    }
    for i := 0 to 4
      invariant forall j: nat :: j < i ==> !Blank(FieldAt(c, j))
    {
      assert FIELDS[i] == ["db_user", "db_pass", "correlation_id", "result_table"][i];
      TrimBlank(FieldAt(c, i));
      if TrimSpace(FieldAt(c, i)) == "" {
        assert i > 0 ==> !Blank(FieldAt(c, 0));
        assert i > 1 ==> !Blank(FieldAt(c, 1));
        assert i > 2 ==> !Blank(FieldAt(c, 2));
        return Some(Missing(FIELDS[i]));
      }
    }
    assert !Blank(FieldAt(c, 0)) && !Blank(FieldAt(c, 1)) && !Blank(FieldAt(c, 2)) && !Blank(FieldAt(c, 3));
    if c.resultTable !in ALLOWED {
      return Some(UnknownTable(c.resultTable));
    }
    return None;
  }

  /* ----- Errors without the password ----- */

  predicate Unreserved(c: char) {
    'a' <= c <= 'z' || 'A' <= c <= 'Z' || '0' <= c <= '9' || c in {'-', '_', '.', '~'}
  }

  function HexDigit(n: nat): (c: char)
    requires n < 16
    ensures '0' <= c <= '9' || 'A' <= c <= 'F'
  {
    if n < 10 then ('0' as int + n) as char else ('A' as int + n - 10) as char
  }

  /** When a row may be written, input by input. */
  lemma AcceptsExactly(c: Config, status: string)
    ensures Accepts(c, status) <==>
      && (status == "completed" || status == "error")
      && (exists i :: 0 <= i < |c.dbURL| && !Space(c.dbURL[i]))
      && (exists i :: 0 <= i < |c.dbUser| && !Space(c.dbUser[i]))
      && (exists i :: 0 <= i < |c.dbPass| && !Space(c.dbPass[i]))
      && (exists i :: 0 <= i < |c.correlationID| && !Space(c.correlationID[i]))
      && c.resultTable == "oba_validator_results"
  {
    assert !Blank("oba_validator_results") by {
      assert "oba_validator_results"[0] !in SPACES;
    }
    assert forall i: nat :: i < 4 ==> FieldAt(c, i) == [c.dbUser, c.dbPass, c.correlationID, c.resultTable][i];
    assert Complete(c) <==> !Blank(c.dbUser) && !Blank(c.dbPass) && !Blank(c.correlationID) && c.resultTable == "oba_validator_results" by {
      assert FieldAt(c, 0) == c.dbUser && FieldAt(c, 1) == c.dbPass && FieldAt(c, 2) == c.correlationID && FieldAt(c, 3) == c.resultTable;
    }
  }

  /** Tab, line feed, vertical tab, form feed, carriage return, space. */
  predicate Space(c: char) {
    c as int == 32 || 9 <= c as int <= 13
  }

  lemma SpacesMean(c: char)
    ensures c in SPACES <==> Space(c)
  {
  }

  /** What the escapes of a password in a query and in the user part of a URL share. */
  function HexEscape(c: char): (r: string)
    ensures |r| == 3 && r[0] == '%' && '*' !in r && '+' !in r
    ensures r[1] != '%' && r[2] != '%'
  {
    ['%', HexDigit(c as int % 256 / 16), HexDigit(c as int % 16)]
  }

  /** Characters that `url.UserPassword` leaves and `url.QueryEscape` escapes. */
  const DELIMITERS := {'$', '&', '+', ',', ';', '='}

  /** `url.QueryEscape`. */
  function QueryEscape(s: string): (r: string)
    ensures '*' !in r && (s != "" ==> r != "")
  {
    if s == "" then "" else QueryChar(s[0]) + QueryEscape(s[1..])
  }

  function QueryChar(c: char): (r: string)
    ensures r != "" && '*' !in r
  {
    if Unreserved(c) then [c] else if c == ' ' then "+" else HexEscape(c)
  }

  /** The form in which a connection string holds the password: `url.UserPassword`. */
  function UserEscape(s: string): (r: string)
    ensures '*' !in r && (s != "" ==> r != "")
  {
    if s == "" then "" else UserChar(s[0]) + UserEscape(s[1..])
  }

  function UserChar(c: char): (r: string)
    ensures r != "" && '*' !in r
  {
    if Unreserved(c) || c in DELIMITERS then [c] else HexEscape(c)
  }

  /** `redactErr`: no message holds a removable password, the query form of any password, or
      the connection string's form of one for which `EchoIsRemoved` holds. */
  method RedactErr(c: Config, text: string) returns (s: string)
    ensures s == Scrubbed(text, [c.dbPass, QueryEscape(c.dbPass)])
    ensures Removable(c.dbPass) ==> !Contains(s, c.dbPass)
    ensures c.dbPass != "" ==> !Contains(s, QueryEscape(c.dbPass))
    ensures c.dbPass != "" && EchoIsRemoved(c.dbPass) ==> !Contains(s, UserEscape(c.dbPass))
  {
    var enc := QueryEscape(c.dbPass);
    var secrets := [c.dbPass, enc];
    s := text;
    if c.dbPass != "" {
      s := ReplaceAll(s, c.dbPass);
      if enc != c.dbPass {
        s := ReplaceAll(s, enc);
      }
    }
    EscapedTwice(c.dbPass, text);
    if Removable(c.dbPass) {
      ScrubRemoves(text, secrets, c.dbPass);
    }
    if c.dbPass != "" {
      StarFreeIsRemovable(enc);
      ScrubRemoves(text, secrets, enc);
      EchoRemovedExactly(c.dbPass);
    }
  }

  function HexDigitValue(c: char): nat {
    if '0' <= c <= '9' then c as int - '0' as int else if 'A' <= c <= 'F' then c as int - 'A' as int + 10 else 0
  }

  /** Reads percent escapes back; `plus` is what a plus sign stands for. */
  function Unescape(s: string, plus: char): string {
    if s == "" then ""
    else if s[0] == '%' && |s| >= 3 then [(16 * HexDigitValue(s[1]) + HexDigitValue(s[2])) as char] + Unescape(s[3..], plus)
    else [if s[0] == '+' then plus else s[0]] + Unescape(s[1..], plus)
  }

  lemma HexReads(c: char, rest: string, plus: char)
    requires c as int < 256
    ensures Unescape(HexEscape(c) + rest, plus) == [c] + Unescape(rest, plus)
  {
    assert (HexEscape(c) + rest)[3..] == rest;
  }

  lemma OneReads(c: char, rest: string, plus: char)
    requires c != '%'
    ensures Unescape([c] + rest, plus) == [if c == '+' then plus else c] + Unescape(rest, plus)
  {
    assert ([c] + rest)[1..] == rest;
  }

  /** Both escapes read back to the password: the one with a plus for a space, the other with a
      plus for itself. */
  lemma {:induction false} EscapesReadBack(s: string)
    requires forall i :: 0 <= i < |s| ==> s[i] as int < 256
    ensures Unescape(QueryEscape(s), ' ') == s && Unescape(UserEscape(s), '+') == s
  {
    if s != "" {
      EscapesReadBack(s[1..]);
      var c := s[0];
      var query, user := QueryEscape(s[1..]), UserEscape(s[1..]);
      hide HexEscape, Unescape;
      assert s == [c] + s[1..];
      if Unreserved(c) {
        OneReads(c, query, ' ');
        OneReads(c, user, '+');
      } else {
        HexReads(c, query, ' ');
        HexReads(c, user, '+');
        if c == ' ' {
          OneReads('+', query, ' ');
        }
        if c in DELIMITERS {
          OneReads(c, user, '+');
        }
      }
    }
  }

  /** Which characters stand for themselves. */
  lemma PlainCharacters(c: char)
    ensures var letter := 'a' <= c <= 'z' || 'A' <= c <= 'Z' || '0' <= c <= '9' || c == '-' || c == '_' || c == '.' || c == '~';
            && (QueryChar(c) == [c] <==> letter)
            && (UserChar(c) == [c] <==> letter || c == '$' || c == '&' || c == '+' || c == ',' || c == ';' || c == '=')
  {
  }

  /* ----- Which passwords are removed in the form of the connection string ----- */

  /** The two escapes differ on no character of the password, or the password itself occurs in
      its escaped form. */
  ghost predicate EchoIsRemoved(pass: string) {
    SameEscapes(pass) || Contains(UserEscape(pass), pass)
  }

  predicate SameEscapes(pass: string) {
    forall i :: 0 <= i < |pass| ==> pass[i] != ' ' && pass[i] !in DELIMITERS
  }

  lemma {:induction false} SameEscapesAgree(pass: string)
    requires SameEscapes(pass)
    ensures UserEscape(pass) == QueryEscape(pass)
  {
    if pass != "" {
      assert forall i :: 0 <= i < |pass| - 1 ==> pass[1..][i] == pass[i + 1];
      SameEscapesAgree(pass[1..]);
    }
  }

  /** How often `c` stands in `s`. */
  function Times(s: string, c: char): nat {
    if s == "" then 0 else (if s[0] == c then 1 else 0) + Times(s[1..], c)
  }

  lemma {:induction false} TimesConcat(a: string, b: string, c: char)
    ensures Times(a + b, c) == Times(a, c) + Times(b, c)
  {
    if a == "" {
      assert a + b == b;
    } else {
      assert (a + b)[1..] == a[1..] + b;
      TimesConcat(a[1..], b, c);
    }
  }

  /** How many characters of the password are delimiters. */
  function Delimiters(pass: string): nat {
    if pass == "" then 0 else (if pass[0] in DELIMITERS then 1 else 0) + Delimiters(pass[1..])
  }

  lemma HexTimes(c: char)
    ensures Times(HexEscape(c), '%') == 1 && Times(HexEscape(c), '+') == 0
  {
    var h := HexEscape(c);
    assert h[1..] == [h[1], h[2]] && [h[1], h[2]][1..] == [h[2]] && [h[2]][1..] == "";
    assert h[1] != '+' && h[2] != '+';
    assert Times([h[2]], '%') == 0 == Times([h[2]], '+');
    assert Times([h[1], h[2]], '%') == 0 == Times([h[1], h[2]], '+');
  }

  /** Spaces, delimiters and escapes tell how often '%' and '+' stand in the two forms. */
  lemma {:induction false} EscapeTimes(pass: string)
    ensures Times(QueryEscape(pass), '+') == Times(pass, ' ')
    ensures Times(UserEscape(pass), '+') <= Delimiters(pass)
    ensures Times(UserEscape(pass), '%') + Delimiters(pass) == Times(QueryEscape(pass), '%') + Times(pass, ' ')
    ensures |UserEscape(pass)| + 2 * Delimiters(pass) == |QueryEscape(pass)| + 2 * Times(pass, ' ')
    ensures Delimiters(pass) == 0 && Times(pass, ' ') == 0 ==> SameEscapes(pass)
  {
    if pass != "" {
      var c := pass[0];
      EscapeTimes(pass[1..]);
      HexTimes(c);
      CharTimes(c);
      hide HexEscape, QueryChar, UserChar;
      forall ch ensures Times(QueryEscape(pass), ch) == Times(QueryChar(c), ch) + Times(QueryEscape(pass[1..]), ch) {
        TimesConcat(QueryChar(c), QueryEscape(pass[1..]), ch);
      }
      forall ch ensures Times(UserEscape(pass), ch) == Times(UserChar(c), ch) + Times(UserEscape(pass[1..]), ch) {
        TimesConcat(UserChar(c), UserEscape(pass[1..]), ch);
      }
    }
  }

  lemma CharTimes(c: char)
    ensures Times(QueryChar(c), '+') == if c == ' ' then 1 else 0
    ensures Times(UserChar(c), '+') <= if c in DELIMITERS then 1 else 0
    ensures Times(UserChar(c), '%') + (if c in DELIMITERS then 1 else 0) == Times(QueryChar(c), '%') + if c == ' ' then 1 else 0
    ensures |UserChar(c)| + 2 * (if c in DELIMITERS then 1 else 0) == |QueryChar(c)| + 2 * if c == ' ' then 1 else 0
  {
    HexTimes(c);
    assert [c][1..] == "" && "+"[1..] == "";
  }

  /** Where the two forms have a common length, they differ at the first space or delimiter. */
  lemma {:induction false} EscapesDiffer(pass: string)
    requires UserEscape(pass) == QueryEscape(pass)
    ensures SameEscapes(pass)
  {
    if pass != "" {
      var c := pass[0];
      var user, query := UserEscape(pass), QueryEscape(pass);
      assert user[0] == UserChar(c)[0] && query[0] == QueryChar(c)[0];
      assert c != ' ' && c !in DELIMITERS;
      assert UserChar(c) == QueryChar(c);
      assert user[|UserChar(c)|..] == UserEscape(pass[1..]) && query[|UserChar(c)|..] == QueryEscape(pass[1..]);
      EscapesDiffer(pass[1..]);
    }
  }

  /** The query form occurs in the connection string's form only if they are the same. */
  lemma QueryInUser(pass: string)
    ensures Contains(UserEscape(pass), QueryEscape(pass)) <==> SameEscapes(pass)
  {
    var user, query := UserEscape(pass), QueryEscape(pass);
    if SameEscapes(pass) {
      SameEscapesAgree(pass);
      assert OccursAt(user, query, 0);
    }
    if Contains(user, query) {
      var p: nat :| OccursAt(user, query, p);
      var a, b := user[..p], user[p + |query|..];
      assert user == a + (query + b);
      forall c ensures Times(user, c) >= Times(query, c) {
        TimesConcat(a, query + b, c);
        TimesConcat(query, b, c);
      }
      EscapeTimes(pass);
      assert |user| == |query|;
      assert user[0..|query|] == user;
      EscapesDiffer(pass);
    }
  }

  /** A text that holds something removable keeps it unless a replaced secret occurs in it. */
  lemma EchoSurvives(pass: string)
    requires pass != "" && !EchoIsRemoved(pass)
    ensures Scrubbed(UserEscape(pass), [pass, QueryEscape(pass)]) == UserEscape(pass)
  {
    var user, query := UserEscape(pass), QueryEscape(pass);
    QueryInUser(pass);
    NothingToReplace(user, pass);
    NothingToReplace(user, query);
    EscapedTwice(pass, user);
  }

  /** Nothing that contains a removed secret is left. */
  lemma ContainerIsRemoved(text: string, secrets: seq<string>, t: string, inner: string)
    requires inner in secrets && Removable(inner) && Contains(t, inner)
    ensures !Contains(Scrubbed(text, secrets), t)
  {
    ScrubRemoves(text, secrets, inner);
    var s := Scrubbed(text, secrets);
    forall p: nat ensures !OccursAt(s, t, p) {
      if OccursAt(s, t, p) {
        var q: nat :| OccursAt(t, inner, q);
        OccurrenceShifts(s, t, p, inner, q);
      }
    }
  }

  /** An echoed connection string is freed of the password exactly when `EchoIsRemoved`. */
  lemma EchoRemovedExactly(pass: string)
    requires pass != ""
    ensures EchoIsRemoved(pass) <==>
            forall text :: !Contains(Scrubbed(text, [pass, QueryEscape(pass)]), UserEscape(pass))
  {
    var user, query := UserEscape(pass), QueryEscape(pass);
    if SameEscapes(pass) {
      QueryInUser(pass);
      StarFreeIsRemovable(query);
      forall text ensures !Contains(Scrubbed(text, [pass, query]), user) {
        ContainerIsRemoved(text, [pass, query], user, query);
      }
    } else if Contains(user, pass) {
      InnerIsStarFree(user, pass);
      StarFreeIsRemovable(pass);
      forall text ensures !Contains(Scrubbed(text, [pass, query]), user) {
        ContainerIsRemoved(text, [pass, query], user, pass);
      }
    } else {
      EchoSurvives(pass);
      assert OccursAt(user, user, 0);
    }
  }

  lemma InnerIsStarFree(s: string, t: string)
    requires Contains(s, t) && '*' !in s
    ensures '*' !in t
  {
    var p: nat :| OccursAt(s, t, p);
    forall i | 0 <= i < |t| ensures t[i] != '*' {
      OccurrenceReads(s, t, p, i);
    }
  }

  predicate StaysItself(c: char) {
    Unreserved(c) || c in DELIMITERS || c == '%'
  }

  lemma {:induction false} UserFormCharacters(pass: string)
    ensures forall c <- UserEscape(pass) :: StaysItself(c)
  {
    if pass != "" {
      UserFormCharacters(pass[1..]);
    }
  }

  /** With a character in it that the connection string never shows, a password is removed
      exactly when the two escapes agree. */
  lemma EchoByCharacters(pass: string, i: nat)
    requires i < |pass| && !StaysItself(pass[i])
    ensures EchoIsRemoved(pass) <==> SameEscapes(pass)
  {
    var user := UserEscape(pass);
    UserFormCharacters(pass);
    forall p: nat ensures !OccursAt(user, pass, p) {
      if OccursAt(user, pass, p) {
        OccurrenceReads(user, pass, p, i);
      }
    }
  }

  /** Two passwords whose escaped form stays in an error that echoes the connection string. */
  lemma EchoKept(pass: string)
    requires pass == "a b" || pass == "p@ss$w"
    ensures Contains(Scrubbed(UserEscape(pass), [pass, QueryEscape(pass)]), UserEscape(pass))
  {
    EchoByCharacters(pass, 1);
    assert !SameEscapes(pass) by {
      assert pass[if pass == "a b" then 1 else 4] in {' ', '$'};
    }
    EchoSurvives(pass);
    hide QueryEscape, UserEscape, Scrubbed;
    assert OccursAt(UserEscape(pass), UserEscape(pass), 0);
  }

  /** Replacing the escaped form only when it differs is replacing it always. */
  lemma EscapedTwice(pass: string, text: string)
    ensures var enc := QueryEscape(pass);
            Scrubbed(text, [pass, enc]) ==
            if pass == "" then text
            else if enc == pass then ReplaceAll(text, pass)
            else ReplaceAll(ReplaceAll(text, pass), enc)
  {
    var enc := QueryEscape(pass);
    var once := RedactString(text, pass);
    assert [pass, enc][1..] == [enc] && [enc][1..] == [];
    assert Scrubbed(text, [pass, enc]) == Scrubbed(once, [enc]) == RedactString(once, enc);
    if pass != "" && enc == pass {
      StarFreeIsRemovable(pass);
      RedactionIdempotent(text, pass);
    }
  }

  /* ----- The table ----- */

  /** Completed with a report and no error, or an error and no report. */
  datatype Row = Row(status: string, resultData: string, errorMessage: string)

  type Tables = map<string, map<string, Row>>

  /** What the database does to one write: the connection cannot be set up, or the creation
      or the insertion is answered with an error, applied or not. */
  datatype Fault = Works | NoConnection(text: string) | NoTable(text: string, applied: bool) | NoInsert(text: string, applied: bool)

  function WithTable(ts: Tables, name: string): Tables {
    if name in ts then ts else ts[name := map[]]
  }

  ghost predicate HasRow(ts: Tables, name: string, id: string) {
    name in ts && id in ts[name]
  }

  ghost predicate SameRow(ts: Tables, us: Tables, name: string, id: string) {
    && (HasRow(ts, name, id) <==> HasRow(us, name, id))
    && (HasRow(ts, name, id) ==> ts[name][id] == us[name][id])
  }

  /** Tables are their rows. */
  lemma SameRowsSameTables(ts: Tables, us: Tables)
    requires ts.Keys == us.Keys && forall n, i :: SameRow(ts, us, n, i)
    ensures ts == us
  {
    forall n | n in ts ensures ts[n] == us[n] {
      forall i ensures i in ts[n] <==> i in us[n] {
        assert SameRow(ts, us, n, i);
      }
      forall i | i in ts[n] ensures ts[n][i] == us[n][i] {
        assert SameRow(ts, us, n, i);
      }
    }
  }

  lemma InsertedRow(ts: Tables, us: Tables, name: string, id: string, row: Row)
    requires name in ts && us.Keys == ts.Keys && HasRow(us, name, id)
    requires HasRow(ts, name, id) ==> us == ts
    requires !HasRow(ts, name, id) ==> us[name][id] == row
    requires forall n, i :: (n, i) != (name, id) ==> SameRow(us, ts, n, i)
    ensures us == WithRow(ts, name, id, row)
  {
    if !HasRow(ts, name, id) {
      var ws := WithRow(ts, name, id, row);
      forall n, i ensures SameRow(us, ws, n, i) {
        if (n, i) != (name, id) {
          assert SameRow(us, ts, n, i);
        }
      }
      SameRowsSameTables(us, ws);
    }
  }

  /** `ON CONFLICT DO NOTHING`. */
  function WithRow(ts: Tables, name: string, id: string, row: Row): Tables {
    var t := if name in ts then ts[name] else map[];
    if id in t then ts else ts[name := t[id := row]]
  }

  function Applied(ts: Tables, c: Config, row: Row, fault: Fault): Tables {
    match fault
    case NoConnection(_) => ts
    case NoTable(_, applied) => if applied then WithTable(ts, c.resultTable) else ts
    case NoInsert(_, applied) =>
      var created := WithTable(ts, c.resultTable);
      if applied then WithRow(created, c.resultTable, c.correlationID, row) else created
    case Works => WithRow(WithTable(ts, c.resultTable), c.resultTable, c.correlationID, row)
  }

  predicate Accepts(c: Config, status: string) {
    !Blank(c.dbURL) && status in {"completed", "error"} && Complete(c)
  }

  class Database {
    var tables: Tables

    constructor (tables: Tables)
      ensures this.tables == tables
    {
      this.tables := tables;
    }

    method CreateTable(name: string)
      modifies this
      ensures tables == WithTable(old(tables), name)
    {
      if name !in tables {
        tables := tables[name := map[]];
      }
    }

    /** A known correlation id leaves everything as it is; a new one gets the row, and every
        other row of every table stays. */
    method InsertRow(name: string, id: string, row: Row)
      requires name in tables
      modifies this
      ensures HasRow(old(tables), name, id) ==> tables == old(tables)
      ensures HasRow(tables, name, id) && tables.Keys == old(tables).Keys
      ensures !HasRow(old(tables), name, id) ==> tables[name][id] == row
      ensures forall n, i :: (n, i) != (name, id) ==> SameRow(tables, old(tables), n, i)
    {
      if id !in tables[name] {
        tables := tables[name := tables[name][id := row]];
      }
    }

    /** The insertion as a function of the tables. */
    method AddRow(name: string, id: string, row: Row)
      requires name in tables
      modifies this
      ensures tables == WithRow(old(tables), name, id, row)
    {
      ghost var before := tables;
      InsertRow(name, id, row);
      InsertedRow(before, tables, name, id, row);
    }

    /** `Write`: guards first, then connection, table, row; a rejected call touches nothing. */
    method Write(c: Config, status: string, resultData: string, errorMessage: string, fault: Fault)
      returns (err: Option<WriteError>)
      modifies this
      ensures Accepts(c, status) ==> tables == Applied(old(tables), c, Row(status, resultData, errorMessage), fault)
      ensures Accepts(c, status) ==> (err == None <==> fault.Works?) && (err.Some? ==> err.value.Database?)
      ensures !Accepts(c, status) ==> tables == old(tables) && err.Some? && !err.value.Database?
      ensures err.Some? && err.value.Database? ==>
                && (Removable(c.dbPass) ==> !Contains(err.value.message, c.dbPass))
                && !Contains(err.value.message, QueryEscape(c.dbPass))
                && (EchoIsRemoved(c.dbPass) ==> !Contains(err.value.message, UserEscape(c.dbPass)))
    {
      TrimBlank(c.dbURL);
      if !Configured(c) {
        return Some(Unconfigured);
      }
      if status != "completed" && status != "error" {
        return Some(UnknownStatus(status));
      }
      err := Validate(c);
      if err.Some? {
        return;
      }
      if c.resultTable !in ALLOWED {
        return Some(UnknownTable(c.resultTable));
      }
      assert !Blank(FieldAt(c, 1));
      if fault.NoConnection? {
        var message := RedactErr(c, fault.text);
        return Some(Database(message));
      }
      if fault.NoTable? {
        if fault.applied {
          CreateTable(c.resultTable);
        }
        var message := RedactErr(c, "create table: " + fault.text);
        return Some(Database(message));
      }
      CreateTable(c.resultTable);
      if fault.NoInsert? {
        if fault.applied {
          AddRow(c.resultTable, c.correlationID, Row(status, resultData, errorMessage));
        }
        var message := RedactErr(c, "insert row: " + fault.text);
        return Some(Database(message));
      }
      AddRow(c.resultTable, c.correlationID, Row(status, resultData, errorMessage));
      return None;
    }
  }
}
