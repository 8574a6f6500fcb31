/** The text of a cache entry's meta file: the JSON object that `store` writes and
    `load` reads back. */
module MetaText {
  import opened Strings
  import opened Json

  /** `cacheMeta`. `fetchedAt` is an instant; its text is a quoted decimal here. */
  datatype Meta = Meta(url: string, etag: string, lastModified: string, fetchedAt: nat)

  /* ----- Writing ----- */

  function HexDigit(n: nat): char
    requires n < 16
  {
    if n < 10 then Digit(n) else ('a' as int + (n - 10)) as char
  }

  /** A byte inside a JSON string, with the HTML escapes of `json.Marshal`. */
  function Escaped(c: char): string {
    if c == '\"' then "\\\""
    else if c == '\\' then "\\\\"
    else if c == Byte(8) then "\\b"
    else if c == Byte(12) then "\\f"
    else if c == '\n' then "\\n"
    else if c == '\r' then "\\r"
    else if c == '\t' then "\\t"
    else if c < ' ' || c == '<' || c == '>' || c == '&' then
      "\\u00" + [HexDigit(c as int / 16), HexDigit(c as int % 16)]
    else [c]
  }

  /** U+2028 or U+2029 in UTF-8, which `json.Marshal` escapes too. */
  predicate StartsWithSeparator(s: string) {
    |s| >= 3 && s[0] == Byte(0xE2) && s[1] == Byte(0x80) && (s[2] == Byte(0xA8) || s[2] == Byte(0xA9))
  }

  function EscapedSeparator(s: string): string
    requires StartsWithSeparator(s)
  {
    if s[2] == Byte(0xA8) then "\\u2028" else "\\u2029"
  }

  function EscapedAll(s: string): string {
    if s == "" then ""
    else if StartsWithSeparator(s) then EscapedSeparator(s) + EscapedAll(s[3..])
    else Escaped(s[0]) + EscapedAll(s[1..])
  }

  function Quoted(s: string): string {
    "\"" + EscapedAll(s) + "\""
  }

  /** `"name":"value"` pairs separated by commas. */
  function Members(pairs: seq<(string, string)>): string {
    if pairs == [] then ""
    else Member(pairs[0]) + (if |pairs| == 1 then "" else "," + Members(pairs[1..]))
  }

  function Member(pair: (string, string)): string {
    Quoted(pair.0) + (":" + Quoted(pair.1))
  }

  /** The fields in the order of the struct, under their JSON names. */
  function Fields(m: Meta): seq<(string, string)> {
    [("url", m.url), ("etag", m.etag), ("lastModified", m.lastModified), ("fetchedAt", Decimal(m.fetchedAt))]
  }

  /** `json.Marshal` of a `cacheMeta`. */
  function Encode(m: Meta): string {
    "{" + (Members(Fields(m)) + "}")
  }

  /* ----- Reading ----- */

  function With(m: Meta, name: string, value: string): Option<Meta> {
    if name == "url" then Some(m.(url := value))
    else if name == "etag" then Some(m.(etag := value))
    else if name == "lastModified" then Some(m.(lastModified := value))
    else if name == "fetchedAt" then
      var at := ReadDecimal(value);
      if at.None? then None else Some(m.(fetchedAt := at.value))
    else Some(m)
  }

  const NAMES := {"url", "etag", "lastModified", "fetchedAt"}

  /** One member applied to `m`: a field takes a string, stays as it is on null, and refuses
      everything else; other names are skipped. */
  function Apply(m: Meta, name: string, value: Json): Option<Meta> {
    if name !in NAMES || value.Null? then Some(m)
    else if value.Text? then With(m, name, value.s)
    else None
  }

  function ApplyAll(m: Meta, members: seq<(string, Json)>): Option<Meta>
    decreases |members|
  {
    if members == [] then Some(m)
    else
      var next := Apply(m, members[0].0, members[0].1);
      if next.None? then None else ApplyAll(next.value, members[1..])
  }

  const ZERO := Meta("", "", "", 0)

  /** `json.Unmarshal` into a `cacheMeta`: the whole text must be JSON, and an object or null. */
  function Decode(t: string): Option<Meta> {
    match Parse(t)
    case Some(Null) => Some(ZERO)
    case Some(Object(members)) => ApplyAll(ZERO, members)
    case _ => None
  }

  /* ----- Round trip ----- */

  lemma ReadEscaped(c: char, rest: string)
    ensures ReadPiece(Escaped(c) + rest) == Some(([c], rest))
    ensures Escaped(c)[0] != '\"' && Escaped(c)[0] >= ' '
  {
    var t := Escaped(c) + rest;
    assert t[|Escaped(c)|..] == rest;
    if |Escaped(c)| == 6 {
      var hi, lo := c as int / 16, c as int % 16;
      assert HexValue(HexDigit(hi)) == Some(hi) && HexValue(HexDigit(lo)) == Some(lo);
      var u := t[2..];
      assert u[0] == '0' && u[1] == '0' && u[2] == HexDigit(hi) && u[3] == HexDigit(lo);
      assert u[4..] == rest;
    }
  }

  lemma ReadSeparator(s: string, rest: string)
    requires StartsWithSeparator(s)
    ensures ReadPiece(EscapedSeparator(s) + rest) == Some((s[..3], rest))
  {
    var t := EscapedSeparator(s) + rest;
    var u := t[2..];
    assert u[0] == '2' && u[1] == '0' && u[2] == '2' && u[3] == t[5];
    assert u[4..] == rest;
    assert HexUnit(u) == Some(if s[2] == Byte(0xA8) then 0x2028 else 0x2029);
    assert s[..3] == [s[0], s[1], s[2]];
  }

  lemma ReadPieceFirst(t: string, piece: string, tail: string, s: string, rest: string)
    requires t != "" && t[0] != '\"' && ReadPiece(t) == Some((piece, tail)) && ReadString(tail) == Some((s, rest))
    ensures ReadString(t) == Some((piece + s, rest))
  {
    hide ReadPiece;
  }

  lemma {:induction false} ReadQuoted(s: string, rest: string)
    ensures ReadString(EscapedAll(s) + ("\"" + rest)) == Some((s, rest))
    decreases |s|
  {
    var t := EscapedAll(s) + ("\"" + rest);
    if s == "" {
      assert t == "\"" + rest;
      assert t[1..] == rest;
    } else if StartsWithSeparator(s) {
      var tail := EscapedAll(s[3..]) + ("\"" + rest);
      assert t == EscapedSeparator(s) + tail;
      hide ReadPiece, ReadString, EscapedAll;
      ReadSeparator(s, tail);
      ReadQuoted(s[3..], rest);
      ReadPieceFirst(t, s[..3], tail, s[3..], rest);
      assert s == s[..3] + s[3..];
    } else {
      var tail := EscapedAll(s[1..]) + ("\"" + rest);
      assert t == Escaped(s[0]) + tail;
      hide ReadPiece, ReadString, EscapedAll, Escaped;
      ReadEscaped(s[0], tail);
      ReadQuoted(s[1..], rest);
      ReadPieceFirst(t, [s[0]], tail, s[1..], rest);
      assert s == [s[0]] + s[1..];
    }
  }

  lemma ReadTextValue(value: string, rest: string)
    ensures ReadValue(Quoted(value) + rest) == Some((Text(value), rest))
  {
    var t := Quoted(value) + rest;
    var tail := EscapedAll(value) + ("\"" + rest);
    assert t == ['\"'] + tail;
    assert t[1..] == tail;
    ReadQuoted(value, rest);
    hide ReadString;
  }

  lemma ReadOneName(name: string, rest: string)
    ensures ReadName(Quoted(name) + (":" + rest)) == Some((name, rest))
  {
    var t := Quoted(name) + (":" + rest);
    var tail := EscapedAll(name) + ("\"" + (":" + rest));
    assert t == ['\"'] + tail;
    assert t[1..] == tail;
    ReadQuoted(name, ":" + rest);
    hide ReadString;
    assert (":" + rest)[1..] == rest;
  }

  function Texts(pairs: seq<(string, string)>): seq<(string, Json)> {
    seq(|pairs|, (i: nat) requires i < |pairs| => (pairs[i].0, Text(pairs[i].1)))
  }

  lemma ReadOneMember(pair: (string, string), rest: string)
    requires rest != ""
    ensures var t := Member(pair) + rest;
            && ReadName(t) == Some((pair.0, Quoted(pair.1) + rest))
            && ReadValue(Quoted(pair.1) + rest) == Some((Text(pair.1), rest))
  {
    assert Member(pair) + rest == Quoted(pair.0) + (":" + (Quoted(pair.1) + rest));
    hide Quoted;
    ReadOneName(pair.0, Quoted(pair.1) + rest);
    ReadTextValue(pair.1, rest);
  }

  lemma {:induction false} ReadAllMembers(pairs: seq<(string, string)>)
    requires pairs != []
    ensures ReadMembers(Members(pairs) + "}") == Some((Texts(pairs), ""))
    decreases |pairs|
  {
    hide ReadName, ReadValue, Member;
    if |pairs| == 1 {
      assert Members(pairs) + "}" == Member(pairs[0]) + "}";
      ReadOneMember(pairs[0], "}");
      assert "}"[1..] == "" && Texts(pairs) == [(pairs[0].0, Text(pairs[0].1))];
    } else {
      var rest := "," + (Members(pairs[1..]) + "}");
      assert Members(pairs) + "}" == Member(pairs[0]) + rest;
      assert rest[1..] == Members(pairs[1..]) + "}";
      hide Members;
      ReadOneMember(pairs[0], rest);
      ReadAllMembers(pairs[1..]);
      assert Texts(pairs) == [(pairs[0].0, Text(pairs[0].1))] + Texts(pairs[1..]);
    }
  }

  lemma ObjectParses(body: string, members: seq<(string, Json)>)
    requires body != "" && body[0] == '\"' && ReadMembers(body) == Some((members, ""))
    ensures Parse("{" + body) == Some(Object(members))
  {
    hide ReadMembers;
    var t := "{" + body;
    assert t[1..] == body;
    assert ReadObject(body) == Some((Object(members), ""));
    hide ReadObject;
  }

  /** The file is JSON: the object of the four fields. */
  lemma EncodeParses(m: Meta)
    ensures Parse(Encode(m)) == Some(Object(Texts(Fields(m))))
  {
    var f := Fields(m);
    var body := Members(f) + "}";
    assert body[0] == '\"' by {
      assert Members(f) == Member(f[0]) + ("," + Members(f[1..]));
    }
    hide Members, ReadMembers, Parse, Fields, Texts;
    ReadAllMembers(f);
    ObjectParses(body, Texts(f));
  }

  lemma FieldsRestore(m: Meta)
    ensures ApplyAll(ZERO, Texts(Fields(m))) == Some(m)
  {
    DecimalRoundTrip(m.fetchedAt);
    var m1 := ZERO.(url := m.url);
    var m2 := m1.(etag := m.etag);
    var m3 := m2.(lastModified := m.lastModified);
    var f := Texts(Fields(m));
    assert f == [("url", Text(m.url)), ("etag", Text(m.etag)), ("lastModified", Text(m.lastModified)),
                 ("fetchedAt", Text(Decimal(m.fetchedAt)))];
    assert ApplyAll(m3, f[3..]) == Some(m) by {
      assert f[3..][1..] == [];
    }
    assert f[2..][1..] == f[3..] && f[1..][1..] == f[2..];
    assert ApplyAll(m2, f[2..]) == Some(m);
    assert ApplyAll(m1, f[1..]) == Some(m);
  }

  /** `load` reads back what `store` wrote. */
  lemma MetaRoundTrip(m: Meta)
    ensures Decode(Encode(m)) == Some(m)
  {
    EncodeParses(m);
    FieldsRestore(m);
    hide Parse, Encode, ApplyAll, Texts, Fields;
  }

  /* ----- A torn file never parses ----- */

  /** Only null, and texts with a closing brace outside their strings, are accepted. */
  lemma DecodeNeedsClose(t: string)
    requires Decode(t).Some?
    ensures Parse(t) == Some(Null) || Closes(t, Outside)
  {
    ValueLeaves(t);
    hide ReadValue, ApplyAll;
  }

  lemma {:induction false} PlainStaysInside(t: string)
    requires '\"' !in t && '\\' !in t
    ensures Scan(t, InString) == InString && !Closes(t, InString)
  {
    if t != "" {
      PlainStaysInside(t[1..]);
    }
  }

  lemma EscapedStaysInside(c: char)
    ensures Scan(Escaped(c), InString) == InString && !Closes(Escaped(c), InString)
  {
    var e := Escaped(c);
    if |e| == 1 {
      PlainStaysInside(e);
    } else {
      PlainStaysInside(e[2..]);
      assert e[1..][1..] == e[2..];
      assert Scan(e[1..], AfterBackslash) == InString && !Closes(e[1..], AfterBackslash);
    }
  }

  lemma SeparatorStaysInside(s: string)
    requires StartsWithSeparator(s)
    ensures Scan(EscapedSeparator(s), InString) == InString && !Closes(EscapedSeparator(s), InString)
  {
    var e := EscapedSeparator(s);
    PlainStaysInside(e[2..]);
    assert e[1..][1..] == e[2..];
    assert Scan(e[1..], AfterBackslash) == InString && !Closes(e[1..], AfterBackslash);
  }

  lemma {:induction false} EscapedAllStaysInside(s: string)
    ensures Scan(EscapedAll(s), InString) == InString && !Closes(EscapedAll(s), InString)
    decreases |s|
  {
    if StartsWithSeparator(s) {
      SeparatorStaysInside(s);
      EscapedAllStaysInside(s[3..]);
      ScanConcat(EscapedSeparator(s), EscapedAll(s[3..]), InString);
    } else if s != "" {
      EscapedStaysInside(s[0]);
      EscapedAllStaysInside(s[1..]);
      ScanConcat(Escaped(s[0]), EscapedAll(s[1..]), InString);
    }
  }

  lemma QuotedReturns(s: string)
    ensures Scan(Quoted(s), Outside) == Outside && !Closes(Quoted(s), Outside)
  {
    EscapedAllStaysInside(s);
    ScanConcat(EscapedAll(s), "\"", InString);
    assert Quoted(s)[1..] == EscapedAll(s) + "\"";
    assert "\""[1..] == "";
  }

  lemma MemberReturns(pair: (string, string), rest: string)
    requires !Closes(rest, Outside)
    ensures !Closes(Member(pair) + rest, Outside)
  {
    QuotedReturns(pair.0);
    QuotedReturns(pair.1);
    var afterName := ":" + (Quoted(pair.1) + rest);
    assert Member(pair) + rest == Quoted(pair.0) + afterName;
    ScanConcat(Quoted(pair.0), afterName, Outside);
    assert afterName[1..] == Quoted(pair.1) + rest;
    ScanConcat(Quoted(pair.1), rest, Outside);
  }

  lemma {:induction false} MembersNeverClose(pairs: seq<(string, string)>)
    ensures !Closes(Members(pairs), Outside)
  {
    if |pairs| == 1 {
      MemberReturns(pairs[0], "");
    } else if |pairs| > 1 {
      MembersNeverClose(pairs[1..]);
      assert ("," + Members(pairs[1..]))[1..] == Members(pairs[1..]);
      MemberReturns(pairs[0], "," + Members(pairs[1..]));
    }
  }

  /** A meta file whose write stopped early is not JSON, whatever it is read into. */
  lemma TornMetaNeverParses(m: Meta, torn: string)
    requires torn < Encode(m)
    ensures Parse(torn) == None
  {
    var open := "{" + Members(Fields(m));
    assert !Closes(open, Outside) by {
      MembersNeverClose(Fields(m));
      assert open[1..] == Members(Fields(m));
    }
    var rest := open[|torn|..];
    assert open == torn + rest;
    assert torn == "" || torn[0] == '{';
    hide Parse, Members, Fields;
    ScanConcat(torn, rest, Outside);
    if Parse(torn).Some? {
      ObjectNeedsClose(torn);
    }
  }

  /** So it is never read as an entry. */
  lemma TornMetaNeverDecodes(m: Meta, torn: string)
    requires torn < Encode(m)
    ensures Decode(torn) == None
  {
    TornMetaNeverParses(m, torn);
  }

  /** Equal files come from equal entries. */
  lemma EncodeInjective(m: Meta, n: Meta)
    requires Encode(m) == Encode(n)
    ensures m == n
  {
    MetaRoundTrip(m);
    MetaRoundTrip(n);
  }
}
