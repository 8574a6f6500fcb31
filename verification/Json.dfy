/** JSON texts as `encoding/json` reads them: the grammar of RFC 8259, byte by byte. Every
    reader tells which text is left behind what it has read. */
module Json {
  import opened Strings

  datatype Json =
    | Null | Bool(value: bool) | Number(text: string) | Text(s: string)
    | Array(items: seq<Json>) | Object(members: seq<(string, Json)>)

  /* ----- Braces outside strings ----- */

  /** Where a reader stands in the text. */
  datatype Lex = Outside | InString | AfterBackslash

  function Step(lex: Lex, c: char): Lex {
    match lex
    case Outside => if c == '\"' then InString else Outside
    case InString => if c == '\"' then Outside else if c == '\\' then AfterBackslash else InString
    case AfterBackslash => InString
  }

  function Scan(t: string, lex: Lex): Lex {
    if t == "" then lex else Scan(t[1..], Step(lex, t[0]))
  }

  /** Some closing brace of `t` stands outside its string literals. */
  predicate Closes(t: string, lex: Lex) {
    t != "" && ((lex.Outside? && t[0] == '}') || Closes(t[1..], Step(lex, t[0])))
  }

  lemma {:induction false} ScanConcat(a: string, b: string, lex: Lex)
    ensures Scan(a + b, lex) == Scan(b, Scan(a, lex))
    ensures Closes(a + b, lex) <==> Closes(a, lex) || Closes(b, Scan(a, lex))
    decreases |a|
  {
    if a == "" {
      assert a + b == b;
    } else {
      assert (a + b)[1..] == a[1..] + b;
      ScanConcat(a[1..], b, Step(lex, a[0]));
    }
  }

  /** What is left of `t` has a closing brace only if `t` has. */
  predicate Leaves(t: string, rest: string) {
    |rest| <= |t| && (Closes(rest, Outside) ==> Closes(t, Outside))
  }

  /* ----- Tokens ----- */

  function SkipSpace(t: string): (rest: string)
    ensures Leaves(t, rest)
    ensures t != "" && t[0] !in {' ', '\t', '\n', '\r'} ==> rest == t
  {
    if t != "" && t[0] in {' ', '\t', '\n', '\r'} then SkipSpace(t[1..]) else t
  }

  /** What is skipped is white space, and all of it that heads the text. */
  lemma {:induction false} SkipSpaceMeans(t: string)
    ensures var rest := SkipSpace(t);
            && |rest| <= |t| && t[|t| - |rest|..] == rest
            && (forall i :: 0 <= i < |t| - |rest| ==> t[i] == ' ' || t[i] == '\t' || t[i] == '\n' || t[i] == '\r')
            && (rest == "" || !(rest[0] == ' ' || rest[0] == '\t' || rest[0] == '\n' || rest[0] == '\r'))
  {
    if t != "" && SkipSpace(t) != t {
      SkipSpaceMeans(t[1..]);
      var n := |t| - |SkipSpace(t)|;
      assert t[n..] == t[1..][n - 1..] && forall i :: 0 < i < n ==> t[i] == t[1..][i - 1];
    }
  }

  function HexValue(c: char): Option<nat> {
    if '0' <= c <= '9' then Some(c as int - '0' as int)
    else if 'a' <= c <= 'f' then Some(c as int - 'a' as int + 10)
    else if 'A' <= c <= 'F' then Some(c as int - 'A' as int + 10)
    else None
  }

  /** The code unit of the four hexadecimal digits at the head of `t`. */
  function HexUnit(t: string): (r: Option<nat>)
    ensures r.Some? ==> |t| >= 4 && r.value < 0x10000
    ensures r.Some? ==> forall i :: 0 <= i < 4 ==> HexValue(t[i]).Some?
  {
    if |t| < 4 || exists i | 0 <= i < 4 :: HexValue(t[i]).None? then None
    else Some(((HexValue(t[0]).value * 16 + HexValue(t[1]).value) * 16 + HexValue(t[2]).value) * 16 + HexValue(t[3]).value)
  }

  function Byte(n: nat): char
    requires n < 256
  {
    n as char
  }

  /** UTF-8. */
  function Utf8(point: nat): string
    requires point < 0x11_0000
  {
    if point < 0x80 then [Byte(point)]
    else if point < 0x800 then [Byte(0xC0 + point / 64), Byte(0x80 + point % 64)]
    else if point < 0x1_0000 then [Byte(0xE0 + point / 4096), Byte(0x80 + point / 64 % 64), Byte(0x80 + point % 64)]
    else [Byte(0xF0 + point / 262144), Byte(0x80 + point / 4096 % 64), Byte(0x80 + point / 64 % 64), Byte(0x80 + point % 64)]
  }

  /** The bits behind the marks of the lead byte and of the bytes that follow are the point's,
      in the shortest form. */
  lemma Utf8Means(point: nat)
    requires point < 0x11_0000
    ensures var u := Utf8(point);
            && |u| == (if point < 0x80 then 1 else if point < 0x800 then 2 else if point < 0x1_0000 then 3 else 4)
            && (forall i :: 0 < i < |u| ==> 0x80 <= u[i] as int < 0xC0)
            && (|u| == 1 ==> point == u[0] as int)
            && (|u| == 2 ==> point == (u[0] as int - 0xC0) * 64 + (u[1] as int - 0x80))
            && (|u| == 3 ==> point == ((u[0] as int - 0xE0) * 64 + (u[1] as int - 0x80)) * 64 + (u[2] as int - 0x80))
            && (|u| == 4 ==> point == (((u[0] as int - 0xF0) * 64 + (u[1] as int - 0x80)) * 64 + (u[2] as int - 0x80)) * 64 + (u[3] as int - 0x80))
  {
    assert point == (point / 64) * 64 + point % 64;
    assert point / 64 == (point / 4096) * 64 + point / 64 % 64;
    assert point / 4096 == (point / 262144) * 64 + point / 4096 % 64;
  }

  /** U+FFFD. */
  const REPLACEMENT := Utf8(0xFFFD)

  /** The second half of a surrogate pair at the head of `t`. */
  function LowSurrogate(t: string): Option<nat> {
    if |t| >= 6 && t[0] == '\\' && t[1] == 'u' && HexUnit(t[2..]).Some? && 0xDC00 <= HexUnit(t[2..]).value < 0xE000
    then HexUnit(t[2..]) else None
  }

  /** The escape behind a backslash and a `u`. */
  function ReadUnit(t: string): (r: Option<(string, string)>)
    ensures r.Some? ==> |r.value.1| < |t|
  {
    var unit := HexUnit(t);
    if unit.None? then None
    else if unit.value < 0xD800 || unit.value >= 0xE000 then Some((Utf8(unit.value), t[4..]))
    else if unit.value < 0xDC00 && LowSurrogate(t[4..]).Some? then
      Some((Utf8(0x1_0000 + (unit.value - 0xD800) * 1024 + (LowSurrogate(t[4..]).value - 0xDC00)), t[10..]))
    else Some((REPLACEMENT, t[4..]))
  }

  /** A character inside a string, escaped or not, and what follows it. */
  function ReadPiece(t: string): (r: Option<(string, string)>)
    requires t != ""
    ensures r.Some? ==> |r.value.1| < |t|
  {
    if t[0] < ' ' then None
    else if t[0] != '\\' then Some(([t[0]], t[1..]))
    else if |t| < 2 then None
    else if t[1] in {'\"', '\\', '/'} then Some(([t[1]], t[2..]))
    else if t[1] == 'b' then Some(([Byte(8)], t[2..]))
    else if t[1] == 'f' then Some(([Byte(12)], t[2..]))
    else if t[1] == 'n' then Some((['\n'], t[2..]))
    else if t[1] == 'r' then Some((['\r'], t[2..]))
    else if t[1] == 't' then Some((['\t'], t[2..]))
    else if t[1] == 'u' then ReadUnit(t[2..])
    else None
  }

  /** The rest of a string whose opening quote is consumed. */
  function ReadString(t: string): (r: Option<(string, string)>)
    ensures r.Some? ==> |r.value.1| < |t|
    decreases |t|
  {
    if t == "" then None
    else if t[0] == '\"' then Some(("", t[1..]))
    else
      var piece := ReadPiece(t);
      if piece.None? then None
      else
        var rest := ReadString(piece.value.1);
        if rest.None? then None else Some((piece.value.0 + rest.value.0, rest.value.1))
  }

  lemma PlainStep(t: string, k: nat)
    requires k < |t| && t[k] != '\"' && t[k] != '\\'
    ensures Closes(t[k + 1..], InString) ==> Closes(t[k..], InString)
  {
    assert t[k..][1..] == t[k + 1..];
  }

  lemma EscapeStep(t: string)
    requires |t| >= 2 && t[0] == '\\'
    ensures Closes(t[2..], InString) ==> Closes(t, InString)
  {
    assert t[1..][1..] == t[2..];
    assert Closes(t[2..], InString) ==> Closes(t[1..], AfterBackslash);
  }

  lemma UnitStaysInside(t: string)
    requires HexUnit(t).Some?
    ensures Closes(t[4..], InString) ==> Closes(t, InString)
  {
    PlainStep(t, 3);
    PlainStep(t, 2);
    PlainStep(t, 1);
    PlainStep(t, 0);
    assert t[0..] == t;
  }

  lemma ReadUnitStaysInside(t: string)
    requires ReadUnit(t).Some?
    ensures Closes(ReadUnit(t).value.1, InString) ==> Closes(t, InString)
  {
    UnitStaysInside(t);
    var low := t[4..];
    if LowSurrogate(low).Some? {
      UnitStaysInside(low[2..]);
      EscapeStep(low);
      assert low[2..][4..] == t[10..];
    }
  }

  lemma PieceStaysInside(t: string)
    requires t != "" && t[0] != '\"' && ReadPiece(t).Some?
    ensures Closes(ReadPiece(t).value.1, InString) ==> Closes(t, InString)
  {
    hide ReadUnit;
    if t[0] == '\\' {
      EscapeStep(t);
      if t[1] == 'u' {
        ReadUnitStaysInside(t[2..]);
      }
    }
  }

  lemma {:induction false} StringLeaves(t: string)
    requires ReadString(t).Some?
    ensures Closes(ReadString(t).value.1, Outside) ==> Closes(t, InString)
    decreases |t|
  {
    if t[0] != '\"' {
      PieceStaysInside(t);
      hide ReadPiece;
      StringLeaves(ReadPiece(t).value.1);
    }
  }

  function SkipDigits(t: string): (rest: string)
    ensures Leaves(t, rest)
  {
    if t != "" && '0' <= t[0] <= '9' then SkipDigits(t[1..]) else t
  }

  /** At least one digit. */
  function ReadDigits(t: string): (r: Option<string>)
    ensures r.Some? ==> Leaves(t, r.value) && |r.value| < |t|
  {
    if t != "" && '0' <= t[0] <= '9' then Some(SkipDigits(t[1..])) else None
  }

  function ReadFraction(t: string): (r: Option<string>)
    ensures r.Some? ==> Leaves(t, r.value)
  {
    if t != "" && t[0] == '.' then ReadDigits(t[1..]) else Some(t)
  }

  function ReadExponent(t: string): (r: Option<string>)
    ensures r.Some? ==> Leaves(t, r.value)
  {
    if t == "" || t[0] !in {'e', 'E'} then Some(t)
    else
      var u := t[1..];
      ReadDigits(if u != "" && u[0] in {'+', '-'} then u[1..] else u)
  }

  function ReadNumber(t: string): (r: Option<string>)
    ensures r.Some? ==> Leaves(t, r.value) && |r.value| < |t|
  {
    var u := if t != "" && t[0] == '-' then t[1..] else t;
    var whole := if u != "" && u[0] == '0' then Some(u[1..]) else ReadDigits(u);
    if whole.None? then None
    else
      var fraction := ReadFraction(whole.value);
      if fraction.None? then None else ReadExponent(fraction.value)
  }

  predicate IsWord(word: string) {
    word != "" && forall i :: 0 <= i < |word| ==> 'a' <= word[i] <= 'z'
  }

  function ReadWord(t: string, word: string): (r: Option<string>)
    requires IsWord(word)
    ensures r.Some? ==> |r.value| < |t|
  {
    if word <= t then Some(t[|word|..]) else None
  }

  lemma {:induction false} WordLeaves(t: string, word: string)
    requires IsWord(word) && word <= t
    ensures Leaves(t, t[|word|..])
    decreases |word|
  {
    assert t[0] == word[0] && t[1..][|word| - 1..] == t[|word|..];
    if |word| > 1 {
      assert word[1..] <= t[1..];
      WordLeaves(t[1..], word[1..]);
    }
  }

  /* ----- Values ----- */

  function ReadValue(t: string): (r: Option<(Json, string)>)
    ensures r.Some? ==> |r.value.1| < |t|
    decreases |t|, 1
  {
    var u := SkipSpace(t);
    if u == "" then None
    else if u[0] == '{' then ReadObject(u[1..])
    else if u[0] == '[' then ReadArray(u[1..])
    else if u[0] == '\"' then
      var s := ReadString(u[1..]);
      if s.None? then None else Some((Text(s.value.0), s.value.1))
    else if u[0] == '-' || '0' <= u[0] <= '9' then
      var rest := ReadNumber(u);
      if rest.None? then None else Some((Number(u[..|u| - |rest.value|]), rest.value))
    else
      var (v, word) := match u[0] case 't' => (Bool(true), "true") case 'f' => (Bool(false), "false") case _ => (Null, "null");
      var rest := ReadWord(u, word);
      if rest.None? then None else Some((v, rest.value))
  }

  /** An object behind its opening brace. */
  function ReadObject(t: string): (r: Option<(Json, string)>)
    ensures r.Some? ==> |r.value.1| < |t| && r.value.0.Object?
    decreases |t|, 2
  {
    var u := SkipSpace(t);
    if u != "" && u[0] == '}' then Some((Object([]), u[1..]))
    else
      var ms := ReadMembers(t);
      if ms.None? then None else Some((Object(ms.value.0), ms.value.1))
  }

  /** A name and a colon. */
  function ReadName(t: string): (r: Option<(string, string)>)
    ensures r.Some? ==> |r.value.1| < |t|
  {
    var u := SkipSpace(t);
    if u == "" || u[0] != '\"' then None
    else
      var name := ReadString(u[1..]);
      if name.None? then None
      else
        var v := SkipSpace(name.value.1);
        if v == "" || v[0] != ':' then None else Some((name.value.0, v[1..]))
  }

  function ReadMembers(t: string): (r: Option<(seq<(string, Json)>, string)>)
    ensures r.Some? ==> |r.value.1| < |t|
    decreases |t|, 1
  {
    var name := ReadName(t);
    if name.None? then None
    else
      var value := ReadValue(name.value.1);
      if value.None? then None
      else
        var w := SkipSpace(value.value.1);
        var first := (name.value.0, value.value.0);
        if w == "" then None
        else if w[0] == '}' then Some(([first], w[1..]))
        else if w[0] != ',' then None
        else
          var more := ReadMembers(w[1..]);
          if more.None? then None else Some(([first] + more.value.0, more.value.1))
  }

  /** An array behind its opening bracket. */
  function ReadArray(t: string): (r: Option<(Json, string)>)
    ensures r.Some? ==> |r.value.1| < |t| && r.value.0.Array?
    decreases |t|, 3
  {
    var u := SkipSpace(t);
    if u != "" && u[0] == ']' then Some((Array([]), u[1..]))
    else
      var items := ReadItems(t);
      if items.None? then None else Some((Array(items.value.0), items.value.1))
  }

  function ReadItems(t: string): (r: Option<(seq<Json>, string)>)
    ensures r.Some? ==> |r.value.1| < |t|
    decreases |t|, 2
  {
    var value := ReadValue(t);
    if value.None? then None
    else
      var w := SkipSpace(value.value.1);
      if w == "" then None
      else if w[0] == ']' then Some(([value.value.0], w[1..]))
      else if w[0] != ',' then None
      else
        var more := ReadItems(w[1..]);
        if more.None? then None else Some(([value.value.0] + more.value.0, more.value.1))
  }

  /** A whole text: one value with white space around it. */
  function Parse(t: string): Option<Json> {
    var value := ReadValue(t);
    if value.Some? && SkipSpace(value.value.1) == "" then Some(value.value.0) else None
  }

  /* ----- Reading an object needs its closing brace ----- */

  lemma TailLeaves(t: string)
    requires t != "" && t[0] != '\"'
    ensures Leaves(t, t[1..])
  {
  }

  lemma NameLeaves(t: string)
    requires ReadName(t).Some?
    ensures Leaves(t, ReadName(t).value.1)
  {
    var u := SkipSpace(t);
    var after := ReadString(u[1..]).value.1;
    StringLeaves(u[1..]);
    assert Leaves(u, after);
    hide ReadString;
    TailLeaves(SkipSpace(after));
  }

  lemma {:induction false} ValueLeaves(t: string)
    requires ReadValue(t).Some?
    ensures Leaves(t, ReadValue(t).value.1)
    ensures ReadValue(t).value.0.Object? ==> Closes(t, Outside)
    decreases |t|, 1
  {
    hide ReadObject, ReadArray, ReadString, ReadNumber;
    var u := SkipSpace(t);
    var rest := ReadValue(t).value.1;
    if u[0] == '{' {
      ObjectCloses(u[1..]);
    } else if u[0] == '[' {
      ArrayLeaves(u[1..]);
    } else if u[0] == '\"' {
      StringLeaves(u[1..]);
    } else if !(u[0] == '-' || '0' <= u[0] <= '9') {
      var word := match u[0] case 't' => "true" case 'f' => "false" case _ => "null";
      WordLeaves(u, word);
    }
  }

  lemma {:induction false} ObjectCloses(t: string)
    requires ReadObject(t).Some?
    ensures Closes(t, Outside)
    decreases |t|, 2
  {
    hide ReadMembers;
    var u := SkipSpace(t);
    if !(u != "" && u[0] == '}') {
      MembersClose(t);
    }
  }

  lemma {:induction false} MembersClose(t: string)
    requires ReadMembers(t).Some?
    ensures Closes(t, Outside)
    decreases |t|, 1
  {
    hide ReadName, ReadValue;
    var v := ReadName(t).value.1;
    NameLeaves(t);
    ValueLeaves(v);
    var w := SkipSpace(ReadValue(v).value.1);
    if w[0] != '}' {
      MembersClose(w[1..]);
    }
  }

  lemma {:induction false} ArrayLeaves(t: string)
    requires ReadArray(t).Some?
    ensures Leaves(t, ReadArray(t).value.1)
    decreases |t|, 3
  {
    hide ReadItems;
    var u := SkipSpace(t);
    if !(u != "" && u[0] == ']') {
      ItemsLeave(t);
    }
  }

  lemma {:induction false} ItemsLeave(t: string)
    requires ReadItems(t).Some?
    ensures Leaves(t, ReadItems(t).value.1)
    decreases |t|, 2
  {
    hide ReadValue;
    ValueLeaves(t);
    var w := SkipSpace(ReadValue(t).value.1);
    if w[0] != ']' {
      ItemsLeave(w[1..]);
    }
  }

  /** No text that starts with a brace is JSON unless some closing brace stands outside its
      strings. */
  lemma ObjectNeedsClose(t: string)
    requires Parse(t).Some? && (t == "" || t[0] == '{')
    ensures Closes(t, Outside)
  {
    hide ReadObject;
    ObjectCloses(t[1..]);
  }
}
