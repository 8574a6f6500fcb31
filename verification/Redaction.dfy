/** Secret removal by leftmost, non-overlapping replacement. */
module Redaction {
  import opened Strings

  const MARK := "***"

  /** `strings.ReplaceAll(s, needle, "***")` for non-empty `needle`: scan from the left,
      and after a match go on behind it. */
  function ReplaceAll(s: string, needle: string): string
    requires needle != ""
    decreases |s|
  {
    if |s| < |needle| then s
    else if s[..|needle|] == needle then MARK + ReplaceAll(s[|needle|..], needle)
    else [s[0]] + ReplaceAll(s[1..], needle)
  }

  /** `redactString` and the replacement inside `redact`. */
  function RedactString(s: string, key: string): string {
    if key == "" then s else ReplaceAll(s, key)
  }

  /** What `scrub` leaves: every non-empty secret replaced, in list order. */
  function Scrubbed(s: string, secrets: seq<string>): string
    decreases |secrets|
  {
    if secrets == [] then s else Scrubbed(RedactString(s, secrets[0]), secrets[1..])
  }

  /** A secret that can be removed from every text: the mark cannot help to spell it. */
  ghost predicate Removable(secret: string) {
    && secret != ""
    && secret[0] != '*'
    && secret[|secret| - 1] != '*'
    && !Contains(secret, MARK)
  }

  lemma StarFreeIsRemovable(secret: string)
    requires secret != "" && '*' !in secret
    ensures Removable(secret)
  {
    if Contains(secret, MARK) {
      var p: nat :| OccursAt(secret, MARK, p);
      OccurrenceReads(secret, MARK, p, 0);
    }
  }

  lemma OccurrenceReads(s: string, t: string, p: nat, i: nat)
    requires OccursAt(s, t, p) && i < |t|
    ensures s[p + i] == t[i]
  {
    assert s[p..p + |t|][i] == s[p + i];
  }

  /** Two overlapping readings of one text: a match shifts every occurrence inside it. */
  lemma OccurrenceShifts(s: string, t: string, p: nat, inner: string, q: nat)
    requires OccursAt(s, t, p) && OccursAt(t, inner, q)
    ensures OccursAt(s, inner, p + q)
  {
    forall i: nat | i < |inner| ensures s[p + q + i] == inner[i] {
      OccurrenceReads(t, inner, q, i);
      OccurrenceReads(s, t, p, q + i);
    }
    assert s[p + q..p + q + |inner|] == inner;
  }

  lemma MarkAtHead(r: string, t: string)
    requires MARK <= r && OccursAt(r, t, 0) && t != ""
    ensures t[|t| - 1] == '*' || Contains(t, MARK)
  {
    if |t| >= 3 {
      assert t[0..3] == r[..3];
      assert OccursAt(t, MARK, 0);
    } else {
      assert t[|t| - 1] == r[|t| - 1] == '*';
    }
  }

  /** A text that neither ends in a star nor contains the mark, found at the head of
      the replaced text, stood at the head of the original. */
  lemma {:induction false} HeadSurvives(s: string, needle: string, t: string)
    requires needle != ""
    requires OccursAt(ReplaceAll(s, needle), t, 0)
    requires t == "" || t[|t| - 1] != '*'
    requires !Contains(t, MARK)
    ensures OccursAt(s, t, 0)
    decreases |s|
  {
    var r := ReplaceAll(s, needle);
    if t == "" || |s| < |needle| {
    } else if s[..|needle|] == needle {
      assert false by {
        MarkAtHead(r, t);
      }
    } else {
      var rest := ReplaceAll(s[1..], needle);
      assert r[0..|t|] == [r[0]] + rest[0..|t| - 1];
      assert t[1..] == rest[0..|t| - 1];
      if Contains(t[1..], MARK) {
        assert t == t[..1] + t[1..];
        ContainsExtends(t[1..], t[..1], MARK);
      }
      HeadSurvives(s[1..], needle, t[1..]);
      assert t == [s[0]] + s[1..][0..|t| - 1] == s[0..|t|];
    }
  }

  /** What starts inside a mark starts with a star. */
  lemma MarkBlocks(rest: string, t: string, p: nat)
    requires t != "" && p < 3 && OccursAt(MARK + rest, t, p)
    ensures t[0] == '*'
  {
    OccurrenceReads(MARK + rest, t, p, 0);
  }

  lemma OccursInTail(front: string, rest: string, t: string, p: nat)
    requires p >= |front| && OccursAt(front + rest, t, p)
    ensures OccursAt(rest, t, p - |front|)
  {
    assert (front + rest)[p..p + |t|] == rest[p - |front|..p - |front| + |t|];
  }

  /** Replacing `needle` creates no occurrence of a removable secret, and of `needle` itself
      leaves none. */
  lemma {:induction false} OccurrenceTracesBack(s: string, needle: string, t: string, p: nat)
    requires needle != "" && Removable(t)
    requires OccursAt(ReplaceAll(s, needle), t, p)
    ensures t != needle && Contains(s, t)
    decreases |s|
  {
    if |s| < |needle| {
      assert OccursAt(s, t, p);
    } else {
      var matches := s[..|needle|] == needle;
      var k := if matches then |needle| else 1;
      var front := if matches then MARK else s[..1];
      assert ReplaceAll(s, needle) == front + ReplaceAll(s[k..], needle);
      if p == 0 && !matches {
        HeadSurvives(s, needle, t);
      } else {
        assert t != "" && t[0] != '*';
        hide ReplaceAll, Removable;
        if matches && p < 3 {
          MarkBlocks(ReplaceAll(s[k..], needle), t, p);
        } else {
          OccursInTail(front, ReplaceAll(s[k..], needle), t, p);
          OccurrenceTracesBack(s[k..], needle, t, p - |front|);
          assert s == s[..k] + s[k..];
          ContainsExtends(s[k..], s[..k], t);
        }
      }
    }
  }

  /** The pieces with `sep` between them. */
  function Join(pieces: seq<string>, sep: string): string
    requires pieces != []
  {
    if |pieces| == 1 then pieces[0] else pieces[0] + (sep + Join(pieces[1..], sep))
  }

  /** `needle` starts nowhere in a piece, not even to run on into the separator. */
  ghost predicate CutLeftmost(pieces: seq<string>, needle: string)
    requires pieces != []
  {
    && (forall i, p: nat :: 0 <= i < |pieces| - 1 && p < |pieces[i]| ==> !OccursAt(pieces[i] + needle, needle, p))
    && !Contains(pieces[|pieces| - 1], needle)
  }

  lemma JoinLonger(piece: string, rest: seq<string>, sep: string)
    requires rest != []
    ensures Join([piece] + rest, sep) == piece + (sep + Join(rest, sep))
  {
    assert ([piece] + rest)[1..] == rest;
  }

  lemma JoinGrows(front: string, pieces: seq<string>, sep: string)
    requires pieces != []
    ensures Join([front + pieces[0]] + pieces[1..], sep) == front + Join(pieces, sep)
  {
    if |pieces| > 1 {
      JoinLonger(front + pieces[0], pieces[1..], sep);
    }
  }

  lemma CutGrows(s: string, needle: string, pieces: seq<string>)
    requires pieces != [] && CutLeftmost(pieces, needle)
    requires s != "" && !(needle <= s) && Join(pieces, needle) == s[1..]
    ensures CutLeftmost([s[..1] + pieces[0]] + pieces[1..], needle)
  {
    var first := s[..1] + pieces[0];
    var grown := [first] + pieces[1..];
    if |pieces| == 1 {
      assert first == s;
      if Contains(s, needle) {
        var p: nat :| OccursAt(s, needle, p);
        assert p > 0 && s[1..][p - 1..p - 1 + |needle|] == s[p..p + |needle|];
        assert OccursAt(pieces[0], needle, p - 1);
      }
    } else {
      assert s == first + (needle + Join(pieces[1..], needle));
      forall p: nat | p < |first| ensures !OccursAt(first + needle, needle, p) {
        if OccursAt(first + needle, needle, p) {
          assert needle == (first + needle)[p..p + |needle|] == s[p..p + |needle|];
          assert p > 0 && (pieces[0] + needle)[p - 1..p - 1 + |needle|] == (first + needle)[p..p + |needle|];
          assert OccursAt(pieces[0] + needle, needle, p - 1);
        }
      }
      assert forall i :: 0 < i < |grown| ==> grown[i] == pieces[i];
    }
  }

  /** The replacement cuts a text at the leftmost matches that do not overlap, and joins the
      pieces again with marks. */
  lemma {:induction false} ReplacementRejoins(s: string, needle: string) returns (pieces: seq<string>)
    requires needle != ""
    ensures pieces != [] && CutLeftmost(pieces, needle)
    ensures Join(pieces, needle) == s && Join(pieces, MARK) == ReplaceAll(s, needle)
    decreases |s|
  {
    if |s| < |needle| {
      pieces := [s];
    } else if s[..|needle|] == needle {
      var rest := ReplacementRejoins(s[|needle|..], needle);
      pieces := [""] + rest;
      JoinLonger("", rest, needle);
      JoinLonger("", rest, MARK);
    } else {
      var rest := ReplacementRejoins(s[1..], needle);
      pieces := [s[..1] + rest[0]] + rest[1..];
      JoinGrows(s[..1], rest, needle);
      JoinGrows(s[..1], rest, MARK);
      CutGrows(s, needle, rest);
    }
  }

  /** A text without `needle` comes back unchanged. */
  lemma {:induction false} NothingToReplace(s: string, needle: string)
    requires needle != "" && !Contains(s, needle)
    ensures ReplaceAll(s, needle) == s
    decreases |s|
  {
    if |s| >= |needle| {
      assert !OccursAt(s, needle, 0);
      assert s == s[..1] + s[1..];
      if Contains(s[1..], needle) {
        ContainsExtends(s[1..], s[..1], needle);
      }
      NothingToReplace(s[1..], needle);
    }
  }

  /** The first match sits exactly behind `front`. */
  lemma {:induction false} FirstMatchAfter(front: string, needle: string, back: string)
    requires needle != "" && |back| < |needle|
    requires forall p: nat :: p < |front| ==> !OccursAt(front + needle + back, needle, p)
    ensures ReplaceAll(front + needle + back, needle) == front + MARK + back
    decreases |front|
  {
    var s := front + needle + back;
    if front == "" {
      assert s[..|needle|] == needle && s[|needle|..] == back;
    } else {
      assert !OccursAt(s, needle, 0);
      assert s[1..] == front[1..] + needle + back;
      forall p: nat | p < |front| - 1 ensures !OccursAt(front[1..] + needle + back, needle, p) {
        assert !OccursAt(s, needle, p + 1);
        assert s[p + 1..p + 1 + |needle|] == s[1..][p..p + |needle|];
      }
      FirstMatchAfter(front[1..], needle, back);
      assert front + MARK + back == [s[0]] + (front[1..] + MARK + back);
    }
  }

  /** Every secret that is not removable survives in some text. */
  lemma UnremovableSurvives(secret: string) returns (s: string)
    requires !Removable(secret)
    ensures Contains(RedactString(s, secret), secret)
  {
    if secret == "" {
      s := "";
      assert OccursAt(s, secret, 0);
    } else if secret[0] == '*' {
      s := secret + secret[1..];
      assert s == "" + secret + secret[1..];
      FirstMatchAfter("", secret, secret[1..]);
      var r := ReplaceAll(s, secret);
      assert r == MARK + secret[1..];
      assert r[2..2 + |secret|] == secret;
      assert OccursAt(r, secret, 2);
    } else if secret[|secret| - 1] == '*' {
      s := StarAtEndSurvives(secret);
    } else {
      s := MarkInsideSurvives(secret);
    }
  }

  lemma StarAtEndSurvives(secret: string) returns (s: string)
    requires secret != "" && secret[0] != '*' && secret[|secret| - 1] == '*'
    ensures Contains(ReplaceAll(s, secret), secret)
  {
    var n := |secret| - 1;
    var u := secret[..n];
    s := u + secret + "";
    forall p: nat | p < n ensures !OccursAt(s, secret, p) {
      if OccursAt(s, secret, p) {
        // an earlier match would give the secret periods p and n - p, hence a leading star
        assert false;
      }
    }
    FirstMatchAfter(u, secret, "");
    var r := ReplaceAll(s, secret);
    assert r[0..|secret|] == u + "*" == secret;
    assert OccursAt(r, secret, 0);
  }

  /** A second match `q - p` places earlier moves the mark inside the secret to the front. */
  lemma EarlierMark(s: string, secret: string, q: nat, p: nat)
    requires OccursAt(s, secret, q) && OccursAt(s, secret, p) && OccursAt(secret, MARK, q) && p <= q
    ensures OccursAt(secret, MARK, p)
  {
    OccurrenceShifts(s, secret, p, MARK, q);
    forall i: nat | i < 3 ensures secret[p + i] == MARK[i] {
      OccurrenceReads(s, secret, q, p + i);
      OccurrenceReads(s, MARK, p + q, i);
    }
    assert secret[p..p + 3] == MARK;
  }

  lemma MarkInsideSurvives(secret: string) returns (s: string)
    requires Contains(secret, MARK)
    ensures secret != "" && Contains(ReplaceAll(s, secret), secret)
  {
    var q: nat :| OccursAt(secret, MARK, q);
    q := FirstOccurrence(secret, MARK, q);
    var x, y := secret[..q], secret[q + 3..];
    assert secret == x + MARK + y;
    s := x + secret + y;
    assert s[q..q + |secret|] == secret;
    forall p: nat | p < q ensures !OccursAt(s, secret, p) {
      if OccursAt(s, secret, p) {
        EarlierMark(s, secret, q, p);
      }
    }
    FirstMatchAfter(x, secret, y);
    var r := ReplaceAll(s, secret);
    assert r == x + MARK + y == secret;
    assert OccursAt(r, secret, 0);
  }

  lemma {:induction false} FirstOccurrence(s: string, t: string, at: nat) returns (first: nat)
    requires OccursAt(s, t, at)
    ensures OccursAt(s, t, first) && forall p: nat :: p < first ==> !OccursAt(s, t, p)
    decreases at
  {
    first := at;
    if p: nat :| p < at && OccursAt(s, t, p) {
      first := FirstOccurrence(s, t, p);
    }
  }

  /** Redaction removes a key from every text exactly when the key is removable. */
  lemma RedactionIsExact(key: string)
    ensures (forall s :: !Contains(RedactString(s, key), key)) <==> Removable(key)
  {
    if Removable(key) {
      forall s ensures !Contains(RedactString(s, key), key) {
        if Contains(RedactString(s, key), key) {
          var p: nat :| OccursAt(ReplaceAll(s, key), key, p);
          OccurrenceTracesBack(s, key, key, p);
        }
      }
    } else {
      var s := UnremovableSurvives(key);
    }
  }

  /** Redacting twice is redacting once. */
  lemma RedactionIdempotent(s: string, key: string)
    requires key == "" || Removable(key)
    ensures RedactString(RedactString(s, key), key) == RedactString(s, key)
  {
    if key != "" {
      RedactionIsExact(key);
      NothingToReplace(RedactString(s, key), key);
    }
  }

  /** A match makes a difference, unless it is the mark itself. */
  lemma {:induction false} ReplacementChanges(s: string, needle: string)
    requires needle != "" && needle != MARK && Contains(s, needle)
    ensures ReplaceAll(s, needle) != s
    decreases |s|
  {
    LengthChanges(s, needle);
    if |needle| == 3 {
      if s[..3] != needle {
        var p: nat :| OccursAt(s, needle, p);
        assert p > 0 && s[1..][p - 1..p + 2] == s[p..p + 3];
        assert OccursAt(s[1..], needle, p - 1);
        ReplacementChanges(s[1..], needle);
        assert s == [s[0]] + s[1..];
        assert ReplaceAll(s, needle)[1..] == ReplaceAll(s[1..], needle);
      } else {
        assert ReplaceAll(s, needle)[..3] == MARK;
      }
    }
  }

  lemma {:induction false} LengthChanges(s: string, needle: string)
    requires needle != ""
    ensures |needle| <= 3 ==> |ReplaceAll(s, needle)| >= |s|
    ensures |needle| >= 3 ==> |ReplaceAll(s, needle)| <= |s|
    ensures |needle| != 3 && Contains(s, needle) ==> |ReplaceAll(s, needle)| != |s|
    decreases |s|
  {
    if |s| >= |needle| {
      if s[..|needle|] == needle {
        LengthChanges(s[|needle|..], needle);
      } else {
        LengthChanges(s[1..], needle);
        if p: nat :| OccursAt(s, needle, p) {
          assert p > 0 && s[1..][p - 1..p - 1 + |needle|] == s[p..p + |needle|];
          assert OccursAt(s[1..], needle, p - 1);
        }
      }
    }
  }

  lemma {:induction false} MarkStays(s: string)
    ensures ReplaceAll(s, MARK) == s
    decreases |s|
  {
    if |s| >= 3 {
      if s[..3] == MARK {
        MarkStays(s[3..]);
      } else {
        MarkStays(s[1..]);
      }
    }
  }

  /** Redacting twice is redacting once, for all texts, exactly when the key is blank, is the
      mark, or is removable. */
  lemma IdempotenceIsExact(key: string)
    ensures (forall s :: RedactString(RedactString(s, key), key) == RedactString(s, key)) <==>
            key == "" || key == MARK || Removable(key)
  {
    if key == MARK {
      forall s ensures RedactString(s, key) == s {
        MarkStays(s);
      }
    } else if key == "" || Removable(key) {
      forall s ensures RedactString(RedactString(s, key), key) == RedactString(s, key) {
        RedactionIdempotent(s, key);
      }
    } else {
      var s := UnremovableSurvives(key);
      ReplacementChanges(RedactString(s, key), key);
      assert RedactString(RedactString(s, key), key) != RedactString(s, key);
    }
  }

  /** Later replacements never bring a removable secret back, whatever they replace. */
  lemma {:induction false} ScrubAddsNone(s: string, secrets: seq<string>, t: string)
    requires Removable(t) && !Contains(s, t)
    ensures !Contains(Scrubbed(s, secrets), t)
    decreases |secrets|
  {
    if secrets != [] {
      var next := RedactString(s, secrets[0]);
      if Contains(next, t) && secrets[0] != "" {
        var p: nat :| OccursAt(next, t, p);
        OccurrenceTracesBack(s, secrets[0], t, p);
      }
      ScrubAddsNone(next, secrets[1..], t);
    }
  }

  /** No removable secret of the list is left, whatever the other entries are. */
  lemma {:induction false} ScrubRemoves(s: string, secrets: seq<string>, t: string)
    requires t in secrets && Removable(t)
    ensures !Contains(Scrubbed(s, secrets), t)
    decreases |secrets|
  {
    var next := RedactString(s, secrets[0]);
    if secrets[0] == t {
      RedactionIsExact(t);
      ScrubAddsNone(next, secrets[1..], t);
    } else {
      ScrubRemoves(next, secrets[1..], t);
    }
  }

  /** A text without any of the secrets comes back unchanged. */
  lemma {:induction false} NothingToScrub(s: string, secrets: seq<string>)
    requires forall t <- secrets :: t == "" || !Contains(s, t)
    ensures Scrubbed(s, secrets) == s
    decreases |secrets|
  {
    if secrets != [] {
      if secrets[0] != "" {
        NothingToReplace(s, secrets[0]);
      }
      NothingToScrub(s, secrets[1..]);
    }
  }

  /** Scrubbing twice is scrubbing once. */
  lemma ScrubIdempotent(s: string, secrets: seq<string>)
    requires forall t <- secrets :: t == "" || Removable(t)
    ensures Scrubbed(Scrubbed(s, secrets), secrets) == Scrubbed(s, secrets)
  {
    forall t | t in secrets && t != "" ensures !Contains(Scrubbed(s, secrets), t) {
      ScrubRemoves(s, secrets, t);
    }
    NothingToScrub(Scrubbed(s, secrets), secrets);
  }

  /** `scrub`. */
  method Scrub(s: string, secrets: seq<string>) returns (r: string)
    ensures r == Scrubbed(s, secrets)
    ensures forall t <- secrets :: Removable(t) ==> !Contains(r, t)
  {
    r := s;
    for i := 0 to |secrets|
      invariant Scrubbed(s, secrets) == Scrubbed(r, secrets[i..])
    {
      if secrets[i] != "" {
        r := ReplaceAll(r, secrets[i]);
      }
      assert secrets[i..][1..] == secrets[i + 1..];
    }
    forall t | t in secrets && Removable(t) ensures !Contains(r, t) {
      ScrubRemoves(s, secrets, t);
    }
  }
}
