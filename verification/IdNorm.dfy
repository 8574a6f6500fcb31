/** Matching API ids "{agency}_{raw}" with raw feed ids. */
module IdNorm {

  /** `strings.IndexByte(s, '_')`, with the length of `s` for "none". */
  function Underscore(s: string): (i: nat)
    ensures i <= |s| && '_' !in s[..i]
    ensures i < |s| ==> s[i] == '_'
  {
    if s == "" || s[0] == '_' then 0
    else
      var i := Underscore(s[1..]);
      assert s[..i + 1] == [s[0]] + s[1..][..i];
      i + 1
  }

  function RawID(apiID: string): string {
    var i := Underscore(apiID);
    if i < |apiID| then apiID[i + 1..] else apiID
  }

  function PrefixedID(agencyID: string, rawID: string): string {
    if agencyID == "" then rawID else agencyID + "_" + rawID
  }

  predicate IDMatch(apiID: string, rawFeedID: string, agencyID: string) {
    if apiID == rawFeedID then true
    else if RawID(apiID) == rawFeedID then true
    else if agencyID != "" && apiID == PrefixedID(agencyID, rawFeedID) then true
    else false
  }

  /** `apiID` is `prefix`, an underscore, and `raw`. */
  predicate Splits(apiID: string, prefix: string, raw: string) {
    apiID == prefix + "_" + raw
  }

  lemma {:induction false} UnderscoreBehind(prefix: string, raw: string)
    requires '_' !in prefix
    ensures Underscore(prefix + "_" + raw) == |prefix|
  {
    var s := prefix + "_" + raw;
    if prefix != "" {
      assert s[1..] == prefix[1..] + "_" + raw;
      UnderscoreBehind(prefix[1..], raw);
    }
  }

  /** `RawID` takes off exactly the part up to the first underscore. */
  lemma RawIDSplits(apiID: string, raw: string)
    ensures RawID(apiID) == raw <==>
            (apiID == raw && '_' !in apiID) || (exists p :: '_' !in p && Splits(apiID, p, raw))
  {
    var i := Underscore(apiID);
    assert apiID == apiID[..i] + apiID[i..];
    if i < |apiID| {
      assert apiID == apiID[..i] + "_" + apiID[i + 1..];
      if RawID(apiID) == raw {
        assert Splits(apiID, apiID[..i], raw);
      }
    } else {
      assert apiID[..i] == apiID;
    }
    forall p | '_' !in p && Splits(apiID, p, raw) ensures RawID(apiID) == raw {
      UnderscoreBehind(p, raw);
    }
  }

  /** The API id is the raw id, or the raw id behind some underscore-free prefix, or behind
      the id of the agency. */
  ghost predicate RefersTo(apiID: string, raw: string, agencyID: string) {
    || apiID == raw
    || (exists p :: '_' !in p && Splits(apiID, p, raw))
    || (agencyID != "" && Splits(apiID, agencyID, raw))
  }

  lemma MatchMeaning(apiID: string, raw: string, agencyID: string)
    ensures IDMatch(apiID, raw, agencyID) <==> RefersTo(apiID, raw, agencyID)
  {
    RawIDSplits(apiID, raw);
  }

  /** The id OBA builds for a raw id matches it, whatever the agency looks like. */
  lemma PrefixedMatches(agencyID: string, raw: string)
    ensures IDMatch(PrefixedID(agencyID, raw), raw, agencyID)
  {
  }

  /** `RawID` inverts `PrefixedID` exactly when the first underscore is the one that was added. */
  lemma RawIDInverts(agencyID: string, raw: string)
    ensures RawID(PrefixedID(agencyID, raw)) == raw <==> '_' !in (if agencyID != "" then agencyID else raw)
  {
    if agencyID == "" {
      assert raw[..|raw|] == raw;
    } else if '_' !in agencyID {
      UnderscoreBehind(agencyID, raw);
    } else {
      var k :| 0 <= k < |agencyID| && agencyID[k] == '_';
      UnderscoreAtMost(PrefixedID(agencyID, raw), k);
    }
  }

  lemma {:induction false} UnderscoreAtMost(s: string, k: nat)
    requires k < |s| && s[k] == '_'
    ensures Underscore(s) <= k
  {
    if k > 0 {
      UnderscoreAtMost(s[1..], k - 1);
    }
  }

  /** One API id refers to at most three raw ids, and to at most two under an agency id
      without underscore. */
  lemma FewMatches(apiID: string, agencyID: string, raws: set<string>)
    requires forall raw <- raws :: IDMatch(apiID, raw, agencyID)
    ensures |raws| <= 3 && ('_' !in agencyID ==> |raws| <= 2)
  {
    var n := |agencyID| + 1;
    var third := if n <= |apiID| then apiID[n..] else apiID;
    forall raw | raw in raws ensures raw in {apiID, RawID(apiID), third} {
      if Splits(apiID, agencyID, raw) {
        assert apiID[n..] == raw;
      }
    }
    AtMostThree(raws, apiID, RawID(apiID), third);
    if '_' !in agencyID {
      forall raw | raw in raws ensures raw in {apiID, RawID(apiID)} {
        if Splits(apiID, agencyID, raw) {
          UnderscoreBehind(agencyID, raw);
        }
      }
      AtMostTwo(raws, apiID, RawID(apiID));
    }
  }

  lemma AtMostTwo(s: set<string>, a: string, b: string)
    requires s <= {a, b}
    ensures |s| <= 2
  {
    var rest := s - {a};
    assert rest <= {b};
    assert |rest| <= 1 by {
      assert rest == {} || rest == {b};
    }
    assert |s| <= |rest| + 1;
  }

  lemma AtMostThree(s: set<string>, a: string, b: string, c: string)
    requires s <= {a, b, c}
    ensures |s| <= 3
  {
    AtMostTwo(s - {a}, b, c);
  }
}
