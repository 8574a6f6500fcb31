/** Stable sorting by a string key, and the deterministic sample taken from it. */
module Sampling {
  import opened Strings

  /** `x` behind every element whose key is not above its own. */
  function InsertLast<T>(s: seq<T>, x: T, key: T -> string): seq<T> {
    if s == [] || !LexLess(key(x), key(s[|s| - 1])) then s + [x]
    else InsertLast(s[..|s| - 1], x, key) + [s[|s| - 1]]
  }

  /** What `sort.SliceStable` leaves. */
  function StableSort<T>(s: seq<T>, key: T -> string): seq<T> {
    if s == [] then [] else InsertLast(StableSort(s[..|s| - 1], key), s[|s| - 1], key)
  }

  ghost predicate SortedBy<T(!new)>(s: seq<T>, key: T -> string) {
    forall i, j :: 0 <= i < j < |s| ==> !LexLess(key(s[j]), key(s[i]))
  }

  /** The elements with key `k`, in order. */
  function WithKey<T>(s: seq<T>, k: string, key: T -> string): seq<T> {
    if s == [] then []
    else WithKey(s[..|s| - 1], k, key) + (if key(s[|s| - 1]) == k then [s[|s| - 1]] else [])
  }

  /** Same elements per key in the same order: a permutation that keeps ties in place. */
  ghost predicate StablePermutation<T(!new)>(s: seq<T>, t: seq<T>, key: T -> string) {
    forall k :: WithKey(s, k, key) == WithKey(t, k, key)
  }

  lemma {:induction false} WithKeyMembers<T(!new)>(s: seq<T>, k: string, key: T -> string)
    ensures forall x :: x in WithKey(s, k, key) <==> x in s && key(x) == k
    decreases |s|
  {
    if s != [] {
      WithKeyMembers(s[..|s| - 1], k, key);
      assert s == s[..|s| - 1] + [s[|s| - 1]];
    }
  }

  lemma HeadIsMember<T>(s: seq<T>)
    requires s != []
    ensures s[0] in s
  {}

  lemma StablePermutationMembers<T(!new)>(s: seq<T>, t: seq<T>, key: T -> string)
    requires StablePermutation(s, t, key)
    ensures forall x :: x in s <==> x in t
  {
    forall x ensures x in s <==> x in t {
      WithKeyMembers(s, key(x), key);
      WithKeyMembers(t, key(x), key);
    }
  }

  /** The same elements per key are as many. */
  lemma {:induction false} StablePermutationLength<T(!new)>(s: seq<T>, t: seq<T>, key: T -> string)
    requires StablePermutation(s, t, key)
    ensures |s| == |t|
    decreases |s|
  {
    StablePermutationMembers(s, t, key);
    if s == [] {
      if t != [] {
        HeadIsMember(t);
      }
    } else {
      var x := s[|s| - 1];
      assert x in s && x in t;
      var i := LastWithKey(t, key(x), key);
      var u := t[..i] + t[i + 1..];
      forall k ensures WithKey(s[..|s| - 1], k, key) == WithKey(u, k, key) {
        assert WithKey(s, k, key) == WithKey(t, k, key);
        DropLastWithKey(t, i, k, key);
        WithKeyLast(s, k, key);
      }
      StablePermutationLength(s[..|s| - 1], u, key);
    }
  }

  lemma WithKeyLast<T(!new)>(s: seq<T>, k: string, key: T -> string)
    requires s != []
    ensures WithKey(s[..|s| - 1], k, key) ==
            if key(s[|s| - 1]) == k then WithKey(s, k, key)[..|WithKey(s, k, key)| - 1] else WithKey(s, k, key)
  {
  }

  /** The last place of a key that occurs. */
  lemma {:induction false} LastWithKey<T(!new)>(t: seq<T>, k: string, key: T -> string) returns (i: nat)
    requires exists x <- t :: key(x) == k
    ensures i < |t| && key(t[i]) == k && forall j :: i < j < |t| ==> key(t[j]) != k
    decreases |t|
  {
    i := |t| - 1;
    if key(t[i]) != k {
      assert t == t[..i] + [t[i]];
      i := LastWithKey(t[..i], k, key);
    }
  }

  lemma {:induction false} DropLastWithKey<T(!new)>(t: seq<T>, i: nat, k: string, key: T -> string)
    requires i < |t| && forall j :: i < j < |t| ==> key(t[j]) != key(t[i])
    ensures WithKey(t, k, key) != [] || key(t[i]) != k
    ensures WithKey(t[..i] + t[i + 1..], k, key) ==
            if key(t[i]) == k then WithKey(t, k, key)[..|WithKey(t, k, key)| - 1] else WithKey(t, k, key)
    decreases |t|
  {
    var n := |t| - 1;
    if i == n {
      assert t[..i] + t[i + 1..] == t[..n];
    } else {
      var u := t[..i] + t[i + 1..];
      DropLastWithKey(t[..n], i, k, key);
      assert u[..|u| - 1] == t[..n][..i] + t[..n][i + 1..] && u[|u| - 1] == t[n];
    }
  }

  lemma {:induction false} InsertMembers<T(!new)>(s: seq<T>, x: T, key: T -> string)
    ensures forall y :: y in InsertLast(s, x, key) <==> y in s || y == x
    decreases |s|
  {
    if s != [] && LexLess(key(x), key(s[|s| - 1])) {
      InsertMembers(s[..|s| - 1], x, key);
      assert s == s[..|s| - 1] + [s[|s| - 1]];
    }
  }

  lemma {:induction false} InsertKeepsTies<T(!new)>(s: seq<T>, x: T, key: T -> string, k: string)
    requires SortedBy(s, key)
    ensures WithKey(InsertLast(s, x, key), k, key) == WithKey(s, k, key) + (if key(x) == k then [x] else [])
    decreases |s|
  {
    var r := InsertLast(s, x, key);
    if s == [] || !LexLess(key(x), key(s[|s| - 1])) {
      assert r[..|r| - 1] == s;
    } else {
      var front, last := s[..|s| - 1], s[|s| - 1];
      assert SortedBy(front, key);
      InsertKeepsTies(front, x, key, k);
      assert r[..|r| - 1] == InsertLast(front, x, key);
      LexAsymmetric(key(x), key(last));
    }
  }

  lemma LastIsGreatest<T(!new)>(s: seq<T>, key: T -> string)
    requires s != [] && SortedBy(s, key)
    ensures forall x <- s :: !LexLess(key(s[|s| - 1]), key(x))
  {
    forall x | x in s ensures !LexLess(key(s[|s| - 1]), key(x)) {
      var i :| 0 <= i < |s| && s[i] == x;
      LexIrreflexive(key(x));
    }
  }

  lemma {:induction false} InsertSorts<T(!new)>(s: seq<T>, x: T, key: T -> string)
    requires SortedBy(s, key)
    ensures SortedBy(InsertLast(s, x, key), key)
    decreases |s|
  {
    var r := InsertLast(s, x, key);
    if s == [] {
    } else if !LexLess(key(x), key(s[|s| - 1])) {
      LastIsGreatest(s, key);
      forall i, j | 0 <= i < j < |r| ensures !LexLess(key(r[j]), key(r[i])) {
        if j == |s| {
          assert r[i] in s;
          LexWeakTransitive(key(r[i]), key(s[|s| - 1]), key(x));
        }
      }
    } else {
      var front, last := s[..|s| - 1], s[|s| - 1];
      InsertSorts(front, x, key);
      InsertMembers(front, x, key);
      LexAsymmetric(key(x), key(last));
      LastIsGreatest(s, key);
      assert forall y <- front :: y in s;
      forall i, j | 0 <= i < j < |r| ensures !LexLess(key(r[j]), key(r[i])) {
        if j == |r| - 1 {
          assert r[i] in InsertLast(front, x, key);
        }
      }
    }
  }

  lemma LexIrreflexive(a: string)
    ensures !LexLess(a, a)
  {
    if LexLess(a, a) {
      LexAsymmetric(a, a);
    }
  }

  lemma {:induction false} SortIsStable<T(!new)>(s: seq<T>, key: T -> string)
    ensures SortedBy(StableSort(s, key), key)
    ensures StablePermutation(StableSort(s, key), s, key)
    decreases |s|
  {
    if s != [] {
      var front, last := s[..|s| - 1], s[|s| - 1];
      SortIsStable(front, key);
      InsertSorts(StableSort(front, key), last, key);
      forall k ensures WithKey(StableSort(s, key), k, key) == WithKey(s, k, key) {
        InsertKeepsTies(StableSort(front, key), last, key, k);
      }
    }
  }

  /* ----- There is only one stable sort ----- */

  /** Two sorted sequences with the same elements per key in the same order are equal. */
  lemma {:induction false} StableSortUnique<T(!new)>(s: seq<T>, t: seq<T>, key: T -> string)
    requires SortedBy(s, key) && SortedBy(t, key) && StablePermutation(s, t, key)
    ensures s == t
    decreases |s|
  {
    StablePermutationMembers(s, t, key);
    if s == [] {
      if t != [] {
        HeadIsMember(t);
      }
    } else {
      assert s[|s| - 1] in t;
      var a, b := s[|s| - 1], t[|t| - 1];
      LastIsGreatest(s, key);
      LastIsGreatest(t, key);
      assert b in s;
      LexTotal(key(a), key(b));
      assert WithKey(s, key(a), key) == WithKey(t, key(a), key);
      assert WithKey(s, key(a), key)[|WithKey(s, key(a), key)| - 1] == a;
      assert WithKey(t, key(b), key)[|WithKey(t, key(b), key)| - 1] == b;
      assert a == b;
      var front, frontT := s[..|s| - 1], t[..|t| - 1];
      forall k ensures WithKey(front, k, key) == WithKey(frontT, k, key) {
        assert WithKey(s, k, key) == WithKey(t, k, key);
        var tail := if key(a) == k then [a] else [];
        assert WithKey(front, k, key) + tail == WithKey(frontT, k, key) + tail;
        assert WithKey(front, k, key) == (WithKey(front, k, key) + tail)[..|WithKey(front, k, key)|];
        assert WithKey(frontT, k, key) == (WithKey(frontT, k, key) + tail)[..|WithKey(frontT, k, key)|];
      }
      StableSortUnique(front, frontT, key);
      assert s == front + [a] && t == frontT + [b];
    }
  }

  ghost predicate DistinctKeys<T(!new)>(s: seq<T>, key: T -> string) {
    forall i, j :: 0 <= i < j < |s| ==> key(s[i]) != key(s[j])
  }

  lemma {:induction false} WithKeyDistinct<T(!new)>(s: seq<T>, k: string, key: T -> string)
    requires DistinctKeys(s, key)
    ensures |WithKey(s, k, key)| <= 1
    decreases |s|
  {
    if s != [] {
      var front, last := s[..|s| - 1], s[|s| - 1];
      WithKeyDistinct(front, k, key);
      if key(last) == k && WithKey(front, k, key) != [] {
        WithKeyMembers(front, k, key);
        HeadIsMember(WithKey(front, k, key));
      }
    }
  }

  lemma WithKeySameMembers<T(!new)>(s: seq<T>, t: seq<T>, k: string, key: T -> string)
    requires DistinctKeys(s, key) && DistinctKeys(t, key)
    requires forall x :: x in s <==> x in t
    ensures WithKey(s, k, key) == WithKey(t, k, key)
  {
    WithKeyDistinct(s, k, key);
    WithKeyDistinct(t, k, key);
    WithKeyMembers(s, k, key);
    WithKeyMembers(t, k, key);
    var a, b := WithKey(s, k, key), WithKey(t, k, key);
    assert forall x :: x in a <==> x in b;
    if a != [] {
      HeadIsMember(a);
    }
    if b != [] {
      HeadIsMember(b);
    }
  }

  /** With distinct keys the order of the input does not matter. */
  lemma SortIgnoresOrder<T(!new)>(s: seq<T>, t: seq<T>, key: T -> string)
    requires DistinctKeys(s, key) && DistinctKeys(t, key)
    requires forall x :: x in s <==> x in t
    ensures StableSort(s, key) == StableSort(t, key)
  {
    SortIsStable(s, key);
    SortIsStable(t, key);
    forall k ensures WithKey(StableSort(s, key), k, key) == WithKey(StableSort(t, key), k, key) {
      assert WithKey(StableSort(s, key), k, key) == WithKey(s, k, key);
      assert WithKey(StableSort(t, key), k, key) == WithKey(t, k, key);
      WithKeySameMembers(s, t, k, key);
    }
    StableSortUnique(StableSort(s, key), StableSort(t, key), key);
  }

  /* ----- The sample ----- */

  /** Elements above `x` stay behind it. */
  lemma {:induction false} InsertPeels<T>(s: seq<T>, x: T, key: T -> string, j: nat)
    requires j <= |s| && forall k :: j <= k < |s| ==> LexLess(key(x), key(s[k]))
    ensures InsertLast(s, x, key) == InsertLast(s[..j], x, key) + s[j..]
    decreases |s|
  {
    if j == |s| {
      assert s[..j] == s;
    } else {
      var front := s[..|s| - 1];
      InsertPeels(front, x, key, j);
      assert front[..j] == s[..j] && front[j..] + [s[|s| - 1]] == s[j..];
    }
  }

  /** Inserts `a[i]` into the sorted part before it. */
  method InsertInPlace<T(!new)>(a: array<T>, i: nat, key: T -> string)
    requires i < a.Length
    modifies a
    ensures a[..i + 1] == InsertLast(old(a[..i]), old(a[i]), key)
    ensures a[i + 1..] == old(a[i + 1..])
  {
    ghost var front := a[..i];
    var x := a[i];
    var j := i;
    while j > 0 && LexLess(key(x), key(a[j - 1]))
      invariant 0 <= j <= i
      invariant forall k :: 0 <= k < j ==> a[k] == front[k]
      invariant forall k :: j < k <= i ==> a[k] == front[k - 1]
      invariant forall k :: j <= k < i ==> LexLess(key(x), key(front[k]))
      invariant forall k :: i < k < a.Length ==> a[k] == old(a[k])
    {
      a[j] := a[j - 1];
      j := j - 1;
    }
    a[j] := x;
    InsertPeels(front, x, key, j);
    assert InsertLast(front[..j], x, key) == front[..j] + [x] by {
      assert j == 0 || front[..j][j - 1] == front[j - 1];
    }
    hide InsertLast, LexLess;
    assert a[..j] == front[..j] && a[j] == x && a[j + 1..i + 1] == front[j..];
    assert a[..i + 1] == a[..j] + [a[j]] + a[j + 1..i + 1];
  }

  /** The stable sort in place, by insertion. */
  method SortStable<T(!new)>(a: array<T>, key: T -> string)
    modifies a
    ensures a[..] == StableSort(old(a[..]), key)
  {
    ghost var input := a[..];
    for i := 0 to a.Length
      invariant a[..i] == StableSort(input[..i], key)
      invariant a[i..] == input[i..]
    {
      assert input[..i + 1][..i] == input[..i] && a[i] == a[i..][0] == input[i];
      assert a[i + 1..] == a[i..][1..];
      InsertInPlace(a, i, key);
    }
    assert a[..a.Length] == a[..] && input[..a.Length] == input;
  }

  /** `sampleByID`: a copy is sorted and cut; the items themselves stay untouched. `None` is
      the panic of a cut at a negative length. */
  method SampleByID<T(0, !new)>(items: seq<T>, n: int, key: T -> string) returns (sample: Option<seq<T>>)
    ensures sample == if n < 0 then None else Some(Sampled(items, n, key))
  {
    var cp := new T[|items|](i requires 0 <= i < |items| => items[i]);
    assert cp[..] == items;
    SortStable(cp, key);
    if n < cp.Length {
      if n < 0 {
        return None;
      }
      return Some(cp[..n]);
    }
    return Some(cp[..]);
  }

  function Sampled<T>(items: seq<T>, n: nat, key: T -> string): seq<T> {
    var cp := StableSort(items, key);
    if n < |cp| then cp[..n] else cp
  }

  lemma {:induction false} SortLength<T>(s: seq<T>, key: T -> string)
    ensures |StableSort(s, key)| == |s|
    decreases |s|
  {
    if s != [] {
      SortLength(s[..|s| - 1], key);
      InsertLength(StableSort(s[..|s| - 1], key), s[|s| - 1], key);
    }
  }

  lemma {:induction false} InsertLength<T>(s: seq<T>, x: T, key: T -> string)
    ensures |InsertLast(s, x, key)| == |s| + 1
    decreases |s|
  {
    if s != [] && LexLess(key(x), key(s[|s| - 1])) {
      InsertLength(s[..|s| - 1], x, key);
    }
  }

  lemma SampledLength<T>(items: seq<T>, n: nat, key: T -> string)
    ensures |Sampled(items, n, key)| == if n < |items| then n else |items|
  {
    SortLength(items, key);
  }

  /** No key precedes one before it. */
  ghost predicate InOrder<T(!new)>(s: seq<T>, key: T -> string) {
    forall i, j :: 0 <= i < j < |s| ==> !Precedes(key(s[j]), key(s[i]))
  }

  /** Each string precedes the ones behind it. */
  ghost predicate Ascending(s: seq<string>) {
    forall i, j :: 0 <= i < j < |s| ==> Precedes(s[i], s[j])
  }

  lemma SortedIsInOrder<T(!new)>(s: seq<T>, key: T -> string)
    requires SortedBy(s, key)
    ensures InOrder(s, key)
  {
    forall i, j | 0 <= i < j < |s| ensures !Precedes(key(s[j]), key(s[i])) {
      LexLessMeans(key(s[j]), key(s[i]));
    }
  }

  /** The sample is the head of a stable sort: `rest` completes it to one, and no
      unsampled key precedes a sampled key. */
  lemma SampleIsSmallest<T(!new)>(items: seq<T>, n: nat, key: T -> string) returns (rest: seq<T>)
    ensures var sample := Sampled(items, n, key);
            && |sample| == (if n < |items| then n else |items|)
            && InOrder(sample + rest, key) && StablePermutation(sample + rest, items, key)
            && (forall x <- sample, y <- rest :: !Precedes(key(y), key(x)))
            && (forall x :: x in sample + rest <==> x in items)
  {
    var cp := StableSort(items, key);
    SortIsStable(items, key);
    SortLength(items, key);
    StablePermutationMembers(cp, items, key);
    SortedIsInOrder(cp, key);
    var sample := Sampled(items, n, key);
    rest := cp[|sample|..];
    assert sample + rest == cp;
    forall x, y | x in sample && y in rest ensures !Precedes(key(y), key(x)) {
      var i :| 0 <= i < |sample| && sample[i] == x;
      var j :| 0 <= j < |rest| && rest[j] == y;
      assert cp[i] == x && cp[|sample| + j] == y;
    }
  }

  /** Repeated runs sample the same entities: with distinct keys the order in which the
      feed lists them does not matter. */
  lemma SampleIgnoresOrder<T(!new)>(items: seq<T>, other: seq<T>, n: nat, key: T -> string)
    requires DistinctKeys(items, key) && DistinctKeys(other, key)
    requires forall x :: x in items <==> x in other
    ensures Sampled(items, n, key) == Sampled(other, n, key)
  {
    SortIgnoresOrder(items, other, key);
  }

  /* ----- Sorting strings ----- */

  function Itself(s: string): string { s }

  /** `sort.Strings`. */
  function SortStrings(s: seq<string>): seq<string> {
    StableSort(s, Itself)
  }

  ghost predicate StrictlySorted(s: seq<string>) {
    forall i, j :: 0 <= i < j < |s| ==> LexLess(s[i], s[j])
  }

  lemma SortStringsStrict(s: seq<string>)
    requires DistinctKeys(s, Itself)
    ensures StrictlySorted(SortStrings(s)) && Ascending(SortStrings(s)) && |SortStrings(s)| == |s|
    ensures forall x :: x in SortStrings(s) <==> x in s
  {
    var r := SortStrings(s);
    SortIsStable(s, Itself);
    SortLength(s, Itself);
    StablePermutationMembers(r, s, Itself);
    forall i, j | 0 <= i < j < |r| ensures LexLess(r[i], r[j]) {
      LexTotal(r[i], r[j]);
      WithKeyDistinct(s, r[i], Itself);
      assert WithKey(r, r[i], Itself) == WithKey(s, r[i], Itself);
      if r[i] == r[j] {
        WithKeyTwice(r, i, j, Itself);
      }
    }
    StrictIsAscending(r);
  }

  lemma StrictIsAscending(s: seq<string>)
    requires StrictlySorted(s)
    ensures Ascending(s)
  {
    forall i, j | 0 <= i < j < |s| ensures Precedes(s[i], s[j]) {
      LexLessMeans(s[i], s[j]);
    }
  }

  lemma {:induction false} WithKeyTwice<T(!new)>(s: seq<T>, i: nat, j: nat, key: T -> string)
    requires i < j < |s| && key(s[i]) == key(s[j])
    ensures |WithKey(s, key(s[i]), key)| >= 2
    decreases |s|
  {
    var front := s[..|s| - 1];
    if j < |s| - 1 {
      WithKeyTwice(front, i, j, key);
    } else {
      WithKeyMembers(front, key(s[i]), key);
      assert front[i] in front;
      assert s[i] in WithKey(front, key(s[i]), key);
    }
  }
}
