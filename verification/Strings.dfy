/** Byte strings as the program uses them: occurrence, the order of `sort.Strings`,
    and the decimal labels of data sources. A `char` stands for one byte. */
module Strings {

  /** `t` occurs in `s` starting at `p`. */
  ghost predicate OccursAt(s: string, t: string, p: nat) {
    p + |t| <= |s| && s[p..p + |t|] == t
  }

  /** `strings.Contains`. */
  ghost predicate Contains(s: string, t: string) {
    exists p: nat :: OccursAt(s, t, p)
  }

  lemma ContainsExtends(s: string, front: string, t: string)
    requires Contains(s, t)
    ensures Contains(front + s, t)
  {
    var p: nat :| OccursAt(s, t, p);
    assert (front + s)[|front| + p..|front| + p + |t|] == s[p..p + |t|];
    assert OccursAt(front + s, t, |front| + p);
  }

  /** The bytewise order behind `<` on Go strings. */
  predicate LexLess(a: string, b: string) {
    |b| > 0 && (|a| == 0 || a[0] < b[0] || (a[0] == b[0] && LexLess(a[1..], b[1..])))
  }

  /** `a` comes first: at the first place where the two differ, it ends or has the smaller byte. */
  ghost predicate Precedes(a: string, b: string) {
    exists i: nat :: DiffersAt(a, b, i)
  }

  ghost predicate DiffersAt(a: string, b: string, i: nat) {
    i <= |a| && i < |b| && a[..i] == b[..i] && (i == |a| || a[i] < b[i])
  }

  lemma {:induction false} LexLessMeans(a: string, b: string)
    ensures LexLess(a, b) <==> Precedes(a, b)
  {
    if |b| > 0 {
      if |a| == 0 || a[0] < b[0] {
        assert DiffersAt(a, b, 0);
      } else {
        if a[0] == b[0] {
          LexLessMeans(a[1..], b[1..]);
        }
        if i: nat :| DiffersAt(a, b, i) {
          assert i > 0 && a[0] == a[..i][0] == b[..i][0] == b[0];
          assert a[1..][..i - 1] == a[..i][1..] && b[1..][..i - 1] == b[..i][1..];
          assert DiffersAt(a[1..], b[1..], i - 1);
        }
        if a[0] == b[0] && Precedes(a[1..], b[1..]) {
          var i: nat :| DiffersAt(a[1..], b[1..], i);
          assert a[..i + 1] == [a[0]] + a[1..][..i] && b[..i + 1] == [b[0]] + b[1..][..i];
          assert DiffersAt(a, b, i + 1);
        }
      }
    }
  }

  lemma {:induction false} LexTotal(a: string, b: string)
    ensures LexLess(a, b) || a == b || LexLess(b, a)
  {
    if |a| > 0 && |b| > 0 && a[0] == b[0] {
      LexTotal(a[1..], b[1..]);
      assert a == [a[0]] + a[1..] && b == [b[0]] + b[1..];
    }
  }

  lemma {:induction false} LexAsymmetric(a: string, b: string)
    requires LexLess(a, b)
    ensures !LexLess(b, a) && a != b
  {
    if |a| > 0 && a[0] == b[0] {
      LexAsymmetric(a[1..], b[1..]);
    }
  }

  lemma {:induction false} LexTransitive(a: string, b: string, c: string)
    requires LexLess(a, b) && LexLess(b, c)
    ensures LexLess(a, c)
  {
    if |a| > 0 && a[0] == b[0] && b[0] == c[0] {
      LexTransitive(a[1..], b[1..], c[1..]);
    }
  }

  /** Not-less is transitive too: the order is total. */
  lemma LexWeakTransitive(a: string, b: string, c: string)
    requires !LexLess(b, a) && !LexLess(c, b)
    ensures !LexLess(c, a)
  {
    LexTotal(a, b);
    LexTotal(b, c);
    if LexLess(c, a) {
      if LexLess(a, b) && LexLess(b, c) {
        LexTransitive(a, b, c);
        LexAsymmetric(a, c);
      }
    }
  }

  predicate AllDigits(d: string) {
    forall i :: 0 <= i < |d| ==> '0' <= d[i] <= '9'
  }

  /** Decimal rendering of a natural number, as `%d` and `strconv` give it. */
  function Decimal(n: nat): (d: string)
    ensures d != "" && AllDigits(d)
  {
    if n < 10 then [Digit(n)] else Decimal(n / 10) + [Digit(n % 10)]
  }

  function Digit(n: nat): (c: char)
    requires n < 10
    ensures '0' <= c <= '9' && c as int == '0' as int + n
  {
    ('0' as int + n) as char
  }

  /** Reads decimal digits back; `None` on anything else. */
  function ReadDecimal(d: string): (r: Option<nat>) {
    if d == "" || !AllDigits(d) then None
    else Some(DigitsValue(d))
  }

  function DigitsValue(d: string): nat
    requires AllDigits(d)
  {
    if d == "" then 0
    else 10 * DigitsValue(d[..|d| - 1]) + (d[|d| - 1] as int - '0' as int)
  }

  datatype Option<+T> = None | Some(value: T)

  lemma {:induction false} DecimalRoundTrip(n: nat)
    ensures ReadDecimal(Decimal(n)) == Some(n)
  {
    if n >= 10 {
      DecimalRoundTrip(n / 10);
      assert Decimal(n)[..|Decimal(n)| - 1] == Decimal(n / 10);
    } else {
      assert Decimal(n) == [Digit(n)];
      assert DigitsValue([Digit(n)][..0]) == 0;
    }
  }

  /** The label of data source `i`. */
  function SourceLabel(i: nat): string {
    "dataSource[" + Decimal(i) + "]"
  }

  /** A label is the word, and between brackets the numeral that reads back to the index. */
  lemma SourceLabelReads(i: nat)
    ensures var a := SourceLabel(i);
            && |a| > 12 && a[..11] == "dataSource[" && a[|a| - 1] == ']'
            && ReadDecimal(a[11..|a| - 1]) == Some(i)
  {
    var a := SourceLabel(i);
    assert a[11..|a| - 1] == Decimal(i);
    DecimalRoundTrip(i);
  }

  lemma SourceLabelInjective(i: nat, j: nat)
    requires SourceLabel(i) == SourceLabel(j)
    ensures i == j
  {
    var a, b := SourceLabel(i), SourceLabel(j);
    assert a[11..|a| - 1] == Decimal(i) && b[11..|b| - 1] == Decimal(j);
    DecimalRoundTrip(i);
    DecimalRoundTrip(j);
  }
}
