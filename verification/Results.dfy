/** Results of checks, the report, its worst status and its text rendering. */
module Results {

  datatype Status = Pass | Warn | Fail | Skip

  type Details = map<string, string>

  datatype Result = Result(check: string, source: string, status: Status, message: string, details: Details)

  /** A result without its wording. */
  function Plain(check: string, source: string, st: Status): Result {
    Result(check, source, st, "", map[])
  }

  function StatusName(s: Status): string {
    match s
    case Pass => "PASS"
    case Warn => "WARN"
    case Fail => "FAIL"
    case Skip => "SKIP"
  }

  /** How many results have status `st`. */
  function CountOf(rs: seq<Result>, st: Status): nat {
    if rs == [] then 0
    else CountOf(rs[..|rs| - 1], st) + if rs[|rs| - 1].status == st then 1 else 0
  }

  lemma {:induction false} CountConcat(a: seq<Result>, b: seq<Result>, st: Status)
    ensures CountOf(a + b, st) == CountOf(a, st) + CountOf(b, st)
    decreases |b|
  {
    if b == [] {
      assert a + b == a;
    } else {
      assert (a + b)[..|a + b| - 1] == a + b[..|b| - 1];
      CountConcat(a, b[..|b| - 1], st);
    }
  }

  lemma {:induction false} CountPositive(rs: seq<Result>, st: Status)
    ensures CountOf(rs, st) > 0 <==> exists r <- rs :: r.status == st
    decreases |rs|
  {
    if rs != [] {
      CountPositive(rs[..|rs| - 1], st);
      assert rs == rs[..|rs| - 1] + [rs[|rs| - 1]];
    }
  }

  lemma {:induction false} CountsSumToLength(rs: seq<Result>)
    ensures CountOf(rs, Pass) + CountOf(rs, Warn) + CountOf(rs, Fail) + CountOf(rs, Skip) == |rs|
    decreases |rs|
  {
    if rs != [] {
      CountsSumToLength(rs[..|rs| - 1]);
    }
  }

  ghost predicate AnyFails(rs: seq<Result>) {
    exists r <- rs :: r.status == Fail
  }

  lemma AnyFailsConcat(a: seq<Result>, b: seq<Result>)
    ensures AnyFails(a + b) <==> AnyFails(a) || AnyFails(b)
  {
  }

  /** `Worst`: Fail over Warn over everything else; it stops at the first Fail. */
  method Worst(rs: seq<Result>) returns (worst: Status)
    ensures worst == Fail <==> CountOf(rs, Fail) > 0
    ensures worst == Warn <==> CountOf(rs, Fail) == 0 && CountOf(rs, Warn) > 0
    ensures worst != Skip
  {
    worst := Pass;
    for i := 0 to |rs|
      invariant CountOf(rs[..i], Fail) == 0
      invariant worst == if CountOf(rs[..i], Warn) > 0 then Warn else Pass
    {
      assert rs[..i + 1][..i] == rs[..i];
      match rs[i].status
      case Fail =>
        CountPositive(rs, Fail);
        return Fail;
      case Warn =>
        if worst == Pass {
          worst := Warn;
        }
      case _ =>
    }
    assert rs[..|rs|] == rs;
  }

  /** FAIL as soon as one result failed. */
  function VerdictOf(rs: seq<Result>): string {
    if CountOf(rs, Fail) > 0 then "FAIL" else "PASS"
  }

  /** What `WriteText` puts on a stream: one line per result and a summary line. */
  datatype Line = ResultLine(status: Status, group: string, check: string, message: string)
                | SummaryLine(verdict: string, total: nat, fails: nat, warns: nat)

  function LineOf(r: Result): Line {
    ResultLine(r.status, if r.source == "" then "server" else r.source, r.check, r.message)
  }

  /** `WriteText` on a stream that accepts `room` lines and then fails. */
  method WriteText(rs: seq<Result>, room: nat) returns (lines: seq<Line>, err: bool)
    ensures err <==> room <= |rs|
    ensures |lines| == if err then room else |rs| + 1
    ensures forall i :: 0 <= i < |lines| && i < |rs| ==>
              lines[i] == ResultLine(rs[i].status, if rs[i].source == "" then "server" else rs[i].source, rs[i].check, rs[i].message)
    ensures !err ==>
              lines[|rs|] == SummaryLine(if exists r <- rs :: r.status == Fail then "FAIL" else "PASS",
                                         |rs|, CountOf(rs, Fail), CountOf(rs, Warn))
  {
    lines := [];
    var fails, warns := 0, 0;
    for i := 0 to |rs|
      invariant |lines| == i <= room
      invariant forall j :: 0 <= j < i ==> lines[j] == LineOf(rs[j])
      invariant fails == CountOf(rs[..i], Fail) && warns == CountOf(rs[..i], Warn)
    {
      assert rs[..i + 1][..i] == rs[..i];
      if |lines| == room {
        return lines, true;
      }
      lines := lines + [LineOf(rs[i])];
      match rs[i].status
      case Fail => fails := fails + 1;
      case Warn => warns := warns + 1;
      case _ =>
    }
    assert rs[..|rs|] == rs;
    CountPositive(rs, Fail);
    var verdict := "PASS";
    var worst := Worst(rs);
    if worst == Fail {
      verdict := "FAIL";
    }
    if |lines| == room {
      return lines, true;
    }
    return lines + [SummaryLine(verdict, |rs|, fails, warns)], false;
  }
}
