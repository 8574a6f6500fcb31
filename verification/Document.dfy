/** The JSON document built from a report: groups by source, tallies, verdict, and the
    echoed inputs without the API key. */
module Document {
  import opened Strings
  import opened Redaction
  import opened Sampling
  import opened Results

  datatype DataSource = DataSource(
    staticGtfs: string, vehiclePositions: string, tripUpdates: string, serviceAlerts: string,
    agencyMapping: map<string, string>)

  datatype Config = Config(serverURL: string, apiKey: string, dataSources: seq<DataSource>)

  datatype MetaSource = MetaSource(
    id: string, index: nat,
    staticGtfs: string, vehiclePositions: string, tripUpdates: string, serviceAlerts: string,
    agencyMapping: map<string, string>)

  datatype Meta = Meta(generatedAt: string, serverURL: string, dataSources: seq<MetaSource>)

  datatype Counts = Counts(pass: nat, warn: nat, fail: nat, skip: nat) {
    function Add(st: Status): Counts {
      match st
      case Pass => this.(pass := pass + 1)
      case Warn => this.(warn := warn + 1)
      case Fail => this.(fail := fail + 1)
      case Skip => this.(skip := skip + 1)
    }
  }

  datatype Item = Item(check: string, category: string, step: string, status: string, message: string, details: Details)
  datatype Group = Group(id: string, title: string, counts: Counts, results: seq<Item>)
  datatype Summary = Summary(verdict: string, exitCode: int, total: nat, counts: Counts)
  datatype Doc = Doc(meta: Meta, summary: Summary, groups: seq<Group>)

  /* ----- What the document should be ----- */

  /** The results of one source, in report order. */
  function From(rs: seq<Result>, source: string): seq<Result> {
    if rs == [] then []
    else From(rs[..|rs| - 1], source) + if rs[|rs| - 1].source == source then [rs[|rs| - 1]] else []
  }

  function CountsOf(rs: seq<Result>): Counts {
    Counts(CountOf(rs, Pass), CountOf(rs, Warn), CountOf(rs, Fail), CountOf(rs, Skip))
  }

  function Slash(s: string): (i: nat)
    ensures i <= |s| && '/' !in s[..i] && (i < |s| ==> s[i] == '/')
  {
    if s == "" || s[0] == '/' then 0
    else
      var i := Slash(s[1..]);
      assert s[..i + 1] == [s[0]] + s[1..][..i];
      i + 1
  }

  /** `splitCheck`: category and step around the first slash. */
  function SplitCheck(check: string): (r: (string, string))
    ensures '/' !in r.0
    ensures check == (if '/' in check then r.0 + "/" + r.1 else r.0) && ('/' !in check ==> r.1 == "")
  {
    var i := Slash(check);
    assert check == check[..i] + check[i..];
    assert '/' in check <==> i < |check| by {
      if i < |check| {
        assert check[i] == '/';
      } else {
        assert check[..i] == check;
      }
    }
    if i < |check| then (check[..i], check[i + 1..]) else (check, "")
  }

  function ItemOf(r: Result, key: string): Item {
    Item(r.check, SplitCheck(r.check).0, SplitCheck(r.check).1, StatusName(r.status), RedactString(r.message, key), r.details)
  }

  function ItemsOf(rs: seq<Result>, key: string): seq<Item> {
    seq(|rs|, (i: nat) requires i < |rs| => ItemOf(rs[i], key))
  }

  function GroupOf(id: string, title: string, rs: seq<Result>, key: string): Group {
    Group(id, title, CountsOf(rs), ItemsOf(rs, key))
  }

  /** Sources in order of first occurrence, without those that have a group of their own. */
  function OtherSources(rs: seq<Result>, n: nat): seq<string> {
    if rs == [] then []
    else
      var front := OtherSources(rs[..|rs| - 1], n);
      var k := rs[|rs| - 1].source;
      if k in front || k == "" || IsLabel(k, n) then front else front + [k]
  }

  predicate IsLabel(k: string, n: nat) {
    exists i: nat | i < n :: k == SourceLabel(i)
  }

  function Labels(n: nat): seq<string> {
    seq(n, (i: nat) => SourceLabel(i))
  }

  function Leftovers(rs: seq<Result>, n: nat): seq<string> {
    SortStrings(OtherSources(rs, n))
  }

  function SourceGroup(rs: seq<Result>, i: nat, key: string): Group {
    GroupOf(SourceLabel(i), "Data source " + Decimal(i), From(rs, SourceLabel(i)), key)
  }

  function LeftoverGroup(rs: seq<Result>, source: string, key: string): Group {
    GroupOf(source, source, From(rs, source), key)
  }

  function GroupsOf(rs: seq<Result>, n: nat, key: string): seq<Group> {
    var others := Leftovers(rs, n);
    [GroupOf("server", "Server", From(rs, ""), key)]
    + seq(n, (i: nat) => SourceGroup(rs, i, key))
    + seq(|others|, (i: nat) requires i < |others| => LeftoverGroup(rs, others[i], key))
  }

  function MetaSourceOf(ds: DataSource, i: nat, key: string): MetaSource {
    MetaSource(SourceLabel(i), i,
      RedactString(ds.staticGtfs, key), RedactString(ds.vehiclePositions, key),
      RedactString(ds.tripUpdates, key), RedactString(ds.serviceAlerts, key), ds.agencyMapping)
  }

  function MetaOf(cfg: Config, now: string): Meta {
    Meta(now, RedactString(cfg.serverURL, cfg.apiKey),
      seq(|cfg.dataSources|, (i: nat) requires i < |cfg.dataSources| => MetaSourceOf(cfg.dataSources[i], i, cfg.apiKey)))
  }

  function SummaryOf(rs: seq<Result>): Summary {
    Summary(VerdictOf(rs), 0, |rs|, CountsOf(rs))
  }

  function DocumentOf(rs: seq<Result>, cfg: Config, now: string): Doc {
    Doc(MetaOf(cfg, now), SummaryOf(rs), GroupsOf(rs, |cfg.dataSources|, cfg.apiKey))
  }

  /* ----- Sources and groups ----- */

  lemma {:induction false} FromMembers(rs: seq<Result>, k: string)
    ensures From(rs, k) != [] <==> exists r <- rs :: r.source == k
    ensures forall r <- From(rs, k) :: r.source == k && r in rs
    decreases |rs|
  {
    if rs != [] {
      FromMembers(rs[..|rs| - 1], k);
      assert rs == rs[..|rs| - 1] + [rs[|rs| - 1]];
    }
  }

  lemma {:induction false} FromConcat(a: seq<Result>, b: seq<Result>, k: string)
    ensures From(a + b, k) == From(a, k) + From(b, k)
    decreases |b|
  {
    if b == [] {
      assert a + b == a;
    } else {
      assert (a + b)[..|a + b| - 1] == a + b[..|b| - 1];
      FromConcat(a, b[..|b| - 1], k);
    }
  }

  /** A list of one source is that source's sub-list, and has none of any other. */
  lemma {:induction false} FromUniform(rs: seq<Result>, source: string, k: string)
    requires forall r <- rs :: r.source == source
    ensures From(rs, k) == if k == source then rs else []
    decreases |rs|
  {
    if rs != [] {
      FromUniform(rs[..|rs| - 1], source, k);
      assert rs == rs[..|rs| - 1] + [rs[|rs| - 1]];
    }
  }

  lemma {:induction false} OtherSourcesMembers(rs: seq<Result>, n: nat)
    ensures DistinctKeys(OtherSources(rs, n), Itself)
    ensures forall k :: k in OtherSources(rs, n) <==> k != "" && !IsLabel(k, n) && exists r <- rs :: r.source == k
    decreases |rs|
  {
    if rs != [] {
      OtherSourcesMembers(rs[..|rs| - 1], n);
      assert rs == rs[..|rs| - 1] + [rs[|rs| - 1]];
    }
  }

  /** The sources of the groups, in group order. */
  function GroupKeys(rs: seq<Result>, n: nat): seq<string> {
    [""] + Labels(n) + Leftovers(rs, n)
  }

  lemma DistinctConcat(a: seq<string>, b: seq<string>)
    requires DistinctKeys(a, Itself) && DistinctKeys(b, Itself) && forall k <- a :: k !in b
    ensures DistinctKeys(a + b, Itself)
  {
    var c := a + b;
    forall i, j | 0 <= i < j < |c| ensures Itself(c[i]) != Itself(c[j]) {
      assert j < |a| || c[j] in b;
      assert i >= |a| || c[i] in a;
    }
  }

  lemma LabelsDistinct(n: nat)
    ensures DistinctKeys(Labels(n), Itself) && forall k :: k in Labels(n) <==> IsLabel(k, n)
    ensures !IsLabel("", n)
  {
    forall i, j | 0 <= i < j < n ensures Labels(n)[i] != Labels(n)[j] {
      if SourceLabel(i) == SourceLabel(j) {
        SourceLabelInjective(i, j);
      }
    }
    forall k | IsLabel(k, n) ensures k in Labels(n) {
      var i: nat :| i < n && k == SourceLabel(i);
      assert Labels(n)[i] == k;
    }
  }

  /** Every result has its group, and no source has two. */
  lemma GroupKeysCover(rs: seq<Result>, n: nat)
    ensures DistinctKeys(GroupKeys(rs, n), Itself)
    ensures forall r <- rs :: r.source in GroupKeys(rs, n)
    ensures StrictlySorted(Leftovers(rs, n)) && Ascending(Leftovers(rs, n))
  {
    OtherSourcesMembers(rs, n);
    SortStringsStrict(OtherSources(rs, n));
    LabelsDistinct(n);
    StrictIsDistinct(Leftovers(rs, n));
    DistinctConcat([""], Labels(n));
    DistinctConcat([""] + Labels(n), Leftovers(rs, n));
  }

  lemma StrictIsDistinct(s: seq<string>)
    requires StrictlySorted(s)
    ensures DistinctKeys(s, Itself)
  {
    forall i, j | 0 <= i < j < |s| ensures s[i] != s[j] {
      LexAsymmetric(s[i], s[j]);
    }
  }

  /** The sub-lists of `keys`, one behind the other. */
  function Regrouped(rs: seq<Result>, keys: seq<string>): seq<Result> {
    if keys == [] then [] else Regrouped(rs, keys[..|keys| - 1]) + From(rs, keys[|keys| - 1])
  }

  lemma FromAppend(rs: seq<Result>, r: Result, k: string)
    ensures From(rs + [r], k) == From(rs, k) + if r.source == k then [r] else []
  {
    assert (rs + [r])[..|rs|] == rs;
  }

  lemma {:induction false} RegroupedAppend(rs: seq<Result>, r: Result, keys: seq<string>)
    requires DistinctKeys(keys, Itself)
    ensures multiset(Regrouped(rs + [r], keys)) ==
            multiset(Regrouped(rs, keys)) + if r.source in keys then multiset{r} else multiset{}
    decreases |keys|
  {
    if keys != [] {
      var front, k := keys[..|keys| - 1], keys[|keys| - 1];
      assert keys == front + [k];
      assert Regrouped(rs, keys) == Regrouped(rs, front) + From(rs, k);
      assert Regrouped(rs + [r], keys) == Regrouped(rs + [r], front) + From(rs + [r], k);
      assert k !in front && DistinctKeys(front, Itself);
      hide From, Regrouped, DistinctKeys;
      RegroupedAppend(rs, r, front);
      FromAppend(rs, r, k);
    }
  }

  lemma {:induction false} RegroupedAppendCount(rs: seq<Result>, r: Result, keys: seq<string>, st: Status)
    requires DistinctKeys(keys, Itself)
    ensures CountOf(Regrouped(rs + [r], keys), st) ==
            CountOf(Regrouped(rs, keys), st) + if r.source in keys && r.status == st then 1 else 0
    decreases |keys|
  {
    if keys != [] {
      var front, k := keys[..|keys| - 1], keys[|keys| - 1];
      RegroupedAppendCount(rs, r, front, st);
      assert keys == front + [k];
      CountConcat(Regrouped(rs + [r], front), From(rs + [r], k), st);
      CountConcat(Regrouped(rs, front), From(rs, k), st);
      FromAppendCount(rs, r, k, st);
    }
  }

  lemma FromAppendCount(rs: seq<Result>, r: Result, k: string, st: Status)
    ensures CountOf(From(rs + [r], k), st) == CountOf(From(rs, k), st) + if r.source == k && r.status == st then 1 else 0
  {
    assert (rs + [r])[..|rs|] == rs;
    var from := From(rs, k);
    if r.source == k {
      assert From(rs + [r], k) == from + [r];
      assert (from + [r])[..|from|] == from;
    } else {
      assert From(rs + [r], k) == from + [] == from;
    }
  }

  /** Regrouping loses nothing, adds nothing and keeps every tally. */
  lemma {:induction false} RegroupedIsPermutation(rs: seq<Result>, keys: seq<string>)
    requires DistinctKeys(keys, Itself) && forall r <- rs :: r.source in keys
    ensures multiset(Regrouped(rs, keys)) == multiset(rs)
    ensures forall st :: CountOf(Regrouped(rs, keys), st) == CountOf(rs, st)
    decreases |rs|
  {
    if rs == [] {
      RegroupedEmpty(keys);
    } else {
      var front, r := rs[..|rs| - 1], rs[|rs| - 1];
      assert rs == front + [r];
      RegroupedIsPermutation(front, keys);
      RegroupedAppend(front, r, keys);
      forall st ensures CountOf(Regrouped(rs, keys), st) == CountOf(rs, st) {
        RegroupedAppendCount(front, r, keys, st);
      }
      assert multiset(rs) == multiset(front) + multiset{r};
    }
  }

  lemma {:induction false} RegroupedEmpty(keys: seq<string>)
    ensures Regrouped([], keys) == []
    decreases |keys|
  {
    if keys != [] {
      RegroupedEmpty(keys[..|keys| - 1]);
    }
  }

  /* ----- Building it ----- */

  /** The item shows the result under the names of the document. */
  ghost predicate ItemShows(item: Item, r: Result, key: string) {
    && item.check == r.check
    && '/' !in item.category
    && (if '/' in r.check then r.check == item.category + "/" + item.step else r.check == item.category && item.step == "")
    && item.status == (match r.status case Pass => "PASS" case Warn => "WARN" case Fail => "FAIL" case Skip => "SKIP")
    && item.message == RedactString(r.message, key)
    && item.details == r.details
  }

  /** How many items have status `st`. */
  function ItemsWith(items: seq<Item>, st: string): nat {
    if items == [] then 0
    else ItemsWith(items[..|items| - 1], st) + if items[|items| - 1].status == st then 1 else 0
  }

  /** The tallies of a group are those of its own items. */
  ghost predicate Tallied(counts: Counts, items: seq<Item>) {
    && counts.pass == ItemsWith(items, "PASS") && counts.warn == ItemsWith(items, "WARN")
    && counts.fail == ItemsWith(items, "FAIL") && counts.skip == ItemsWith(items, "SKIP")
  }

  lemma ItemOfShows(r: Result, key: string)
    ensures ItemShows(ItemOf(r, key), r, key)
  {
    var parts := SplitCheck(r.check);
  }

  lemma ItemsShow(rs: seq<Result>, key: string)
    ensures |ItemsOf(rs, key)| == |rs|
    ensures forall i :: 0 <= i < |rs| ==> ItemShows(ItemsOf(rs, key)[i], rs[i], key)
  {
    hide ItemOf, ItemShows;
    forall i | 0 <= i < |rs| ensures ItemShows(ItemsOf(rs, key)[i], rs[i], key) {
      ItemOfShows(rs[i], key);
    }
  }

  lemma {:induction false} ItemsWithName(rs: seq<Result>, key: string, st: Status)
    ensures ItemsWith(ItemsOf(rs, key), match st case Pass => "PASS" case Warn => "WARN" case Fail => "FAIL" case Skip => "SKIP") == CountOf(rs, st)
    decreases |rs|
  {
    if rs != [] {
      var front, r := rs[..|rs| - 1], rs[|rs| - 1];
      ItemsWithName(front, key, st);
      ItemOfShows(r, key);
      var items := ItemsOf(rs, key);
      assert items[..|items| - 1] == ItemsOf(front, key);
      hide ItemOf, ItemsOf, RedactString;
    }
  }

  lemma ItemsTally(rs: seq<Result>, key: string)
    ensures Tallied(CountsOf(rs), ItemsOf(rs, key))
  {
    hide ItemsOf, ItemsWith, CountOf;
    ItemsWithName(rs, key, Pass);
    ItemsWithName(rs, key, Warn);
    ItemsWithName(rs, key, Fail);
    ItemsWithName(rs, key, Skip);
  }

  method BuildGroup(id: string, title: string, rs: seq<Result>, key: string) returns (g: Group)
    ensures g == GroupOf(id, title, rs, key)
    ensures g.id == id && g.title == title && |g.results| == |rs| && Tallied(g.counts, g.results)
    ensures forall i :: 0 <= i < |rs| ==> ItemShows(g.results[i], rs[i], key)
  {
    hide ItemOf;
    var items: seq<Item> := [];
    var counts := Counts(0, 0, 0, 0);
    for i := 0 to |rs|
      invariant |items| == i && forall j :: 0 <= j < i ==> items[j] == ItemOf(rs[j], key)
      invariant counts == CountsOf(rs[..i])
    {
      assert rs[..i + 1][..i] == rs[..i];
      items := items + [ItemOf(rs[i], key)];
      counts := counts.Add(rs[i].status);
    }
    assert rs[..|rs|] == rs;
    assert items == ItemsOf(rs, key);
    g := Group(id, title, counts, items);
    hide ItemsOf, ItemShows, ItemsWith, CountOf;
    ItemsShow(rs, key);
    ItemsTally(rs, key);
  }

  method BuildMeta(cfg: Config, now: string) returns (m: Meta)
    ensures m == MetaOf(cfg, now)
  {
    var sources: seq<MetaSource> := [];
    for i := 0 to |cfg.dataSources|
      invariant |sources| == i
      invariant forall j :: 0 <= j < i ==> sources[j] == MetaSourceOf(cfg.dataSources[j], j, cfg.apiKey)
    {
      sources := sources + [MetaSourceOf(cfg.dataSources[i], i, cfg.apiKey)];
    }
    assert sources == MetaOf(cfg, now).dataSources;
    m := Meta(now, RedactString(cfg.serverURL, cfg.apiKey), sources);
  }

  /** The counts of the groups added up. */
  function TotalCounts(groups: seq<Group>): Counts {
    if groups == [] then Counts(0, 0, 0, 0)
    else
      var t, c := TotalCounts(groups[..|groups| - 1]), groups[|groups| - 1].counts;
      Counts(t.pass + c.pass, t.warn + c.warn, t.fail + c.fail, t.skip + c.skip)
  }

  method BuildSummary(rs: seq<Result>, groups: seq<Group>) returns (s: Summary)
    ensures s == Summary(VerdictOf(rs), 0, |rs|, TotalCounts(groups))
  {
    var pass: nat, warn: nat, fail: nat, skip: nat := 0, 0, 0, 0;
    for i := 0 to |groups|
      invariant Counts(pass, warn, fail, skip) == TotalCounts(groups[..i])
    {
      assert groups[..i + 1][..i] == groups[..i];
      var c := groups[i].counts;
      pass, warn, fail, skip := pass + c.pass, warn + c.warn, fail + c.fail, skip + c.skip;
    }
    assert groups[..|groups|] == groups;
    var verdict := "PASS";
    var worst := Worst(rs);
    if worst == Fail {
      verdict := "FAIL";
    }
    s := Summary(verdict, 0, |rs|, Counts(pass, warn, fail, skip));
  }

  /** `bySource`: the sub-list of every source that occurs. */
  method BySource(rs: seq<Result>) returns (m: map<string, seq<Result>>)
    ensures forall k :: k in m <==> From(rs, k) != []
    ensures forall k <- m :: m[k] == From(rs, k)
  {
    m := map[];
    for i := 0 to |rs|
      invariant forall k :: k in m <==> From(rs[..i], k) != []
      invariant forall k <- m :: m[k] == From(rs[..i], k)
    {
      assert rs[..i + 1][..i] == rs[..i];
      var k := rs[i].source;
      m := m[k := (if k in m then m[k] else []) + [rs[i]]];
    }
    assert rs[..|rs|] == rs;
  }

  /** The keys left in the map, collected in whatever order the map yields them, sorted. */
  method SortedKeys(m: map<string, seq<Result>>, rs: seq<Result>, n: nat) returns (keys: seq<string>)
    requires forall k :: k in m <==> k != "" && !IsLabel(k, n) && From(rs, k) != []
    ensures keys == Leftovers(rs, n)
  {
    keys := [];
    var left := m.Keys;
    while left != {}
      invariant left <= m.Keys
      invariant forall k :: k in keys <==> k in m.Keys - left
      invariant DistinctKeys(keys, Itself)
      decreases left
    {
      var k :| k in left;
      assert k !in m.Keys - left && k !in keys;
      left := left - {k};
      assert m.Keys - left == m.Keys - (left + {k}) + {k};
      keys := keys + [k];
    }
    OtherSourcesMembers(rs, n);
    forall k ensures k in keys <==> k in OtherSources(rs, n) {
      FromMembers(rs, k);
    }
    SortIgnoresOrder(keys, OtherSources(rs, n), Itself);
    keys := SortStrings(keys);
  }

  /** One group per configured data source; their entries leave the map. */
  method SourceGroups(m: map<string, seq<Result>>, rs: seq<Result>, n: nat, key: string)
    returns (groups: seq<Group>, rest: map<string, seq<Result>>)
    requires forall k :: k in m <==> k != "" && From(rs, k) != []
    requires forall k <- m :: m[k] == From(rs, k)
    ensures groups == seq(n, (i: nat) => SourceGroup(rs, i, key))
    ensures forall k :: k in rest <==> k != "" && !IsLabel(k, n) && From(rs, k) != []
    ensures forall k <- rest :: rest[k] == From(rs, k)
  {
    hide GroupOf, SourceLabel, From, ItemShows, Tallied;
    groups, rest := [], m;
    for i := 0 to n
      invariant forall k :: k in rest <==> k != "" && !IsLabel(k, i) && From(rs, k) != []
      invariant forall k <- rest :: rest[k] == From(rs, k)
      invariant |groups| == i && forall j :: 0 <= j < i ==> groups[j] == SourceGroup(rs, j, key)
    {
      var id := SourceLabel(i);
      LabelIsNew(i);
      var g := BuildGroup(id, "Data source " + Decimal(i), if id in rest then rest[id] else [], key);
      groups := groups + [g];
      rest := rest - {id};
    }
  }

  /** One group per entry that is left. */
  method LeftoverGroups(m: map<string, seq<Result>>, rs: seq<Result>, keys: seq<string>, key: string)
    returns (groups: seq<Group>)
    requires forall k <- keys :: k in m && m[k] == From(rs, k)
    ensures groups == seq(|keys|, (i: nat) requires i < |keys| => LeftoverGroup(rs, keys[i], key))
  {
    hide GroupOf, From, ItemShows, Tallied;
    groups := [];
    for i := 0 to |keys|
      invariant |groups| == i && forall j :: 0 <= j < i ==> groups[j] == LeftoverGroup(rs, keys[j], key)
    {
      var g := BuildGroup(keys[i], keys[i], m[keys[i]], key);
      groups := groups + [g];
    }
  }

  /** The groups of `BuildDocument`. */
  method BuildGroups(rs: seq<Result>, n: nat, key: string) returns (groups: seq<Group>)
    ensures groups == GroupsOf(rs, n, key)
  {
    var bySource := BySource(rs);
    var first := BuildGroup("server", "Server", if "" in bySource then bySource[""] else [], key);
    hide GroupOf, From, SourceLabel, IsLabel, Leftovers, SourceGroup, LeftoverGroup;
    var sources, rest := SourceGroups(bySource - {""}, rs, n, key);
    var leftover := SortedKeys(rest, rs, n);
    LeftoversRemain(rs, n);
    var others := LeftoverGroups(rest, rs, leftover, key);
    groups := [first] + sources + others;
  }

  lemma LeftoversRemain(rs: seq<Result>, n: nat)
    ensures forall k <- Leftovers(rs, n) :: k != "" && !IsLabel(k, n) && From(rs, k) != []
  {
    OtherSourcesMembers(rs, n);
    SortStringsStrict(OtherSources(rs, n));
    forall k | k in Leftovers(rs, n) ensures From(rs, k) != [] {
      FromMembers(rs, k);
    }
  }

  /** `BuildDocument`: the outcome does not depend on the order of map iteration. */
  method BuildDocument(rs: seq<Result>, cfg: Config, now: string) returns (d: Doc)
    ensures d == DocumentOf(rs, cfg, now)
  {
    var groups := BuildGroups(rs, |cfg.dataSources|, cfg.apiKey);
    var meta := BuildMeta(cfg, now);
    var summary := BuildSummary(rs, groups);
    TalliesAddUp(rs, |cfg.dataSources|, cfg.apiKey);
    d := Doc(meta, summary, groups);
  }

  lemma LabelIsNew(i: nat)
    ensures !IsLabel(SourceLabel(i), i) && SourceLabel(i) != ""
    ensures forall k :: IsLabel(k, i + 1) <==> IsLabel(k, i) || k == SourceLabel(i)
  {
    if IsLabel(SourceLabel(i), i) {
      var j: nat :| j < i && SourceLabel(i) == SourceLabel(j);
      SourceLabelInjective(i, j);
    }
    forall k ensures IsLabel(k, i + 1) <==> IsLabel(k, i) || k == SourceLabel(i) {
      if IsLabel(k, i + 1) {
        var j: nat :| j < i + 1 && k == SourceLabel(j);
      }
    }
  }

  /* ----- What the document promises ----- */

  /** Group `j` holds the sub-list of its source. */
  lemma GroupIsSublist(rs: seq<Result>, n: nat, key: string, j: nat)
    requires j < |GroupsOf(rs, n, key)|
    ensures |GroupKeys(rs, n)| == |GroupsOf(rs, n, key)|
    ensures GroupsOf(rs, n, key)[j].results == ItemsOf(From(rs, GroupKeys(rs, n)[j]), key)
    ensures GroupsOf(rs, n, key)[j].counts == CountsOf(From(rs, GroupKeys(rs, n)[j]))
    ensures GroupsOf(rs, n, key)[j].id == if j == 0 then "server" else GroupKeys(rs, n)[j]
  {
    hide From, CountsOf, ItemsOf, Leftovers, SourceLabel;
  }

  lemma RegroupedCount(rs: seq<Result>, keys: seq<string>, j: nat)
    requires 0 < j <= |keys|
    ensures var t, c := CountsOf(Regrouped(rs, keys[..j - 1])), CountsOf(From(rs, keys[j - 1]));
            CountsOf(Regrouped(rs, keys[..j])) == Counts(t.pass + c.pass, t.warn + c.warn, t.fail + c.fail, t.skip + c.skip)
  {
    assert keys[..j][..j - 1] == keys[..j - 1];
    forall st ensures CountOf(Regrouped(rs, keys[..j]), st)
                   == CountOf(Regrouped(rs, keys[..j - 1]), st) + CountOf(From(rs, keys[j - 1]), st)
    {
      CountConcat(Regrouped(rs, keys[..j - 1]), From(rs, keys[j - 1]), st);
    }
  }

  lemma {:induction false} TotalsFollowGroups(rs: seq<Result>, keys: seq<string>, groups: seq<Group>, j: nat)
    requires j <= |keys| == |groups|
    requires forall i :: 0 <= i < |groups| ==> groups[i].counts == CountsOf(From(rs, keys[i]))
    ensures TotalCounts(groups[..j]) == CountsOf(Regrouped(rs, keys[..j]))
    decreases j
  {
    if j > 0 {
      TotalsFollowGroups(rs, keys, groups, j - 1);
      RegroupedCount(rs, keys, j);
      assert groups[..j][..j - 1] == groups[..j - 1];
    }
  }

  /** The groups' counts add up to the tallies of the report. */
  lemma TalliesAddUp(rs: seq<Result>, n: nat, key: string)
    ensures TotalCounts(GroupsOf(rs, n, key)) == CountsOf(rs)
  {
    var groups, keys := GroupsOf(rs, n, key), GroupKeys(rs, n);
    forall i | 0 <= i < |groups| ensures groups[i].counts == CountsOf(From(rs, keys[i])) {
      GroupIsSublist(rs, n, key, i);
    }
    GroupIsSublist(rs, n, key, 0);
    TotalsFollowGroups(rs, keys, groups, |keys|);
    assert groups[..|keys|] == groups && keys[..|keys|] == keys;
    GroupKeysCover(rs, n);
    RegroupedIsPermutation(rs, keys);
  }

  /** No result is dropped, duplicated or moved within its group: the groups, one behind the
      other, are a permutation of the report; group ids other than the first are distinct,
      and the trailing ones strictly sorted. */
  lemma DocumentConserves(rs: seq<Result>, cfg: Config, now: string)
    ensures var d := DocumentOf(rs, cfg, now);
            var keys := GroupKeys(rs, |cfg.dataSources|);
            && |d.groups| == |keys|
            && (forall j :: 0 <= j < |keys| ==> d.groups[j].results == ItemsOf(From(rs, keys[j]), cfg.apiKey))
            && (forall j :: 1 <= j < |keys| ==> d.groups[j].id == keys[j])
            && multiset(Regrouped(rs, keys)) == multiset(rs)
            && DistinctKeys(keys, Itself)
            && Ascending(keys[1 + |cfg.dataSources|..])
  {
    var n := |cfg.dataSources|;
    var keys := GroupKeys(rs, n);
    assert keys[1 + n..] == Leftovers(rs, n);
    GroupKeysCover(rs, n);
    GroupIsSublist(rs, n, cfg.apiKey, 0);
    hide GroupsOf, GroupKeys, ItemsOf, From;
    forall j | 0 <= j < |keys|
      ensures GroupsOf(rs, n, cfg.apiKey)[j].results == ItemsOf(From(rs, keys[j]), cfg.apiKey)
      ensures j >= 1 ==> GroupsOf(rs, n, cfg.apiKey)[j].id == keys[j]
    {
      GroupIsSublist(rs, n, cfg.apiKey, j);
    }
    RegroupedIsPermutation(rs, keys);
  }

  /** What a reader finds in group `j`: its id and heading, and the results of its source in
      report order, each under its own status, with tallies that count these items. */
  lemma DocumentShows(rs: seq<Result>, cfg: Config, now: string, j: nat)
    requires j < |DocumentOf(rs, cfg, now).groups|
    ensures |GroupKeys(rs, |cfg.dataSources|)| == |DocumentOf(rs, cfg, now).groups|
    ensures var g, key := DocumentOf(rs, cfg, now).groups[j], GroupKeys(rs, |cfg.dataSources|)[j];
            var own := From(rs, key);
            && (if j == 0 then key == "" && g.id == "server" && g.title == "Server"
                else if j <= |cfg.dataSources| then
                  key == g.id == SourceLabel(j - 1) && g.title == "Data source " + Decimal(j - 1)
                else key == g.id == g.title)
            && |g.results| == |own| && Tallied(g.counts, g.results)
            && forall i :: 0 <= i < |own| ==> ItemShows(g.results[i], own[i], cfg.apiKey)
  {
    var n := |cfg.dataSources|;
    GroupIsSublist(rs, n, cfg.apiKey, j);
    ItemsShow(From(rs, GroupKeys(rs, n)[j]), cfg.apiKey);
    ItemsTally(From(rs, GroupKeys(rs, n)[j]), cfg.apiKey);
    hide From, ItemsOf, CountsOf, ItemShows, ItemsWith, Tallied, Leftovers, SourceLabel, Decimal;
  }

  /** The echoed inputs: every URL redacted in its own place, the mappings as they are. */
  lemma DocumentEchoes(rs: seq<Result>, cfg: Config, now: string)
    ensures var m, key := DocumentOf(rs, cfg, now).meta, cfg.apiKey;
            && m.generatedAt == now && m.serverURL == RedactString(cfg.serverURL, key)
            && |m.dataSources| == |cfg.dataSources|
            && forall i: nat :: i < |cfg.dataSources| ==>
                 var e, ds := m.dataSources[i], cfg.dataSources[i];
                 && e.id == SourceLabel(i) && e.index == i && e.agencyMapping == ds.agencyMapping
                 && e.staticGtfs == RedactString(ds.staticGtfs, key)
                 && e.vehiclePositions == RedactString(ds.vehiclePositions, key)
                 && e.tripUpdates == RedactString(ds.tripUpdates, key)
                 && e.serviceAlerts == RedactString(ds.serviceAlerts, key)
  {
    hide RedactString, SourceLabel;
  }

  /** The summary tells how many results have each status; the verdict is FAIL exactly when
      one of them failed; the text report ends with the same verdict and numbers. */
  lemma SummaryIsTally(rs: seq<Result>, cfg: Config, now: string)
    ensures var s := DocumentOf(rs, cfg, now).summary;
            && s.counts.pass + s.counts.warn + s.counts.fail + s.counts.skip == s.total == |rs|
            && (s.verdict == "FAIL" <==> exists r <- rs :: r.status == Fail)
            && (s.verdict == "FAIL" || s.verdict == "PASS") && s.exitCode == 0
            && s.counts == Counts(CountOf(rs, Pass), CountOf(rs, Warn), CountOf(rs, Fail), CountOf(rs, Skip))
            && s.counts == TotalCounts(DocumentOf(rs, cfg, now).groups)
  {
    CountsSumToLength(rs);
    CountPositive(rs, Fail);
    TalliesAddUp(rs, |cfg.dataSources|, cfg.apiKey);
  }

  method TextMatchesSummary(rs: seq<Result>, cfg: Config, now: string, room: nat) returns (lines: seq<Line>, err: bool)
    ensures var s := DocumentOf(rs, cfg, now).summary;
            err || (|lines| > 0 && lines[|lines| - 1] == SummaryLine(s.verdict, s.total, s.counts.fail, s.counts.warn))
  {
    lines, err := WriteText(rs, room);
    CountPositive(rs, Fail);
  }

  /** No message and no echoed URL of the document contains a removable key. */
  lemma DocumentHidesKey(rs: seq<Result>, cfg: Config, now: string)
    requires Removable(cfg.apiKey)
    ensures var d := DocumentOf(rs, cfg, now);
            && (forall g <- d.groups, i <- g.results :: !Contains(i.message, cfg.apiKey))
            && !Contains(d.meta.serverURL, cfg.apiKey)
            && (forall m <- d.meta.dataSources ::
                  !Contains(m.staticGtfs, cfg.apiKey) && !Contains(m.vehiclePositions, cfg.apiKey)
                  && !Contains(m.tripUpdates, cfg.apiKey) && !Contains(m.serviceAlerts, cfg.apiKey))
  {
    RedactionIsExact(cfg.apiKey);
    var d := DocumentOf(rs, cfg, now);
    forall g, i | g in d.groups && i in g.results ensures !Contains(i.message, cfg.apiKey) {
      var j :| 0 <= j < |d.groups| && d.groups[j] == g;
      GroupIsSublist(rs, |cfg.dataSources|, cfg.apiKey, j);
      var k :| 0 <= k < |g.results| && g.results[k] == i;
    }
  }
}
