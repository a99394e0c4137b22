/** The subscription index: what it holds, and the wildcard trie that answers for it. */
module Subscriptions {
  import opened Util
  import opened Topics

  class SubscriptionEntry {
    const autoAck: bool
    const actualFilter: string
    const subscriptionIdentifier: Option<int>
    var detached: bool

    constructor (autoAck: bool, actualFilter: string, subscriptionIdentifier: Option<int>)
      ensures this.autoAck == autoAck && this.actualFilter == actualFilter
      ensures this.subscriptionIdentifier == subscriptionIdentifier && !detached
    {
      this.autoAck := autoAck;
      this.actualFilter := actualFilter;
      this.subscriptionIdentifier := subscriptionIdentifier;
      detached := false;
    }
  }

  /** A registered filter with its entry. */
  type Item = (string, SubscriptionEntry)

  /** `entry.actual_filter or filter_`. */
  function ActualFilter(item: Item): string {
    if item.1.actualFilter != "" then item.1.actualFilter else item.0
  }

  function Path(item: Item): Parts { Split(ActualFilter(item)) }

  predicate IsWild(part: string) { part == "+" || part == "#" }

  // The specification: the registrations in order of registration.

  ghost predicate DistinctFilters(log: seq<Item>) {
    forall i, j :: 0 <= i < j < |log| ==> log[i].0 != log[j].0
  }

  function HasPath(path: Parts): Item -> bool { (item: Item) => Path(item) == path }

  function HasIdentifier(identifier: int): Item -> bool {
    (item: Item) => item.1.subscriptionIdentifier == Some(identifier)
  }

  function NotNamed(f: string): Item -> bool { (item: Item) => item.0 != f }

  function OtherThan(f: string, entry: SubscriptionEntry): Item -> bool {
    (item: Item) => !(item.0 == f && item.1 == entry)
  }

  function MatchesTopic(topic: string): Item -> bool { (item: Item) => TopicMatches(ActualFilter(item), topic) }

  function At(log: seq<Item>, path: Parts): seq<Item> { Where(log, HasPath(path)) }

  function Without(log: seq<Item>, f: string): seq<Item> { Where(log, NotNamed(f)) }

  /** A trie node exists at `path` exactly when some registration runs through it. */
  ghost predicate Needed(log: seq<Item>, path: Parts) {
    path == [] || exists i :: 0 <= i < |log| && path <= Path(log[i])
  }

  /** What walking the trie below `path` yields for the remaining topic levels. */
  function Walk(log: seq<Item>, path: Parts, t: Parts): seq<Item>
    decreases |t|
  {
    At(log, path + ["#"]) +
    if t == [] then At(log, path)
    else
      (if IsWild(t[0]) then [] else Walk(log, path + [t[0]], t[1..])) + Walk(log, path + ["+"], t[1..])
  }

  lemma {:induction false} WalkFinds(log: seq<Item>, path: Parts, t: Parts, x: Item)
    ensures x in Walk(log, path, t) <==>
            x in log && path <= Path(x) && WalkMatches(Path(x)[|path|..], t)
    decreases |t|
  {
    WhereMember(log, HasPath(path + ["#"]), x);
    WhereMember(log, HasPath(path), x);
    if x in log && path <= Path(x) {
      var rest := Path(x)[|path|..];
      assert Path(x) == path + rest;
      if rest != [] {
        assert Path(x) == path + [rest[0]] + rest[1..];
        assert path + [rest[0]] <= Path(x) && Path(x)[|path| + 1..] == rest[1..];
      }
    }
    if t != [] {
      WalkFinds(log, path + ["+"], t[1..], x);
      WalkFinds(log, path + [t[0]], t[1..], x);
      StepMatches(x, path, t);
    }
  }

  /** One level of the walk against one level of the pattern. */
  lemma StepMatches(x: Item, path: Parts, t: Parts)
    requires t != []
    ensures (path <= Path(x) && WalkMatches(Path(x)[|path|..], t)) <==>
            (|| Path(x) == path + ["#"]
             || (path + ["+"] <= Path(x) && WalkMatches(Path(x)[|path| + 1..], t[1..]))
             || (!IsWild(t[0]) && path + [t[0]] <= Path(x) && WalkMatches(Path(x)[|path| + 1..], t[1..])))
  {
    if path <= Path(x) && |path| < |Path(x)| {
      var rest := Path(x)[|path|..];
      assert rest[1..] == Path(x)[|path| + 1..];
      assert Path(x) == path + [rest[0]] + rest[1..];
      forall part: string
        ensures path + [part] <= Path(x) <==> part == rest[0]
      {
        assert (path + [part])[|path|] == part && Path(x)[|path|] == rest[0];
      }
    } else {
      assert forall part: string :: path + [part] <= Path(x) ==> path <= Path(x);
    }
  }

  // Registration order and specificity order.

  /** Registration index of the filter `f` (the length when it is not registered). */
  function Pos(log: seq<Item>, f: string): nat {
    if log == [] || log[0].0 == f then 0 else 1 + Pos(log[1..], f)
  }

  lemma {:induction false} PosAt(log: seq<Item>, k: nat)
    requires DistinctFilters(log) && k < |log|
    ensures Pos(log, log[k].0) == k
  {
    if k > 0 {
      assert log[0].0 != log[k].0;
      PosAt(log[1..], k - 1);
    }
  }

  ghost predicate InOrder(log: seq<Item>, s: seq<Item>) {
    forall i, j :: 0 <= i < j < |s| ==> Pos(log, s[i].0) < Pos(log, s[j].0)
  }

  lemma {:induction false} WhereInOrder(log: seq<Item>, k: nat, p: Item -> bool)
    requires DistinctFilters(log) && k <= |log|
    ensures InOrder(log, Where(log[k..], p))
    ensures forall x :: x in Where(log[k..], p) ==> Pos(log, x.0) >= k
    decreases |log| - k
  {
    if k < |log| {
      WhereInOrder(log, k + 1, p);
      PosAt(log, k);
      assert log[k..][1..] == log[k + 1..];
    }
  }

  /** Items that share a filter path appear in registration order. */
  ghost predicate PathOrdered(log: seq<Item>, s: seq<Item>) {
    forall i, j :: 0 <= i < j < |s| && Path(s[i]) == Path(s[j]) ==> Pos(log, s[i].0) < Pos(log, s[j].0)
  }

  lemma PathOrderedConcat(log: seq<Item>, a: seq<Item>, b: seq<Item>)
    requires PathOrdered(log, a) && PathOrdered(log, b)
    requires forall x, y :: x in a && y in b ==> Path(x) != Path(y)
    ensures PathOrdered(log, a + b)
  {
    var s := a + b;
    forall i, j | 0 <= i < j < |s| && Path(s[i]) == Path(s[j])
      ensures Pos(log, s[i].0) < Pos(log, s[j].0)
    {
      assert (i < |a| ==> s[i] == a[i] && s[i] in a) && (i >= |a| ==> s[i] == b[i - |a|]);
      assert (j < |a| ==> s[j] == a[j]) && (j >= |a| ==> s[j] == b[j - |a|] && s[j] in b);
    }
  }

  lemma AtOrdered(log: seq<Item>, path: Parts)
    requires DistinctFilters(log)
    ensures PathOrdered(log, At(log, path))
    ensures forall x :: x in At(log, path) ==> Path(x) == path
  {
    WhereInOrder(log, 0, HasPath(path));
    assert log[0..] == log;
    forall x | x in At(log, path)
      ensures Path(x) == path
    {
      WhereMember(log, HasPath(path), x);
    }
  }

  ghost predicate Below(s: seq<Item>, path: Parts) {
    forall x :: x in s ==> path <= Path(x)
  }

  lemma WalkBelow(log: seq<Item>, path: Parts, t: Parts)
    ensures Below(Walk(log, path, t), path)
  {
    forall x | x in Walk(log, path, t)
      ensures path <= Path(x)
    {
      WalkFinds(log, path, t, x);
    }
  }

  lemma {:induction false} WalkOrdered(log: seq<Item>, path: Parts, t: Parts)
    requires DistinctFilters(log)
    ensures PathOrdered(log, Walk(log, path, t))
    decreases |t|
  {
    AtOrdered(log, path + ["#"]);
    if t == [] {
      AtOrdered(log, path);
      PathOrderedConcat(log, At(log, path + ["#"]), At(log, path));
    } else {
      var lit := if IsWild(t[0]) then [] else Walk(log, path + [t[0]], t[1..]);
      var plus := Walk(log, path + ["+"], t[1..]);
      WalkOrdered(log, path + ["+"], t[1..]);
      WalkBelow(log, path + ["+"], t[1..]);
      if !IsWild(t[0]) {
        WalkOrdered(log, path + [t[0]], t[1..]);
        WalkBelow(log, path + [t[0]], t[1..]);
        BranchesDisjoint(lit, path, t[0], plus, "+");
        BranchesDisjoint(At(log, path + ["#"]), path, "#", lit, t[0]);
      }
      BranchesDisjoint(At(log, path + ["#"]), path, "#", plus, "+");
      PathOrderedConcat(log, lit, plus);
      PathOrderedConcat(log, At(log, path + ["#"]), lit + plus);
    }
  }

  lemma BranchesDisjoint(a: seq<Item>, path: Parts, p: string, b: seq<Item>, q: string)
    requires Below(a, path + [p]) && Below(b, path + [q]) && p != q
    ensures forall x, y :: x in a && y in b ==> Path(x) != Path(y)
  {
    forall x, y | x in a && y in b
      ensures Path(x) != Path(y)
    {
      assert Path(x)[|path|] == (path + [p])[|path|] == p;
      assert Path(y)[|path|] == (path + [q])[|path|] == q;
    }
  }

  function Key(item: Item): seq<int> { Specificity(ActualFilter(item)) }

  /** Stable insertion: `x` stood before everything in `s`. */
  function InsertByKey(x: Item, s: seq<Item>): seq<Item> {
    if s != [] && LexLess(Key(s[0]), Key(x)) then [s[0]] + InsertByKey(x, s[1..]) else [x] + s
  }

  /** `sorted(s, key=specificity)`: ascending and stable. */
  function SortBySpecificity(s: seq<Item>): seq<Item> {
    if s == [] then [] else InsertByKey(s[0], SortBySpecificity(s[1..]))
  }

  /** Strictly before: more specific, or equally specific and registered earlier. */
  ghost predicate Outranks(log: seq<Item>, x: Item, y: Item) {
    LexLess(Key(x), Key(y)) || (Key(x) == Key(y) && Pos(log, x.0) < Pos(log, y.0))
  }

  ghost predicate Ranked(log: seq<Item>, s: seq<Item>) {
    forall i, j :: 0 <= i < j < |s| ==> Outranks(log, s[i], s[j])
  }

  ghost predicate TiesInOrder(log: seq<Item>, s: seq<Item>) {
    forall i, j :: 0 <= i < j < |s| && Key(s[i]) == Key(s[j]) ==> Pos(log, s[i].0) < Pos(log, s[j].0)
  }

  lemma {:induction false} InsertMembers(x: Item, s: seq<Item>, y: Item)
    ensures y in InsertByKey(x, s) <==> y == x || y in s
  {
    if s != [] && LexLess(Key(s[0]), Key(x)) {
      InsertMembers(x, s[1..], y);
      assert s == [s[0]] + s[1..];
    }
  }

  lemma {:induction false} InsertRanked(log: seq<Item>, x: Item, s: seq<Item>)
    requires Ranked(log, s)
    requires forall y :: y in s && Key(x) == Key(y) ==> Pos(log, x.0) < Pos(log, y.0)
    ensures Ranked(log, InsertByKey(x, s))
  {
    if s != [] && LexLess(Key(s[0]), Key(x)) {
      RankedHead(log, s);
      InsertRanked(log, x, s[1..]);
      var r := InsertByKey(x, s[1..]);
      forall y | y in r
        ensures Outranks(log, s[0], y)
      {
        InsertMembers(x, s[1..], y);
      }
      RankedCons(log, s[0], r);
    } else {
      forall y | y in s
        ensures Outranks(log, x, y)
      {
        OutranksAll(log, x, s, y);
      }
      RankedCons(log, x, s);
    }
  }

  lemma RankedCons(log: seq<Item>, x: Item, s: seq<Item>)
    requires Ranked(log, s) && forall y :: y in s ==> Outranks(log, x, y)
    ensures Ranked(log, [x] + s)
  {
    var r := [x] + s;
    forall i, j | 0 <= i < j < |r|
      ensures Outranks(log, r[i], r[j])
    {
      assert r[j] == s[j - 1] && r[j] in s;
      assert i > 0 ==> r[i] == s[i - 1];
    }
  }

  lemma OutranksAll(log: seq<Item>, x: Item, s: seq<Item>, y: Item)
    requires Ranked(log, s) && s != [] && y in s && !LexLess(Key(s[0]), Key(x))
    requires Key(x) == Key(y) ==> Pos(log, x.0) < Pos(log, y.0)
    ensures Outranks(log, x, y)
  {
    LexTrichotomy(Key(x), Key(y));
    LexTrichotomy(Key(x), Key(s[0]));
    var j :| 0 <= j < |s| && s[j] == y;
    if j > 0 {
      assert Outranks(log, s[0], y);
      if LexLess(Key(x), Key(s[0])) && LexLess(Key(s[0]), Key(y)) {
        LexTransitive(Key(x), Key(s[0]), Key(y));
      }
    }
  }

  lemma {:induction false} SortMembers(s: seq<Item>, y: Item)
    ensures y in SortBySpecificity(s) <==> y in s
  {
    if s != [] {
      SortMembers(s[1..], y);
      InsertMembers(s[0], SortBySpecificity(s[1..]), y);
      assert s == [s[0]] + s[1..];
    }
  }

  lemma {:induction false} SortRanked(log: seq<Item>, s: seq<Item>)
    requires TiesInOrder(log, s)
    ensures Ranked(log, SortBySpecificity(s))
  {
    if s != [] {
      assert forall i :: 0 <= i < |s| - 1 ==> s[1..][i] == s[i + 1];
      SortRanked(log, s[1..]);
      forall y | y in SortBySpecificity(s[1..]) && Key(s[0]) == Key(y)
        ensures Pos(log, s[0].0) < Pos(log, y.0)
      {
        SortMembers(s[1..], y);
        var i :| 0 <= i < |s| - 1 && s[1..][i] == y;
        assert s[i + 1] == y;
      }
      InsertRanked(log, s[0], SortBySpecificity(s[1..]));
    }
  }

  lemma {:induction false} RankedUnique(log: seq<Item>, a: seq<Item>, b: seq<Item>)
    requires Ranked(log, a) && Ranked(log, b)
    requires forall x :: x in a <==> x in b
    ensures a == b
  {
    assert (b != [] ==> b[0] in a) && (a != [] ==> a[0] in b);
    if a != [] {
      LexTrichotomy(Key(a[0]), Key(b[0]));
      assert a[0] == b[0];
      RankedHead(log, a);
      RankedHead(log, b);
      RankedUnique(log, a[1..], b[1..]);
      assert a == [a[0]] + a[1..] && b == [b[0]] + b[1..];
    }
  }

  lemma RankedHead(log: seq<Item>, a: seq<Item>)
    requires Ranked(log, a) && a != []
    ensures Ranked(log, a[1..])
    ensures forall x :: x in a[1..] <==> x in a && x != a[0]
  {
    assert forall i :: 0 <= i < |a| - 1 ==> a[1..][i] == a[i + 1];
    LexTrichotomy(Key(a[0]), Key(a[0]));
    forall i | 0 <= i < |a| - 1
      ensures a[1..][i] != a[0]
    {
      assert Outranks(log, a[0], a[i + 1]);
    }
    assert a == [a[0]] + a[1..];
  }

  // The answer to `match`, as a linear scan.

  function FoundBy(topic: string): Item -> bool {
    (item: Item) => TopicMatches(ActualFilter(item), topic) && WalkMatches(Path(item), Split(topic))
  }

  /** Every registration the walk can find for `topic`, most specific first, ties in registration order. */
  function MatchSpec(log: seq<Item>, topic: string): seq<Item> {
    SortBySpecificity(Where(log, FoundBy(topic)))
  }

  lemma {:induction false} WherePathOrdered(log: seq<Item>, s: seq<Item>, p: Item -> bool)
    requires PathOrdered(log, s)
    ensures PathOrdered(log, Where(s, p))
  {
    if s != [] {
      assert forall i :: 0 <= i < |s| - 1 ==> s[1..][i] == s[i + 1];
      WherePathOrdered(log, s[1..], p);
      var r := Where(s[1..], p);
      forall j | 0 <= j < |r| && Path(s[0]) == Path(r[j])
        ensures Pos(log, s[0].0) < Pos(log, r[j].0)
      {
        WhereMember(s[1..], p, r[j]);
        var k :| 0 <= k < |s| - 1 && s[1..][k] == r[j];
        assert s[k + 1] == r[j];
      }
    }
  }

  lemma FoundTies(topic: string, x: Item, y: Item)
    requires FoundBy(topic)(x) && FoundBy(topic)(y) && Key(x) == Key(y)
    ensures Path(x) == Path(y)
  {
    SameRanksSameParts(Path(x), Path(y), Split(topic));
  }

  lemma WalkedIsScanned(log: seq<Item>, topic: string, x: Item)
    ensures x in Where(Walk(log, [], Split(topic)), MatchesTopic(topic)) <==> x in log && FoundBy(topic)(x)
  {
    WhereMember(Walk(log, [], Split(topic)), MatchesTopic(topic), x);
    WalkFinds(log, [], Split(topic), x);
    assert Path(x)[0..] == Path(x);
  }

  lemma ScanRanked(log: seq<Item>, topic: string)
    requires DistinctFilters(log)
    ensures Ranked(log, MatchSpec(log, topic))
    ensures forall x :: x in MatchSpec(log, topic) <==> x in log && FoundBy(topic)(x)
  {
    var scanned := Where(log, FoundBy(topic));
    WhereInOrder(log, 0, FoundBy(topic));
    assert log[0..] == log;
    SortRanked(log, scanned);
    forall x
      ensures x in MatchSpec(log, topic) <==> x in log && FoundBy(topic)(x)
    {
      SortMembers(scanned, x);
      WhereMember(log, FoundBy(topic), x);
    }
  }

  /** The answer to `match` level by level: tighter filters first, the registrations of one filter in order. */
  lemma MatchOrderedByLevels(log: seq<Item>, topic: string)
    requires DistinctFilters(log)
    ensures var m := MatchSpec(log, topic);
            forall i, j :: 0 <= i < j < |m| ==>
              || Tighter(Split(ActualFilter(m[i])), Split(ActualFilter(m[j])))
              || (ActualFilter(m[i]) == ActualFilter(m[j]) && Pos(log, m[i].0) < Pos(log, m[j].0))
  {
    ScanRanked(log, topic);
    RankedByLevels(log, topic, MatchSpec(log, topic));
  }

  lemma RankedByLevels(log: seq<Item>, topic: string, m: seq<Item>)
    requires Ranked(log, m) && forall x :: x in m <==> x in log && FoundBy(topic)(x)
    ensures forall i, j :: 0 <= i < j < |m| ==>
              || Tighter(Split(ActualFilter(m[i])), Split(ActualFilter(m[j])))
              || (ActualFilter(m[i]) == ActualFilter(m[j]) && Pos(log, m[i].0) < Pos(log, m[j].0))
  {
    forall i, j | 0 <= i < j < |m|
      ensures || Tighter(Split(ActualFilter(m[i])), Split(ActualFilter(m[j])))
              || (ActualFilter(m[i]) == ActualFilter(m[j]) && Pos(log, m[i].0) < Pos(log, m[j].0))
    {
      assert m[i] in m && m[j] in m && Outranks(log, m[i], m[j]);
      OutranksByLevels(log, topic, m[i], m[j]);
    }
  }

  lemma OutranksByLevels(log: seq<Item>, topic: string, x: Item, y: Item)
    requires FoundBy(topic)(x) && FoundBy(topic)(y) && Outranks(log, x, y)
    ensures || Tighter(Split(ActualFilter(x)), Split(ActualFilter(y)))
            || (ActualFilter(x) == ActualFilter(y) && Pos(log, x.0) < Pos(log, y.0))
  {
    SortsFirstExactly(Path(x), Path(y), Split(topic));
    if Key(x) == Key(y) {
      FoundTies(topic, x, y);
      JoinSplit(ActualFilter(x));
      JoinSplit(ActualFilter(y));
    }
    hide Tighter, WalkMatches, TopicMatches, LexLess, Pos, Ranks;
  }

  /** Walking the trie, filtering and sorting is the scan of all registrations. */
  lemma WalkIsScan(log: seq<Item>, topic: string)
    requires DistinctFilters(log)
    ensures SortBySpecificity(Where(Walk(log, [], Split(topic)), MatchesTopic(topic))) == MatchSpec(log, topic)
  {
    var walked := Walk(log, [], Split(topic));
    var m := Where(walked, MatchesTopic(topic));
    forall x
      ensures x in SortBySpecificity(m) <==> x in log && FoundBy(topic)(x)
    {
      WalkedIsScanned(log, topic, x);
      SortMembers(m, x);
    }
    forall x | x in m
      ensures FoundBy(topic)(x)
    {
      WalkedIsScanned(log, topic, x);
    }
    WalkOrdered(log, [], Split(topic));
    WherePathOrdered(log, walked, MatchesTopic(topic));
    TiesFromPaths(log, topic, m);
    SortRanked(log, m);
    ScanRanked(log, topic);
    RankedUnique(log, SortBySpecificity(m), MatchSpec(log, topic));
  }

  lemma TiesFromPaths(log: seq<Item>, topic: string, m: seq<Item>)
    requires PathOrdered(log, m) && forall x :: x in m ==> FoundBy(topic)(x)
    ensures TiesInOrder(log, m)
  {
    forall i, j | 0 <= i < j < |m| && Key(m[i]) == Key(m[j])
      ensures Pos(log, m[i].0) < Pos(log, m[j].0)
    {
      assert m[i] in m && m[j] in m;
      FoundTies(topic, m[i], m[j]);
    }
  }

  /** For filters whose `#` is last (all the client accepts), match is exactly a scan with `_topic_matches`. */
  lemma MatchIsScan(log: seq<Item>, topic: string)
    requires forall item :: item in log ==> HashLast(Path(item))
    ensures MatchSpec(log, topic) == SortBySpecificity(Where(log, MatchesTopic(topic)))
  {
    forall x | x in log
      ensures FoundBy(topic)(x) == MatchesTopic(topic)(x)
    {
      WalkImpliesMatch(Path(x), Split(topic));
    }
    WhereAgree(log, FoundBy(topic), MatchesTopic(topic));
  }

  /** Over accepted filters, stripped as the protocol strips them, match is exactly that scan. */
  lemma AcceptedMatchIsScan(log: seq<Item>, strippedPrefixes: seq<string>, topic: string)
    requires forall item :: item in log ==>
               ValidateSubscribe(item.0).Ok? && item.1.actualFilter == SharedFilterToActual(item.0, strippedPrefixes)
    ensures MatchSpec(log, topic) == SortBySpecificity(Where(log, MatchesTopic(topic)))
  {
    forall item | item in log
      ensures HashLast(Path(item))
    {
      StrippedFilterWellFormed(item.0, strippedPrefixes);
      ValidateSubscribeExact(item.0);
      WellFormedHashLast(Path(item));
    }
    MatchIsScan(log, topic);
  }

  // Selecting one recipient.

  datatype Selection = Selection(recipient: Option<Item>, identifierMissing: bool, tiedFilters: seq<string>)

  /** `min(...)` over the candidates' specificities. */
  function MinKey(s: seq<Item>): seq<int>
    requires s != []
  {
    if |s| == 1 then Key(s[0])
    else if LexLess(MinKey(s[1..]), Key(s[0])) then MinKey(s[1..]) else Key(s[0])
  }

  function HasKey(key: seq<int>): Item -> bool { (item: Item) => Key(item) == key }

  function Names(s: seq<Item>): seq<string> {
    seq(|s|, i requires 0 <= i < |s| => s[i].0)
  }

  lemma {:induction false} MinKeyIsLeast(s: seq<Item>)
    requires s != []
    ensures exists x :: x in s && Key(x) == MinKey(s)
    ensures forall y :: y in s ==> !LexLess(Key(y), MinKey(s))
  {
    LexTrichotomy(Key(s[0]), Key(s[0]));
    assert s[0] in s;
    if |s| > 1 {
      MinKeyIsLeast(s[1..]);
      var m := MinKey(s[1..]);
      var x :| x in s[1..] && Key(x) == m;
      assert x in s;
      forall y | y in s
        ensures !LexLess(Key(y), MinKey(s))
      {
        LexTrichotomy(m, Key(s[0]));
        LexTrichotomy(Key(y), m);
        if y != s[0] {
          assert y in s[1..];
          if LexLess(Key(y), Key(s[0])) && LexLess(Key(s[0]), m) {
            LexTransitive(Key(y), Key(s[0]), m);
          }
        }
      }
    }
  }

  lemma WinnersExist(s: seq<Item>)
    requires s != []
    ensures Where(s, HasKey(MinKey(s))) != []
  {
    MinKeyIsLeast(s);
    var w :| w in s && Key(w) == MinKey(s);
    WhereMember(s, HasKey(MinKey(s)), w);
  }

  function SelectFrom(candidates: seq<Item>): Selection {
    if candidates == [] then Selection(None, false, [])
    else
      WinnersExist(candidates);
      var winners := Where(candidates, HasKey(MinKey(candidates)));
      Selection(Some(winners[0]), false, if |winners| > 1 then Names(winners) else [])
  }

  /** The selected recipient outranks every other candidate: most specific, then earliest registered. */
  lemma SelectFromBest(log: seq<Item>, candidates: seq<Item>)
    requires TiesInOrder(log, candidates)
    ensures SelectFrom(candidates).recipient.None? <==> candidates == []
    ensures var r := SelectFrom(candidates).recipient;
            r.Some? ==> r.value in candidates && forall y :: y in candidates && y != r.value ==> Outranks(log, r.value, y)
  {
    if candidates != [] {
      MinKeyIsLeast(candidates);
      var best := MinKey(candidates);
      var winners := Where(candidates, HasKey(best));
      var w :| w in candidates && Key(w) == best;
      WhereMember(candidates, HasKey(best), w);
      WhereMember(candidates, HasKey(best), winners[0]);
      WhereTies(log, candidates, HasKey(best));
      forall y | y in candidates && y != winners[0]
        ensures Outranks(log, winners[0], y)
      {
        LexTrichotomy(best, Key(y));
        WhereMember(candidates, HasKey(best), y);
        if y in winners {
          var j :| 0 <= j < |winners| && winners[j] == y;
        }
      }
    }
  }

  lemma {:induction false} WhereTies(log: seq<Item>, s: seq<Item>, p: Item -> bool)
    requires TiesInOrder(log, s)
    ensures TiesInOrder(log, Where(s, p))
  {
    if s != [] {
      assert forall i :: 0 <= i < |s| - 1 ==> s[1..][i] == s[i + 1];
      WhereTies(log, s[1..], p);
      var r := Where(s[1..], p);
      forall j | 0 <= j < |r| && Key(s[0]) == Key(r[j])
        ensures Pos(log, s[0].0) < Pos(log, r[j].0)
      {
        WhereMember(s[1..], p, r[j]);
        var k :| 0 <= k < |s| - 1 && s[1..][k] == r[j];
        assert s[k + 1] == r[j];
      }
    }
  }

  /** `select`: the earliest registration of the most specific matching filter, if anything matches. */
  lemma SelectIsEarliestMostSpecific(log: seq<Item>, topic: string)
    requires DistinctFilters(log)
    ensures var r := SelectFrom(MatchSpec(log, topic)).recipient;
            && (r.None? <==> forall x :: x in log ==> !FoundBy(topic)(x))
            && (r.Some? ==>
                  && r.value in log && FoundBy(topic)(r.value)
                  && forall y :: y in log && FoundBy(topic)(y) && y != r.value ==>
                       || Tighter(Split(ActualFilter(r.value)), Split(ActualFilter(y)))
                       || (ActualFilter(r.value) == ActualFilter(y) && Pos(log, r.value.0) < Pos(log, y.0)))
  {
    var m := MatchSpec(log, topic);
    ScanRanked(log, topic);
    RankedTies(log, m);
    SelectFromBest(log, m);
    var r := SelectFrom(m).recipient;
    if r.Some? {
      forall y | y in log && FoundBy(topic)(y) && y != r.value
        ensures || Tighter(Split(ActualFilter(r.value)), Split(ActualFilter(y)))
                || (ActualFilter(r.value) == ActualFilter(y) && Pos(log, r.value.0) < Pos(log, y.0))
      {
        OutranksByLevels(log, topic, r.value, y);
      }
    } else {
      assert m == [];
    }
  }

  /** The registration asks the broker for exactly this filter, once its decorations are stripped. */
  predicate StandsFor(item: Item, f: string) { item.1.actualFilter == f || (item.1.actualFilter == "" && item.0 == f) }

  /** A registered filter equal to the topic and free of wildcards is always the recipient's. */
  lemma ExactFilterWins(log: seq<Item>, topic: string, x: Item)
    requires DistinctFilters(log) && x in log && topic != "" && StandsFor(x, topic)
    requires forall i :: 0 <= i < |Split(topic)| ==> Split(topic)[i] != "+" && Split(topic)[i] != "#"
    ensures var r := SelectFrom(MatchSpec(log, topic)).recipient; r.Some? && r.value in log && StandsFor(r.value, topic)
  {
    MatchesItself(Split(topic));
    assert FoundBy(topic)(x) && ActualFilter(x) == topic;
    SelectIsEarliestMostSpecific(log, topic);
    var r := SelectFrom(MatchSpec(log, topic)).recipient.value;
    NothingTighter(Split(ActualFilter(r)), Split(topic));
    hide SelectFrom, MatchSpec, FoundBy, Tighter, DistinctFilters, Split, Pos;
  }

  lemma NothingTighter(p: Parts, q: Parts)
    requires forall i :: 0 <= i < |q| ==> q[i] != "+" && q[i] != "#"
    ensures !Tighter(p, q)
  {
    forall k | 0 <= k < |q| && k <= |p|
      ensures !TighterAt(p, q, k)
    {
      assert q[k..][0] == q[k];
    }
  }

  /** More than one registration of the recipient's filter are all reported as tied, in order; a single one is not. */
  lemma TiesReportedExactly(log: seq<Item>, topic: string)
    requires DistinctFilters(log)
    ensures var s := SelectFrom(MatchSpec(log, topic)); var tied := s.tiedFilters;
            && (s.recipient.None? ==> tied == [])
            && (s.recipient.Some? ==>
                  var r := s.recipient.value;
                  && (tied != [] <==> exists y :: y in log && FoundBy(topic)(y) && y != r && ActualFilter(y) == ActualFilter(r))
                  && (tied != [] ==> forall y :: y in log && FoundBy(topic)(y) ==> (y.0 in tied <==> ActualFilter(y) == ActualFilter(r)))
                  && (forall f :: f in tied ==> exists y :: y in log && FoundBy(topic)(y) && y.0 == f)
                  && forall i, j :: 0 <= i < j < |tied| ==> Pos(log, tied[i]) < Pos(log, tied[j]))
  {
    hide *;
    var m := MatchSpec(log, topic);
    ScanRanked(log, topic);
    RankedTies(log, m);
    if m == [] {
      NothingSelected();
    } else {
      WinnersAre(log, topic, m);
      TiedOf(log, topic, Where(m, HasKey(MinKey(m))));
    }
  }

  lemma NothingSelected()
    ensures SelectFrom([]) == Selection(None, false, [])
  {
  }

  lemma WinnersAre(log: seq<Item>, topic: string, m: seq<Item>)
    requires m != [] && TiesInOrder(log, m) && forall x :: x in m <==> x in log && FoundBy(topic)(x)
    ensures var winners := Where(m, HasKey(MinKey(m)));
            && winners != [] && TiesInOrder(log, winners) && winners[0] in m
            && SelectFrom(m) == Selection(Some(winners[0]), false, if |winners| > 1 then Names(winners) else [])
            && forall y :: y in winners <==> y in log && FoundBy(topic)(y) && ActualFilter(y) == ActualFilter(winners[0])
  {
    var key := MinKey(m);
    var winners := Where(m, HasKey(key));
    WinnersExist(m);
    var r := winners[0];
    WhereTies(log, m, HasKey(key));
    WhereMember(m, HasKey(key), r);
    forall y
      ensures y in winners <==> y in log && FoundBy(topic)(y) && ActualFilter(y) == ActualFilter(r)
    {
      WhereMember(m, HasKey(key), y);
      if y in winners {
        FoundTies(topic, y, r);
        JoinSplit(ActualFilter(y));
        JoinSplit(ActualFilter(r));
      }
    }
    hide Where, FoundBy, TiesInOrder;
  }

  lemma TiedOf(log: seq<Item>, topic: string, winners: seq<Item>)
    requires DistinctFilters(log) && winners != [] && TiesInOrder(log, winners)
    requires forall y :: y in winners <==> y in log && FoundBy(topic)(y) && ActualFilter(y) == ActualFilter(winners[0])
    ensures var r := winners[0]; var tied := if |winners| > 1 then Names(winners) else [];
            && (tied != [] <==> exists y :: y in log && FoundBy(topic)(y) && y != r && ActualFilter(y) == ActualFilter(r))
            && (tied != [] ==> forall y :: y in log && FoundBy(topic)(y) ==> (y.0 in tied <==> ActualFilter(y) == ActualFilter(r)))
            && (forall f :: f in tied ==> exists y :: y in log && FoundBy(topic)(y) && y.0 == f)
            && forall i, j :: 0 <= i < j < |tied| ==> Pos(log, tied[i]) < Pos(log, tied[j])
  {
    hide DistinctFilters, FoundBy, Pos, ActualFilter, TiesInOrder, Names;
    var r := winners[0];
    NamesAre(winners);
    TiesAscend(log, topic, winners);
    forall y | y in log && FoundBy(topic)(y)
      ensures y.0 in Names(winners) <==> ActualFilter(y) == ActualFilter(r)
    {
      NamedBy(log, topic, winners, y);
    }
    forall f | f in Names(winners)
      ensures exists y :: y in log && FoundBy(topic)(y) && y.0 == f
    {
      var i :| 0 <= i < |winners| && winners[i].0 == f;
      assert winners[i] in winners;
    }
    if |winners| > 1 {
      assert winners[1] in winners && winners[1] != r;
    }
  }

  lemma NamesAre(s: seq<Item>)
    ensures |Names(s)| == |s| && forall i :: 0 <= i < |s| ==> Names(s)[i] == s[i].0
  {
  }

  lemma TiesAscend(log: seq<Item>, topic: string, winners: seq<Item>)
    requires winners != [] && TiesInOrder(log, winners)
    requires forall y :: y in winners <==> y in log && FoundBy(topic)(y) && ActualFilter(y) == ActualFilter(winners[0])
    ensures forall i, j :: 0 <= i < j < |winners| ==> Pos(log, winners[i].0) < Pos(log, winners[j].0) && winners[i] != winners[j]
  {
    hide FoundBy, Pos, ActualFilter, Specificity;
    forall i, j | 0 <= i < j < |winners|
      ensures Pos(log, winners[i].0) < Pos(log, winners[j].0)
    {
      assert winners[i] in winners && winners[j] in winners;
      assert Key(winners[i]) == Key(winners[j]);
    }
  }

  lemma NamedBy(log: seq<Item>, topic: string, winners: seq<Item>, y: Item)
    requires DistinctFilters(log) && winners != [] && y in log && FoundBy(topic)(y)
    requires forall x :: x in winners <==> x in log && FoundBy(topic)(x) && ActualFilter(x) == ActualFilter(winners[0])
    ensures y.0 in Names(winners) <==> ActualFilter(y) == ActualFilter(winners[0])
  {
    hide DistinctFilters, FoundBy, ActualFilter, Names;
    NamesAre(winners);
    if y in winners {
      var i :| 0 <= i < |winners| && winners[i] == y;
      assert Names(winners)[i] == y.0;
    }
    if y.0 in Names(winners) {
      var i :| 0 <= i < |winners| && winners[i].0 == y.0;
      assert winners[i] in winners;
      Named(log, winners[i], y);
    }
  }

  lemma RankedTies(log: seq<Item>, s: seq<Item>)
    requires Ranked(log, s)
    ensures TiesInOrder(log, s)
  {
    forall i, j | 0 <= i < j < |s| && Key(s[i]) == Key(s[j])
      ensures Pos(log, s[i].0) < Pos(log, s[j].0)
    {
      assert Outranks(log, s[i], s[j]);
      LexTrichotomy(Key(s[i]), Key(s[j]));
    }
  }

  function SelectByIdentifierSpec(log: seq<Item>, topic: string, identifier: int): Selection {
    var identified := Where(log, HasIdentifier(identifier));
    if identified != [] then
      var matching := Where(identified, MatchesTopic(topic));
      SelectFrom(if matching != [] then matching else identified)
    else
      SelectFrom(MatchSpec(log, topic)).(identifierMissing := true)
  }

  lemma IdentifiedCandidates(log: seq<Item>, topic: string, identifier: int)
    requires DistinctFilters(log)
    ensures var identified := Where(log, HasIdentifier(identifier));
            var matching := Where(identified, MatchesTopic(topic));
            && (forall x :: x in identified <==> x in log && HasIdentifier(identifier)(x))
            && (forall x :: x in matching <==> x in identified && MatchesTopic(topic)(x))
            && TiesInOrder(log, identified) && TiesInOrder(log, matching)
            && (identified != [] ==> identified[0] in identified) && (matching != [] ==> matching[0] in matching)
  {
    var identified := Where(log, HasIdentifier(identifier));
    forall x
      ensures x in identified <==> x in log && HasIdentifier(identifier)(x)
    {
      WhereMember(log, HasIdentifier(identifier), x);
    }
    forall x
      ensures x in Where(identified, MatchesTopic(topic)) <==> x in identified && MatchesTopic(topic)(x)
    {
      WhereMember(identified, MatchesTopic(topic), x);
    }
    WhereInOrder(log, 0, HasIdentifier(identifier));
    assert log[0..] == log;
    WhereTies(log, identified, MatchesTopic(topic));
  }

  /** Routing by identifier never leaves the subscriptions that carry it, and prefers those whose filter matches. */
  lemma IdentifierRouting(log: seq<Item>, topic: string, identifier: int)
    requires DistinctFilters(log)
    ensures var s := SelectByIdentifierSpec(log, topic, identifier);
            && (s.identifierMissing <==> forall x :: x in log ==> !HasIdentifier(identifier)(x))
            && (s.identifierMissing ==>
                  var fallback := SelectFrom(MatchSpec(log, topic));
                  s.recipient == fallback.recipient && s.tiedFilters == fallback.tiedFilters)
            && (!s.identifierMissing ==>
                  && s.recipient.Some? && s.recipient.value in log && HasIdentifier(identifier)(s.recipient.value)
                  && ((exists x :: x in log && HasIdentifier(identifier)(x) && MatchesTopic(topic)(x)) ==>
                        MatchesTopic(topic)(s.recipient.value))
                  && forall y :: y in log && HasIdentifier(identifier)(y) && y != s.recipient.value &&
                                 MatchesTopic(topic)(y) == MatchesTopic(topic)(s.recipient.value) ==>
                       Outranks(log, s.recipient.value, y))
  {
    IdentifiedCandidates(log, topic, identifier);
    var identified := Where(log, HasIdentifier(identifier));
    var matching := Where(identified, MatchesTopic(topic));
    SelectFromNeverMissing(log, topic, identifier);
    hide *;
    if identified != [] {
      SelectFromBest(log, if matching != [] then matching else identified);
    }
  }

  lemma SelectFromNeverMissing(log: seq<Item>, topic: string, identifier: int)
    ensures var s := SelectByIdentifierSpec(log, topic, identifier);
            var identified := Where(log, HasIdentifier(identifier));
            var matching := Where(identified, MatchesTopic(topic));
            && (s.identifierMissing <==> identified == [])
            && (identified != [] ==> s == SelectFrom(if matching != [] then matching else identified))
            && (identified == [] ==> s == SelectFrom(MatchSpec(log, topic)).(identifierMissing := true))
  {
  }

  // The trie.

  class Node {
    var children: map<string, Node>
    var wildcardChildren: map<string, Node>
    var entries: seq<Item>
    ghost const path: Parts  // the levels that lead here

    constructor (ghost path: Parts)
      ensures children == map[] && wildcardChildren == map[] && entries == [] && this.path == path
    {
      children, wildcardChildren, entries := map[], map[], [];
      this.path := path;
    }
  }

  /** Every trie node, keyed by the levels that lead to it. */
  type NodeMap = map<Parts, Node>

  ghost function LastLevels(nodes: NodeMap): set<string> {
    set q | q in nodes && q != [] :: q[|q| - 1]
  }

  /** The child mapping (literal or wildcard) that the node at `p` must have. */
  ghost function Kids(nodes: NodeMap, p: Parts, wild: bool): map<string, Node> {
    map c | c in LastLevels(nodes) && p + [c] in nodes && IsWild(c) == wild :: nodes[p + [c]]
  }

  ghost predicate PrefixClosed(nodes: NodeMap) {
    [] in nodes && forall p :: p in nodes && p != [] ==> p[..|p| - 1] in nodes
  }

  lemma KidsKeys(nodes: NodeMap, p: Parts, wild: bool, c: string)
    ensures c in Kids(nodes, p, wild) <==> p + [c] in nodes && IsWild(c) == wild
  {
    if p + [c] in nodes {
      assert (p + [c])[|p + [c]| - 1] == c;
    }
  }

  lemma KidsValue(nodes: NodeMap, p: Parts, wild: bool, c: string)
    ensures c in Kids(nodes, p, wild) ==> p + [c] in nodes && Kids(nodes, p, wild)[c] == nodes[p + [c]]
  {
  }

  lemma LastLevel(p: Parts, c: string, q: Parts, d: string)
    ensures p + [c] == q + [d] <==> p == q && c == d
  {
    assert (p + [c])[..|p|] == p && (q + [d])[..|q|] == q;
    assert (p + [c])[|p|] == c && (q + [d])[|q|] == d;
  }

  lemma KidsAdd(nodes: NodeMap, path: Parts, part: string, child: Node, p: Parts, wild: bool)
    ensures Kids(nodes[path + [part] := child], p, wild) ==
            if p == path && IsWild(part) == wild then Kids(nodes, p, wild)[part := child] else Kids(nodes, p, wild)
  {
    var more := nodes[path + [part] := child];
    var expected := if p == path && IsWild(part) == wild then Kids(nodes, p, wild)[part := child] else Kids(nodes, p, wild);
    forall c
      ensures c in Kids(more, p, wild) <==> c in expected
      ensures c in expected ==> Kids(more, p, wild)[c] == expected[c]
    {
      KidsKeys(nodes, p, wild, c);
      KidsKeys(more, p, wild, c);
      LastLevel(p, c, path, part);
    }
  }

  lemma KidsRemove(nodes: NodeMap, path: Parts, part: string, p: Parts, wild: bool)
    ensures Kids(nodes - {path + [part]}, p, wild) ==
            if p == path && IsWild(part) == wild then Kids(nodes, p, wild) - {part} else Kids(nodes, p, wild)
  {
    var fewer := nodes - {path + [part]};
    var expected := if p == path && IsWild(part) == wild then Kids(nodes, p, wild) - {part} else Kids(nodes, p, wild);
    forall c
      ensures c in Kids(fewer, p, wild) <==> c in expected
      ensures c in expected ==> Kids(fewer, p, wild)[c] == expected[c]
    {
      KidsKeys(nodes, p, wild, c);
      KidsKeys(fewer, p, wild, c);
      LastLevel(p, c, path, part);
    }
  }

  lemma NoKids(nodes: NodeMap, q: Parts, wild: bool)
    requires PrefixClosed(nodes) && q !in nodes
    ensures Kids(nodes, q, wild) == map[]
  {
    forall c
      ensures c !in Kids(nodes, q, wild)
    {
      KidsKeys(nodes, q, wild, c);
      assert (q + [c])[..|q|] == q;
    }
  }

  lemma GrowClosed(nodes: NodeMap, path: Parts, part: string, child: Node)
    requires PrefixClosed(nodes) && path in nodes
    ensures PrefixClosed(nodes[path + [part] := child])
    ensures nodes[path + [part] := child][[]] == nodes[[]]
  {
    assert (path + [part])[..|path|] == path;
  }

  lemma NoKidsBelow(nodes: NodeMap, q: Parts)
    requires PrefixClosed(nodes) && Kids(nodes, q, false) == map[] && Kids(nodes, q, true) == map[]
    ensures q != [] ==> PrefixClosed(nodes - {q})
  {
    forall p | p in nodes && p != []
      ensures p[..|p| - 1] != q
    {
      KidsKeys(nodes, q, IsWild(p[|p| - 1]), p[|p| - 1]);
      assert p == p[..|p| - 1] + [p[|p| - 1]];
    }
  }

  /** Under the trie's invariant a node is empty exactly when no remaining registration needs it. */
  lemma BareIsUnneeded(nodes: NodeMap, kept: seq<Item>, q: Parts)
    requires q != []
    requires forall p :: p in nodes && |p| > |q| ==> Needed(kept, p)
    requires forall c :: Needed(kept, q + [c]) ==> q + [c] in nodes
    ensures Needed(kept, q) <==> !(At(kept, q) == [] && Kids(nodes, q, false) == map[] && Kids(nodes, q, true) == map[])
  {
    if Needed(kept, q) {
      NeededHereOrBelow(kept, q);
      if c :| Needed(kept, q + [c]) {
        KidsKeys(nodes, q, IsWild(c), c);
      }
    } else {
      HereOrBelowNeeded(kept, q, "");
      forall c, wild
        ensures c !in Kids(nodes, q, wild)
      {
        KidsKeys(nodes, q, wild, c);
        HereOrBelowNeeded(kept, q, c);
      }
    }
  }

  // The two dictionaries. An inner dictionary of `_by_identifier` keeps insertion order: a sequence of items.

  type Identified = map<int, seq<Item>>

  function FiltersOf(items: seq<Item>): set<string> { set item | item in items :: item.0 }

  lemma FiltersGrow(items: seq<Item>, i: nat)
    requires i < |items|
    ensures FiltersOf(items[..i + 1]) == FiltersOf(items[..i]) + {items[i].0}
  {
    assert items[..i + 1] == items[..i] + [items[i]];
  }

  lemma FiltersAppend(items: seq<Item>, item: Item)
    ensures FiltersOf(items + [item]) == FiltersOf(items) + {item.0}
  {
  }

  lemma NoFilters(items: seq<Item>)
    ensures FiltersOf(items[..0]) == {}
  {
  }

  ghost predicate EntriesOf(log: seq<Item>, entries: map<string, SubscriptionEntry>) {
    && (forall item :: item in log ==> item.0 in entries && entries[item.0] == item.1)
    && (forall f :: f in entries ==> (f, entries[f]) in log)
  }

  ghost predicate IdentifiedOf(log: seq<Item>, byIdentifier: Identified) {
    && (forall id :: id in byIdentifier <==> Where(log, HasIdentifier(id)) != [])
    && (forall id :: id in byIdentifier ==> byIdentifier[id] == Where(log, HasIdentifier(id)))
  }

  function AddIdentified(byIdentifier: Identified, x: Item): Identified {
    match x.1.subscriptionIdentifier
    case None => byIdentifier
    case Some(id) => byIdentifier[id := (if id in byIdentifier then byIdentifier[id] else []) + [x]]
  }

  function DropIdentified(byIdentifier: Identified, x: Item): Identified {
    match x.1.subscriptionIdentifier
    case None => byIdentifier
    case Some(id) =>
      if id !in byIdentifier then byIdentifier
      else if Where(byIdentifier[id], NotNamed(x.0)) == [] then byIdentifier - {id}
      else byIdentifier[id := Where(byIdentifier[id], NotNamed(x.0))]
  }

  lemma EntriesAppend(log: seq<Item>, entries: map<string, SubscriptionEntry>, x: Item)
    requires EntriesOf(log, entries) && x.0 !in entries
    ensures EntriesOf(log + [x], entries[x.0 := x.1])
  {
    assert forall item :: item in log + [x] <==> item in log || item == x;
  }

  lemma EntriesWithout(log: seq<Item>, entries: map<string, SubscriptionEntry>, x: Item)
    requires EntriesOf(log, entries) && x in log && DistinctFilters(log)
    ensures EntriesOf(Without(log, x.0), entries - {x.0})
  {
    var kept, fewer := Without(log, x.0), entries - {x.0};
    forall item | item in kept
      ensures item.0 in fewer && fewer[item.0] == item.1
    {
      WithoutMember(log, x.0, item);
    }
    forall f | f in fewer
      ensures (f, fewer[f]) in kept
    {
      WithoutMember(log, x.0, (f, entries[f]));
    }
    hide Without;
  }

  lemma IdentifiedAppend(log: seq<Item>, byIdentifier: Identified, x: Item)
    requires IdentifiedOf(log, byIdentifier)
    ensures IdentifiedOf(log + [x], AddIdentified(byIdentifier, x))
  {
    forall id: int
      ensures Where(log + [x], HasIdentifier(id)) ==
              Where(log, HasIdentifier(id)) + if x.1.subscriptionIdentifier == Some(id) then [x] else []
    {
      AppendOne(log, x, HasIdentifier(id));
    }
    hide Where, HasIdentifier;
  }

  lemma IdentifiedDrop(log: seq<Item>, byIdentifier: Identified, x: Item)
    requires IdentifiedOf(log, byIdentifier) && x in log && DistinctFilters(log)
    ensures IdentifiedOf(Without(log, x.0), DropIdentified(byIdentifier, x))
  {
    var kept, fewer := Without(log, x.0), DropIdentified(byIdentifier, x);
    forall id
      ensures id in fewer <==> Where(kept, HasIdentifier(id)) != []
      ensures id in fewer ==> fewer[id] == Where(kept, HasIdentifier(id))
    {
      IdentifiedWithout(log, x, id);
      WhereMember(log, HasIdentifier(id), x);
    }
    assert forall id :: id in fewer <==> Where(kept, HasIdentifier(id)) != [];
    assert forall id :: id in fewer ==> fewer[id] == Where(kept, HasIdentifier(id));
  }

  lemma IdentifiedWithout(log: seq<Item>, x: Item, id: int)
    requires x in log && DistinctFilters(log)
    ensures Where(Without(log, x.0), HasIdentifier(id)) ==
            if HasIdentifier(id)(x) then Where(Where(log, HasIdentifier(id)), NotNamed(x.0)) else Where(log, HasIdentifier(id))
  {
    WhereSwap(log, NotNamed(x.0), HasIdentifier(id));
    if !HasIdentifier(id)(x) {
      forall y | y in Where(log, HasIdentifier(id))
        ensures y.0 != x.0
      {
        WhereMember(log, HasIdentifier(id), y);
        if y.0 == x.0 { Named(log, x, y); }
      }
      WhereAll(Where(log, HasIdentifier(id)), NotNamed(x.0));
    }
  }

  lemma WithoutAbsent(log: seq<Item>, entries: map<string, SubscriptionEntry>, f: string)
    requires EntriesOf(log, entries) && f !in entries
    ensures Without(log, f) == log
  {
    WhereAll(log, NotNamed(f));
  }

  /** Removing and appending keep the registrations distinct. */
  lemma LogAppend(log: seq<Item>, entries: map<string, SubscriptionEntry>, x: Item)
    requires EntriesOf(log, entries) && x.0 !in entries && DistinctFilters(log)
    ensures DistinctFilters(log + [x])
  {
  }

  lemma EmptyLog()
    ensures forall p :: At([], p) == []
    ensures forall p :: Needed([], p) <==> p == []
    ensures forall id :: Where([], HasIdentifier(id)) == []
  {
  }

  lemma FirstNode(r: Node)
    ensures Kids(map[[] := r], [], false) == map[] && Kids(map[[] := r], [], true) == map[]
  {
    forall c, wild
      ensures c !in Kids(map[[] := r], [], wild)
    {
      KidsKeys(map[[] := r], [], wild, c);
    }
  }

  // How the specification changes when a registration is appended or removed.

  lemma AppendOne(log: seq<Item>, x: Item, p: Item -> bool)
    ensures Where(log + [x], p) == Where(log, p) + if p(x) then [x] else []
  {
    WhereAppend(log, [x], p);
    assert [x][1..] == [];
  }

  lemma NeededAppend(log: seq<Item>, x: Item, p: Parts)
    ensures Needed(log + [x], p) <==> Needed(log, p) || p <= Path(x)
  {
    if p <= Path(x) {
      assert (log + [x])[|log|] == x;
    }
    if i :| 0 <= i < |log| && p <= Path(log[i]) {
      assert (log + [x])[i] == log[i];
    }
  }

  lemma WithoutMember(log: seq<Item>, f: string, x: Item)
    ensures x in Without(log, f) <==> x in log && x.0 != f
  {
    WhereMember(log, NotNamed(f), x);
  }

  lemma {:induction false} WithoutDistinct(log: seq<Item>, f: string)
    requires DistinctFilters(log)
    ensures DistinctFilters(Without(log, f))
  {
    if log != [] {
      assert forall i :: 0 <= i < |log| - 1 ==> log[1..][i] == log[i + 1];
      WithoutDistinct(log[1..], f);
      var r := Without(log[1..], f);
      forall j | 0 <= j < |r|
        ensures r[j].0 != log[0].0
      {
        WithoutMember(log[1..], f, r[j]);
        var k :| 0 <= k < |log| - 1 && log[1..][k] == r[j];
        assert log[k + 1] == r[j];
      }
    }
  }

  lemma Named(log: seq<Item>, x: Item, y: Item)
    requires DistinctFilters(log) && x in log && y in log && x.0 == y.0
    ensures x == y
  {
    var i :| 0 <= i < |log| && log[i] == x;
    var j :| 0 <= j < |log| && log[j] == y;
    assert i == j;
  }

  /** Dropping `x` affects only the list at its own path. */
  lemma WithoutAt(log: seq<Item>, x: Item, p: Parts)
    requires DistinctFilters(log) && x in log
    ensures At(Without(log, x.0), p) == if p == Path(x) then Where(At(log, p), OtherThan(x.0, x.1)) else At(log, p)
  {
    var here := At(log, p);
    WhereSwap(log, NotNamed(x.0), HasPath(p));
    forall y | y in here
      ensures y.0 == x.0 ==> y == x && Path(x) == p
    {
      WhereMember(log, HasPath(p), y);
      if y.0 == x.0 { Named(log, x, y); }
    }
    if p == Path(x) {
      WhereAgree(here, NotNamed(x.0), OtherThan(x.0, x.1));
    } else {
      WhereAll(here, NotNamed(x.0));
    }
  }

  /** A path that the dropped item does not run through is needed as before. */
  lemma WithoutNeeded(log: seq<Item>, x: Item, p: Parts)
    requires DistinctFilters(log) && x in log
    ensures Needed(Without(log, x.0), p) ==> Needed(log, p)
    ensures Needed(log, p) && !(p <= Path(x)) ==> Needed(Without(log, x.0), p)
  {
    var kept := Without(log, x.0);
    if i :| 0 <= i < |kept| && p <= Path(kept[i]) {
      WithoutMember(log, x.0, kept[i]);
    }
    if i :| 0 <= i < |log| && p <= Path(log[i]) && !(p <= Path(x)) {
      if log[i].0 == x.0 { Named(log, x, log[i]); }
      WithoutMember(log, x.0, log[i]);
    }
  }

  lemma PrefixSplit(p: Parts, full: Parts)
    requires p <= full
    ensures full == p || p + [full[|p|]] <= full
  {
  }

  /** A needed node holds a registration or has a needed child... */
  lemma NeededHereOrBelow(log: seq<Item>, p: Parts)
    requires p != [] && Needed(log, p)
    ensures At(log, p) != [] || exists c :: Needed(log, p + [c])
  {
    var i :| 0 <= i < |log| && p <= Path(log[i]);
    PrefixSplit(p, Path(log[i]));
    if Path(log[i]) == p {
      WhereMember(log, HasPath(p), log[i]);
    } else {
      assert Needed(log, p + [Path(log[i])[|p|]]);
    }
  }

  /** ...and a node with either is needed. */
  lemma HereOrBelowNeeded(log: seq<Item>, p: Parts, c: string)
    ensures At(log, p) != [] || Needed(log, p + [c]) ==> Needed(log, p)
  {
    if At(log, p) != [] {
      WhereMember(log, HasPath(p), At(log, p)[0]);
    }
    if Needed(log, p + [c]) {
      var i :| 0 <= i < |log| && p + [c] <= Path(log[i]);
      assert p <= p + [c];
    }
  }

  class SubscriptionIndex {
    var root: Node
    var entries: map<string, SubscriptionEntry>
    var byIdentifier: map<int, seq<Item>>
    var responseObservers: set<string>

    ghost var nodes: NodeMap
    ghost var log: seq<Item>           // the registrations, oldest first

    /** The heap is a tree whose node at `p` is nodes[p]. */
    ghost predicate Tree()
      reads `nodes, `root, nodes.Values
    {
      && PrefixClosed(nodes) && nodes[[]] == root
      && (forall p :: p in nodes ==>
            nodes[p].path == p && nodes[p].children == Kids(nodes, p, false) && nodes[p].wildcardChildren == Kids(nodes, p, true))
    }

    /** Node lists hold the registrations of their path, in order. */
    ghost predicate Lists(items: seq<Item>)
      reads `nodes, nodes.Values
    {
      forall p :: p in nodes ==> nodes[p].entries == At(items, p)
    }

    /** Every part of the index is determined by `log`; no node outside the root is empty. */
    ghost predicate Valid()
      reads `root, `entries, `byIdentifier, `nodes, `log, nodes.Values
    {
      && DistinctFilters(log)
      && Tree()
      && Lists(log)
      && (forall p :: p in nodes <==> Needed(log, p))
      && EntriesOf(log, entries) && IdentifiedOf(log, byIdentifier)
    }

    constructor ()
      ensures Valid() && log == [] && entries == map[] && responseObservers == {}
      ensures fresh(nodes.Values)
    {
      var r := new Node([]);
      root := r;
      entries, byIdentifier, responseObservers := map[], map[], {};
      nodes, log := map[[] := r], [];
      new;
      EmptyIsValid();
    }

    /** A lone, bare root with empty tables is the index of the empty log. */
    lemma EmptyIsValid()
      requires nodes == map[[] := root] && log == [] && entries == map[] && byIdentifier == map[]
      requires root.path == [] && root.children == map[] && root.wildcardChildren == map[] && root.entries == []
      ensures Valid()
    {
      FirstNode(root);
      EmptyLog();
      hide Kids, Where, Needed, At;
      assert nodes.Keys == {[]};
    }

    /** `mapping.setdefault(part, _Node())` on the right mapping. */
    method SetDefault(ghost path: Parts, node: Node, part: string) returns (child: Node)
      requires Tree() && path in nodes && nodes[path] == node
      modifies this`nodes, node`children, node`wildcardChildren
      ensures Tree() && path + [part] in nodes && nodes[path + [part]] == child
      ensures path + [part] in old(nodes) ==> nodes == old(nodes)
      ensures path + [part] !in old(nodes) ==>
                nodes == old(nodes)[path + [part] := child] && fresh(child) && child.entries == []
    {
      KidsKeys(nodes, path, IsWild(part), part);
      KidsValue(nodes, path, IsWild(part), part);
      hide Kids;
      if IsWild(part) && part in node.wildcardChildren {
        child := node.wildcardChildren[part];
      } else if !IsWild(part) && part in node.children {
        child := node.children[part];
      } else {
        child := new Node(path + [part]);
        if IsWild(part) {
          node.wildcardChildren := node.wildcardChildren[part := child];
        } else {
          node.children := node.children[part := child];
        }
        GrowTree(path, part, child);
      }
    }

    /** A bare node just linked below the node at `path` extends the tree by one path. */
    ghost method GrowTree(path: Parts, part: string, child: Node)
      requires PrefixClosed(nodes) && nodes[[]] == root && path in nodes && path + [part] !in nodes
      requires forall p :: p in nodes ==> nodes[p].path == p
      requires child.path == path + [part] && child.children == map[] && child.wildcardChildren == map[]
      requires forall p :: p in nodes && p != path ==>
                 nodes[p].children == Kids(nodes, p, false) && nodes[p].wildcardChildren == Kids(nodes, p, true)
      requires if IsWild(part) then
                 nodes[path].wildcardChildren == Kids(nodes, path, true)[part := child] &&
                 nodes[path].children == Kids(nodes, path, false)
               else
                 nodes[path].children == Kids(nodes, path, false)[part := child] &&
                 nodes[path].wildcardChildren == Kids(nodes, path, true)
      modifies this`nodes
      ensures Tree() && nodes == old(nodes)[path + [part] := child]
    {
      NoKids(nodes, path + [part], false);
      NoKids(nodes, path + [part], true);
      LastLevel(path, part, path + [part], part);
      GrowClosed(nodes, path, part, child);
      hide Kids, PrefixClosed;
      nodes := nodes[path + [part] := child];
      forall p | p in nodes
        ensures nodes[p].children == Kids(nodes, p, false) && nodes[p].wildcardChildren == Kids(nodes, p, true)
      {
        KidsAdd(old(nodes), path, part, child, p, false);
        KidsAdd(old(nodes), path, part, child, p, true);
      }
    }
  
    /** The end of the descent: the item leaves the node's list. */
    method DropHere(f: string, entry: SubscriptionEntry, node: Node, ghost path: Parts)
      requires Tree() && Lists(log) && DistinctFilters(log)
      requires path in nodes && nodes[path] == node
      requires (f, entry) in log && Path((f, entry)) == path
      modifies node`entries
      ensures Tree() && Lists(Without(log, f))
    {
      hide Kids, PrefixClosed, Path, Where;
      node.entries := Where(node.entries, OtherThan(f, entry));
      forall p | p in nodes
        ensures nodes[p].entries == At(Without(log, f), p)
      {
        WithoutAt(log, (f, entry), p);
      }
    }

    /** `mapping.pop(part)` when the child is left with nothing. */
    method Prune(node: Node, part: string, child: Node, ghost path: Parts, ghost kept: seq<Item>)
      requires Tree() && Lists(kept) && path in nodes && nodes[path] == node
      requires path + [part] in nodes && nodes[path + [part]] == child
      requires forall p :: p in nodes && |p| > |path| + 1 ==> Needed(kept, p)
      requires forall c :: Needed(kept, path + [part] + [c]) ==> path + [part] + [c] in nodes
      modifies this`nodes, node`children, node`wildcardChildren
      ensures Tree() && Lists(kept)
      ensures nodes == if Needed(kept, path + [part]) then old(nodes) else old(nodes) - {path + [part]}
    {
      BareIsUnneeded(nodes, kept, path + [part]);
      hide Where, Needed, At, Kids, PrefixClosed;
      if child.children == map[] && child.wildcardChildren == map[] && child.entries == [] {
        Unlink(node, part, path);
      }
    }

    /** `mapping.pop(part)` for a childless node. */
    method Unlink(node: Node, part: string, ghost path: Parts)
      requires Tree() && path in nodes && nodes[path] == node && path + [part] in nodes
      requires Kids(nodes, path + [part], false) == map[] && Kids(nodes, path + [part], true) == map[]
      modifies this`nodes, node`children, node`wildcardChildren
      ensures Tree() && nodes == old(nodes) - {path + [part]}
    {
      hide Kids;
      if IsWild(part) {
        node.wildcardChildren := node.wildcardChildren - {part};
      } else {
        node.children := node.children - {part};
      }
      ShrinkTree(path, part);
    }

    /** A childless node unlinked from its parent leaves the tree. */
    ghost method ShrinkTree(path: Parts, part: string)
      requires PrefixClosed(nodes) && nodes[[]] == root && path in nodes && path + [part] in nodes
      requires Kids(nodes, path + [part], false) == map[] && Kids(nodes, path + [part], true) == map[]
      requires forall p :: p in nodes ==> nodes[p].path == p
      requires forall p :: p in nodes && p != path ==>
                 nodes[p].children == Kids(nodes, p, false) && nodes[p].wildcardChildren == Kids(nodes, p, true)
      requires if IsWild(part) then
                 nodes[path].wildcardChildren == Kids(nodes, path, true) - {part} &&
                 nodes[path].children == Kids(nodes, path, false)
               else
                 nodes[path].children == Kids(nodes, path, false) - {part} &&
                 nodes[path].wildcardChildren == Kids(nodes, path, true)
      modifies this`nodes
      ensures Tree() && nodes == old(nodes) - {path + [part]}
    {
      hide Kids;
      NoKidsBelow(nodes, path + [part]);
      nodes := nodes - {path + [part]};
      forall p | p in nodes
        ensures nodes[p].children == Kids(nodes, p, false) && nodes[p].wildcardChildren == Kids(nodes, p, true)
      {
        KidsRemove(old(nodes), path, part, p, false);
        KidsRemove(old(nodes), path, part, p, true);
      }
    }
  
    /** `_remove_entry`: drop the item from the node at the end of `parts` and prune what became empty. */
    method RemoveEntry(parts: Parts, f: string, entry: SubscriptionEntry, node: Node, ghost path: Parts)
      requires Tree() && Lists(log) && DistinctFilters(log)
      requires forall p :: p in nodes <==> Needed(log, p)
      requires path in nodes && nodes[path] == node
      requires (f, entry) in log && Path((f, entry)) == path + parts
      modifies this`nodes, nodes.Values
      ensures Tree() && Lists(Without(log, f))
      ensures forall p :: p in nodes ==> p in old(nodes) && nodes[p] == old(nodes)[p]
      ensures forall p :: p in nodes <==> p in old(nodes) && (|p| <= |path| || Needed(Without(log, f), p))
      decreases |parts|, 1
    {
      hide *;
      LongerNeeded(log, (f, entry));
      if parts == [] {
        assert path + parts == path;
        DropHere(f, entry, node, path);
      } else {
        ChildNeeded(log, (f, entry), path, parts);
        FindKid(path, parts[0]);
        var child := if IsWild(parts[0]) then node.wildcardChildren[parts[0]] else node.children[parts[0]];
        RemoveBelow(parts, f, entry, node, child, path);
      }
    }

    method RemoveBelow(parts: Parts, f: string, entry: SubscriptionEntry, node: Node, child: Node, ghost path: Parts)
      requires Tree() && Lists(log) && DistinctFilters(log)
      requires forall p :: p in nodes <==> Needed(log, p)
      requires parts != [] && path in nodes && nodes[path] == node
      requires path + [parts[0]] in nodes && nodes[path + [parts[0]]] == child
      requires (f, entry) in log && Path((f, entry)) == path + parts
      modifies this`nodes, nodes.Values
      ensures Tree() && Lists(Without(log, f))
      ensures forall p :: p in nodes ==> p in old(nodes) && nodes[p] == old(nodes)[p]
      ensures forall p :: p in nodes <==> p in old(nodes) && (|p| <= |path| || Needed(Without(log, f), p))
      decreases |parts|, 0
    {
      hide *;
      ghost var kept, q, before := Without(log, f), path + [parts[0]], nodes.Keys;
      ChildNeeded(log, (f, entry), path, parts);
      SameLengthNeeded(log, (f, entry), q);
      LongerNeeded(log, (f, entry));
      RemoveEntry(parts[1..], f, entry, child, q);
      ghost var between := nodes.Keys;
      Prune(node, parts[0], child, path, kept);
      PrunedDomain(log, kept, |path|, q, before, between, nodes.Keys);
    }

    method Remove(f: string) returns (removed: Option<SubscriptionEntry>)
      requires Valid()
      modifies this, nodes.Values
      ensures Valid() && nodes.Values <= old(nodes.Values)
      ensures log == Without(old(log), f) && responseObservers == old(responseObservers)
      ensures entries == old(entries) - {f}
      ensures removed == if f in old(entries) then Some(old(entries)[f]) else None
    {
      hide *;
      UnfoldValid();
      if f !in entries {
        WithoutAbsent(log, entries, f);
        return None;
      }
      var entry := entries[f];
      EntryHolds(f);
      EntriesWithout(log, entries, (f, entry));
      IdentifiedDrop(log, byIdentifier, (f, entry));
      WithoutDistinct(log, f);
      entries := entries - {f};
      RemoveFromTrie(f, entry);
      DropIdentifier(f, entry);
      log := Without(log, f);
      FoldValid();
      removed := Some(entry);
    }

    /** `self._remove_entry(tree_filter.split("/"), filter_, entry, self._root)`. */
    method RemoveFromTrie(f: string, entry: SubscriptionEntry)
      requires Tree() && Lists(log) && DistinctFilters(log) && (f, entry) in log
      requires forall p :: p in nodes <==> Needed(log, p)
      modifies this`nodes, nodes.Values
      ensures Tree() && Lists(Without(log, f))
      ensures forall p :: p in nodes <==> Needed(Without(log, f), p)
      ensures nodes.Values <= old(nodes.Values)
    {
      hide *;
      TreeRoot();
      var parts := Split(ActualFilter((f, entry)));
      RootPath((f, entry), parts);
      LongerNeeded(log, (f, entry));
      ghost var before := nodes.Keys;
      RemoveEntry(parts, f, entry, root, []);
      RootNeeded(Without(log, f), nodes.Keys, before, log);
    }

    lemma TreeRoot()
      requires Tree()
      ensures [] in nodes && nodes[[]] == root
    {
    }

    method DropIdentifier(f: string, entry: SubscriptionEntry)
      modifies this`byIdentifier
      ensures byIdentifier == DropIdentified(old(byIdentifier), (f, entry))
    {
      if entry.subscriptionIdentifier.Some? {
        var id := entry.subscriptionIdentifier.value;
        if id in byIdentifier {
          var identified := Where(byIdentifier[id], NotNamed(f));
          byIdentifier := if identified == [] then byIdentifier - {id} else byIdentifier[id := identified];
        }
      }
    }

    lemma UnfoldValid()
      requires Valid()
      ensures DistinctFilters(log) && Tree() && Lists(log) && EntriesOf(log, entries) && IdentifiedOf(log, byIdentifier)
      ensures forall p :: p in nodes <==> Needed(log, p)
      ensures [] in nodes && nodes[[]] == root
    {
    }

    lemma FoldValid()
      requires DistinctFilters(log) && Tree() && Lists(log) && EntriesOf(log, entries) && IdentifiedOf(log, byIdentifier)
      requires forall p :: p in nodes <==> Needed(log, p)
      ensures Valid()
    {
    }

    lemma EntryHolds(f: string)
      requires EntriesOf(log, entries) && f in entries
      ensures (f, entries[f]) in log
    {
    }

    method Add(f: string, entry: SubscriptionEntry)
      requires Valid()
      modifies this, nodes.Values
      ensures Valid() && fresh(nodes.Values - old(nodes.Values))
      ensures log == Without(old(log), f) + [(f, entry)] && responseObservers == old(responseObservers)
      ensures entries == old(entries)[f := entry]
    {
      hide *;
      if f in entries {
        var _ := Remove(f);
      } else {
        UnfoldValid();
        WithoutAbsent(log, entries, f);
      }
      AddNew(f, entry);
    }

    method AddNew(f: string, entry: SubscriptionEntry)
      requires Valid() && f !in entries
      modifies this, nodes.Values
      ensures Valid() && fresh(nodes.Values - old(nodes.Values))
      ensures log == old(log) + [(f, entry)] && responseObservers == old(responseObservers)
      ensures entries == old(entries)[f := entry]
    {
      hide *;
      UnfoldValid();
      LogAppend(log, entries, (f, entry));
      EntriesAppend(log, entries, (f, entry));
      IdentifiedAppend(log, byIdentifier, (f, entry));
      AddToTrie(f, entry);
      entries := entries[f := entry];
      AddIdentifier(f, entry);
      log := log + [(f, entry)];
      FoldValid();
    }

    /** A caller's registration of a new filter and its removal: the index is as before. */
    method AddAndRemove(f: string, entry: SubscriptionEntry)
      requires Valid() && f !in entries
      modifies this, nodes.Values
      ensures Valid() && log == old(log) && nodes.Keys == old(nodes.Keys)
      ensures forall p :: p in nodes ==> nodes[p].entries == old(nodes[p].entries)
      ensures forall p :: p in nodes ==> nodes[p].children.Keys == old(nodes[p].children.Keys)
      ensures forall p :: p in nodes ==> nodes[p].wildcardChildren.Keys == old(nodes[p].wildcardChildren.Keys)
      ensures entries == old(entries) && byIdentifier == old(byIdentifier) && responseObservers == old(responseObservers)
    {
      hide *;
      UnfoldValid();
      WithoutAbsent(log, entries, f);
      NotRegistered(f);
      AddThenRemove(log, f, entry);
      Add(f, entry);
      var _ := Remove(f);
      SameLogSameIndex(this);
    }

    lemma NotRegistered(f: string)
      requires EntriesOf(log, entries) && f !in entries
      ensures forall x :: x in log ==> x.0 != f
    {
    }

    method Clear()
      modifies this
      ensures Valid() && fresh(nodes.Values)
      ensures log == [] && entries == map[] && responseObservers == {}
    {
      var r := new Node([]);
      root, nodes, log := r, map[[] := r], [];
      entries, byIdentifier, responseObservers := map[], map[], {};
      EmptyIsValid();
    }

    /** `add_many` over a mapping, given as its items in order. */
    method AddMany(items: seq<Item>)
      requires Valid()
      modifies this, nodes.Values
      ensures Valid() && fresh(nodes.Values - old(nodes.Values))
      ensures log == AddedMany(old(log), items) && responseObservers == old(responseObservers)
      ensures entries.Keys == old(entries.Keys) + FiltersOf(items)
      ensures forall f :: f in entries ==> (f, entries[f]) in items || (f in old(entries) && entries[f] == old(entries)[f])
      ensures forall f :: f in old(entries) && f !in FiltersOf(items) ==> entries[f] == old(entries)[f]
    {
      hide *;
      NoFilters(items);
      for i := 0 to |items|
        invariant Valid() && fresh(nodes.Values - old(nodes.Values))
        invariant AddedMany(log, items[i..]) == AddedMany(old(log), items)
        invariant entries.Keys == old(entries.Keys) + FiltersOf(items[..i])
        invariant forall f :: f in entries ==> (f, entries[f]) in items || (f in old(entries) && entries[f] == old(entries)[f])
        invariant forall f :: f in old(entries) && f !in FiltersOf(items[..i]) ==> entries[f] == old(entries)[f]
        invariant responseObservers == old(responseObservers)
      {
        AddedManyStep(log, items, i);
        FiltersGrow(items, i);
        Add(items[i].0, items[i].1);
      }
      AddedManyDone(log, items);
      assert items[..|items|] == items;
    }

    method Contains(f: string) returns (r: bool)
      requires Valid()
      ensures r <==> exists i :: 0 <= i < |log| && log[i].0 == f
    {
      r := f in entries;
    }

    method AddResponseObserver(topic: string) returns (first: bool)
      requires Valid()
      modifies `responseObservers
      ensures Valid()
      ensures first <==> topic !in old(responseObservers)
      ensures responseObservers == old(responseObservers) + {topic}
    {
      hide *;
      if topic in responseObservers { return false; }
      responseObservers := responseObservers + {topic};
      first := true;
    }

    method RemoveResponseObserver(topic: string) returns (present: bool)
      requires Valid()
      modifies `responseObservers
      ensures Valid()
      ensures present <==> topic in old(responseObservers)
      ensures responseObservers == old(responseObservers) - {topic}
    {
      hide *;
      if topic !in responseObservers { return false; }
      responseObservers := responseObservers - {topic};
      present := true;
    }

    /** `_collect`: append to `acc` everything the walk finds below `node`. */
    method Collect(node: Node, parts: Parts, acc: seq<Item>, idx: nat, ghost path: Parts) returns (res: seq<Item>)
      requires Valid() && path in nodes && nodes[path] == node && idx <= |parts|
      ensures res == acc + Walk(log, path, parts[idx..])
      decreases |parts| - idx, 1
    {
      hide *;
      WildKid(node, path, "#");
      res := acc;
      if "#" in node.wildcardChildren {
        res := res + node.wildcardChildren["#"].entries;
      }
      assert res == acc + At(log, path + ["#"]);
      if idx == |parts| {
        NodeList(path);
        res := res + node.entries;
        WalkAtEnd(log, path, parts, acc);
      } else {
        res := CollectLevel(node, parts, res, idx, path);
        WalkUnfold(log, path, parts, idx, acc);
      }
    }

    method CollectLevel(node: Node, parts: Parts, acc: seq<Item>, idx: nat, ghost path: Parts) returns (res: seq<Item>)
      requires Valid() && path in nodes && nodes[path] == node && idx < |parts|
      ensures res == acc + WalkLiteral(log, path, parts[idx], parts[idx + 1..]) + Walk(log, path + ["+"], parts[idx + 1..])
      decreases |parts| - idx, 0
    {
      hide *;
      var part := parts[idx];
      LiteralKid(node, path, part, parts[idx + 1..]);
      WildKid(node, path, "+");
      UnneededWalk(log, path + ["+"], parts[idx + 1..]);
      res := acc;
      if part in node.children {
        res := Collect(node.children[part], parts, res, idx + 1, path + [part]);
      }
      assert res == acc + WalkLiteral(log, path, part, parts[idx + 1..]);
      if "+" in node.wildcardChildren {
        res := Collect(node.wildcardChildren["+"], parts, res, idx + 1, path + ["+"]);
      }
    }

    /** The trie answers exactly what a scan of the registrations would. */
    method Match(topic: string) returns (items: seq<Item>)
      requires Valid()
      ensures items == MatchSpec(log, topic)
    {
      hide *;
      UnfoldValid();
      StartOf(Split(topic));
      var matches := Collect(root, Split(topic), [], 0, []);
      var filtered := Where(matches, MatchesTopic(topic));
      items := SortBySpecificity(filtered);
      WalkIsScan(log, topic);
    }

    method Select(topic: string) returns (s: Selection)
      requires Valid()
      ensures s == SelectFrom(MatchSpec(log, topic))
    {
      var candidates := Match(topic);
      s := SelectFrom(candidates);
    }

    method SelectByIdentifier(topic: string, identifier: int) returns (s: Selection)
      requires Valid()
      ensures s == SelectByIdentifierSpec(log, topic, identifier)
    {
      var identified := if identifier in byIdentifier then byIdentifier[identifier] else [];
      if identified != [] {
        var matching := Where(identified, MatchesTopic(topic));
        s := SelectFrom(if matching != [] then matching else identified);
      } else {
        var fallback := Select(topic);
        s := Selection(fallback.recipient, true, fallback.tiedFilters);
      }
    }

    lemma NodeList(path: Parts)
      requires Valid() && path in nodes
      ensures nodes[path].entries == At(log, path)
    {
    }

    lemma WildKid(node: Node, path: Parts, part: string)
      requires Valid() && path in nodes && nodes[path] == node && (part == "#" || part == "+")
      ensures part in node.wildcardChildren ==>
                path + [part] in nodes && node.wildcardChildren[part] == nodes[path + [part]] &&
                node.wildcardChildren[part].entries == At(log, path + [part])
      ensures part !in node.wildcardChildren ==> !Needed(log, path + [part]) && At(log, path + [part]) == []
    {
      KidFacts(node, path, part);
    }

    lemma LiteralKid(node: Node, path: Parts, part: string, t: Parts)
      requires Valid() && path in nodes && nodes[path] == node
      ensures part in node.children ==>
                path + [part] in nodes && node.children[part] == nodes[path + [part]] &&
                WalkLiteral(log, path, part, t) == Walk(log, path + [part], t)
      ensures part !in node.children ==> WalkLiteral(log, path, part, t) == []
    {
      KidFacts(node, path, part);
      UnneededWalk(log, path + [part], t);
    }

    /** What the node for one more level contributes, present or not. */
    lemma KidFacts(node: Node, path: Parts, part: string)
      requires Valid() && path in nodes && nodes[path] == node
      ensures IsWild(part) ==>
                (part in node.wildcardChildren <==> path + [part] in nodes) &&
                (part in node.wildcardChildren ==> node.wildcardChildren[part] == nodes[path + [part]])
      ensures part in node.children <==> !IsWild(part) && path + [part] in nodes
      ensures part in node.children ==> node.children[part] == nodes[path + [part]]
      ensures path + [part] in nodes ==> nodes[path + [part]].entries == At(log, path + [part])
      ensures path + [part] !in nodes ==> !Needed(log, path + [part]) && At(log, path + [part]) == []
    {
      KidsKeys(nodes, path, IsWild(part), part);
      KidsKeys(nodes, path, false, part);
      KidsValue(nodes, path, IsWild(part), part);
      UnneededIsEmpty(log, path + [part]);
      hide Kids, Where, At, Needed, PrefixClosed;
    }

    /** `self._by_identifier.setdefault(identifier, {})[filter_] = entry` for a filter not yet in the table. */
    method AddIdentifier(f: string, entry: SubscriptionEntry)
      modifies this`byIdentifier
      ensures byIdentifier == AddIdentified(old(byIdentifier), (f, entry))
    {
      if entry.subscriptionIdentifier.Some? {
        var id := entry.subscriptionIdentifier.value;
        byIdentifier := byIdentifier[id := (if id in byIdentifier then byIdentifier[id] else []) + [(f, entry)]];
      }
    }

    /** Descend from the root, creating what is missing, and append at the end. */
    method AddToTrie(f: string, entry: SubscriptionEntry)
      requires Tree() && Lists(log)
      requires forall p :: p in nodes <==> Needed(log, p)
      modifies this`nodes, nodes.Values
      ensures Tree() && Lists(log + [(f, entry)])
      ensures forall p :: p in nodes <==> Needed(log + [(f, entry)], p)
      ensures fresh(nodes.Values - old(nodes.Values))
    {
      hide *;
      TreeRoot();
      var parts := Split(ActualFilter((f, entry)));
      RootPath((f, entry), parts);
      var node := root;
      var i := 0;
      StartAtRoot(log, nodes.Keys, parts);
      while i < |parts|
        invariant 0 <= i <= |parts|
        invariant Tree() && Lists(log)
        invariant parts[..i] in nodes && nodes[parts[..i]] == node
        invariant forall p :: p in nodes <==> Needed(log, p) || p <= parts[..i]
        invariant fresh(nodes.Values - old(nodes.Values))
      {
        node := Descend(node, parts[i], parts[..i]);
        TakeNext(parts, i);
        i := i + 1;
      }
      TakeAll(parts, (f, entry));
      AppendHere(f, entry, node, parts);
      NeededWithLast(log, (f, entry), parts);
    }

    /** One level down, below the node at `path`. */
    method Descend(node: Node, part: string, ghost path: Parts) returns (child: Node)
      requires Tree() && Lists(log) && path in nodes && nodes[path] == node
      requires forall p :: p in nodes <==> Needed(log, p) || p <= path
      modifies this`nodes, nodes.Values
      ensures Tree() && Lists(log)
      ensures path + [part] in nodes && nodes[path + [part]] == child
      ensures forall p :: p in nodes <==> Needed(log, p) || p <= path + [part]
      ensures fresh(nodes.Values - old(nodes.Values))
    {
      ghost var before := nodes.Keys;
      UnneededIsEmpty(log, path + [part]);
      hide Where, Needed, At, Kids, PrefixClosed, Tree;
      child := SetDefault(path, node, part);
      NextDomain(log, path, part, before, nodes.Keys);
    }

    method AppendHere(f: string, entry: SubscriptionEntry, node: Node, ghost path: Parts)
      requires Tree() && Lists(log) && path in nodes && nodes[path] == node && Path((f, entry)) == path
      modifies node`entries
      ensures Tree() && Lists(log + [(f, entry)])
    {
      hide Kids, PrefixClosed, Where, Split;
      node.entries := node.entries + [(f, entry)];
      forall p | p in nodes
        ensures nodes[p].entries == At(log + [(f, entry)], p)
      {
        AppendOne(log, (f, entry), HasPath(p));
      }
    }

    lemma FindKid(path: Parts, part: string)
      requires Tree() && path in nodes && path + [part] in nodes
      ensures if IsWild(part) then
                part in nodes[path].wildcardChildren && nodes[path].wildcardChildren[part] == nodes[path + [part]]
              else
                part in nodes[path].children && nodes[path].children[part] == nodes[path + [part]]
    {
      KidsKeys(nodes, path, IsWild(part), part);
      KidsValue(nodes, path, IsWild(part), part);
    }
  }

  /** The registrations determine the whole index: nodes, node lists and both tables. */
  lemma LogDeterminesIndex(a: SubscriptionIndex, b: SubscriptionIndex)
    requires a.Valid() && b.Valid() && a.log == b.log
    ensures a.nodes.Keys == b.nodes.Keys
    ensures forall p :: p in a.nodes ==> a.nodes[p].entries == b.nodes[p].entries
    ensures a.entries == b.entries && a.byIdentifier == b.byIdentifier
  {
    hide Kids, PrefixClosed, Where, Needed, At;
    SameEntries(a.log, a.entries, b.entries);
    SameIdentified(a.log, a.byIdentifier, b.byIdentifier);
  }

  /** Whatever happened in between, an index with the registrations of an earlier moment is as it was then. */
  twostate lemma SameLogSameIndex(index: SubscriptionIndex)
    requires old(index.Valid()) && index.Valid() && index.log == old(index.log)
    ensures index.nodes.Keys == old(index.nodes.Keys)
    ensures forall p :: p in index.nodes ==> index.nodes[p].entries == old(index.nodes[p].entries)
    ensures forall p :: p in index.nodes ==> index.nodes[p].children.Keys == old(index.nodes[p].children.Keys)
    ensures forall p :: p in index.nodes ==> index.nodes[p].wildcardChildren.Keys == old(index.nodes[p].wildcardChildren.Keys)
    ensures index.entries == old(index.entries) && index.byIdentifier == old(index.byIdentifier)
  {
    hide PrefixClosed, Where, Needed, At, Kids;
    SameEntries(index.log, index.entries, old(index.entries));
    SameIdentified(index.log, index.byIdentifier, old(index.byIdentifier));
    forall p | p in index.nodes
      ensures index.nodes[p].children.Keys == old(index.nodes[p].children.Keys)
      ensures index.nodes[p].wildcardChildren.Keys == old(index.nodes[p].wildcardChildren.Keys)
    {
      SameKids(index.nodes, old(index.nodes), p, false);
      SameKids(index.nodes, old(index.nodes), p, true);
    }
  }

  lemma SameKids(a: NodeMap, b: NodeMap, p: Parts, wild: bool)
    requires a.Keys == b.Keys
    ensures Kids(a, p, wild).Keys == Kids(b, p, wild).Keys
  {
    forall c: string
      ensures c in Kids(a, p, wild) <==> c in Kids(b, p, wild)
    {
      KidsKeys(a, p, wild, c);
      KidsKeys(b, p, wild, c);
    }
    hide Kids;
  }

  lemma SameEntries(log: seq<Item>, a: map<string, SubscriptionEntry>, b: map<string, SubscriptionEntry>)
    requires EntriesOf(log, a) && EntriesOf(log, b)
    ensures a == b
  {
    assert forall f :: f in a ==> (f, a[f]) in log;
    assert forall f :: f in b ==> (f, b[f]) in log;
  }

  lemma SameIdentified(log: seq<Item>, a: Identified, b: Identified)
    requires IdentifiedOf(log, a) && IdentifiedOf(log, b)
    ensures a == b
  {
    hide Where;
    assert forall id :: id in a <==> id in b;
    assert forall id :: id in a ==> a[id] == b[id];
  }

  /** Pruning is complete: outside the root every node holds a registration or has a child. */
  lemma NoEmptyNode(index: SubscriptionIndex, p: Parts)
    requires index.Valid() && p in index.nodes && p != []
    ensures var n := index.nodes[p]; n.entries != [] || n.children != map[] || n.wildcardChildren != map[]
  {
    hide Where, Needed, At, Kids, PrefixClosed;
    BareIsUnneeded(index.nodes, index.log, p);
  }

  /** Paths longer than the dropped one are needed as before. */
  lemma LongerNeeded(log: seq<Item>, x: Item)
    requires DistinctFilters(log) && x in log
    ensures forall p :: Needed(log, p) && |p| > |Path(x)| ==> Needed(Without(log, x.0), p)
    ensures forall p :: Needed(Without(log, x.0), p) ==> Needed(log, p)
  {
    forall p {:trigger Needed(log, p)}
      ensures Needed(log, p) && |p| > |Path(x)| ==> Needed(Without(log, x.0), p)
      ensures Needed(Without(log, x.0), p) ==> Needed(log, p)
    {
      WithoutNeeded(log, x, p);
    }
  }

  /** Only the dropped item's own ancestors can become unneeded. */
  lemma SameLengthNeeded(log: seq<Item>, x: Item, q: Parts)
    requires DistinctFilters(log) && x in log && q <= Path(x)
    ensures forall p :: Needed(log, p) && |p| == |q| && p != q ==> Needed(Without(log, x.0), p)
  {
    forall p | Needed(log, p) && |p| == |q| && p != q
      ensures Needed(Without(log, x.0), p)
    {
      WithoutNeeded(log, x, p);
    }
  }

  /** The registrations after adding `items` one by one. */
  function AddedMany(log: seq<Item>, items: seq<Item>): seq<Item>
    decreases |items|
  {
    if items == [] then log else AddedMany(Without(log, items[0].0) + [items[0]], items[1..])
  }

  lemma AddedManyStep(log: seq<Item>, items: seq<Item>, i: nat)
    requires i < |items|
    ensures AddedMany(log, items[i..]) == AddedMany(Without(log, items[i].0) + [(items[i].0, items[i].1)], items[i + 1..])
  {
    assert items[i..][1..] == items[i + 1..] && (items[i].0, items[i].1) == items[i];
  }

  lemma AddedManyDone(log: seq<Item>, items: seq<Item>)
    ensures AddedMany(log, items[|items|..]) == log
    ensures items[0..] == items
  {
  }

  lemma {:induction false} UnneededWalk(log: seq<Item>, p: Parts, t: Parts)
    ensures !Needed(log, p) ==> Walk(log, p, t) == []
    decreases |t|
  {
    if !Needed(log, p) {
      UnneededIsEmpty(log, p);
      HereOrBelowNeeded(log, p, "#");
      HereOrBelowNeeded(log, p, "+");
      UnneededIsEmpty(log, p + ["#"]);
      if t != [] {
        HereOrBelowNeeded(log, p, t[0]);
        UnneededWalk(log, p + [t[0]], t[1..]);
        UnneededWalk(log, p + ["+"], t[1..]);
      }
    }
  }

  /** The literal branch of the walk; wildcard levels are not looked up literally. */
  function WalkLiteral(log: seq<Item>, path: Parts, part: string, t: Parts): seq<Item> {
    if IsWild(part) then [] else Walk(log, path + [part], t)
  }

  lemma WalkUnfold(log: seq<Item>, path: Parts, parts: Parts, idx: nat, acc: seq<Item>)
    requires idx < |parts|
    ensures acc + Walk(log, path, parts[idx..]) ==
            acc + At(log, path + ["#"]) + WalkLiteral(log, path, parts[idx], parts[idx + 1..]) +
            Walk(log, path + ["+"], parts[idx + 1..])
  {
    assert parts[idx..][1..] == parts[idx + 1..];
    var h, l, p := At(log, path + ["#"]), WalkLiteral(log, path, parts[idx], parts[idx + 1..]), Walk(log, path + ["+"], parts[idx + 1..]);
    assert Walk(log, path, parts[idx..]) == h + (l + p);
    Reassociate(acc, h, l, p);
  }

  lemma Reassociate(a: seq<Item>, b: seq<Item>, c: seq<Item>, d: seq<Item>)
    ensures a + (b + (c + d)) == a + b + c + d
  {
  }

  lemma WalkAtEnd(log: seq<Item>, path: Parts, parts: Parts, acc: seq<Item>)
    ensures acc + Walk(log, path, parts[|parts|..]) == acc + At(log, path + ["#"]) + At(log, path)
  {
  }

  lemma StartOf(parts: Parts)
    ensures parts[0..] == parts
    ensures forall s: seq<Item> :: [] + s == s
  {
  }

  /** Registering a new filter and removing it again leaves every registration as it was. */
  lemma AddThenRemove(log: seq<Item>, f: string, entry: SubscriptionEntry)
    requires forall x :: x in log ==> x.0 != f
    ensures Without(Without(log, f) + [(f, entry)], f) == log
  {
    WhereAll(log, NotNamed(f));
    AppendOne(log, (f, entry), NotNamed(f));
  }

  lemma StartAtRoot(log: seq<Item>, domain: set<Parts>, parts: Parts)
    requires forall p :: p in domain <==> Needed(log, p)
    ensures parts[..0] == []
    ensures forall p :: p in domain <==> Needed(log, p) || p <= parts[..0]
  {
  }

  lemma TakeNext(parts: Parts, i: nat)
    requires i < |parts|
    ensures parts[..i] + [parts[i]] == parts[..i + 1]
  {
  }

  lemma TakeAll(parts: Parts, x: Item)
    requires Path(x) == [] + parts
    ensures parts[..|parts|] == parts && Path(x) == parts
  {
  }

  lemma UnneededIsEmpty(log: seq<Item>, p: Parts)
    ensures !Needed(log, p) ==> At(log, p) == []
  {
    HereOrBelowNeeded(log, p, "");
  }

  lemma NextDomain(log: seq<Item>, path: Parts, part: string, before: set<Parts>, after: set<Parts>)
    requires forall p :: p in before <==> Needed(log, p) || p <= path
    requires after == before + {path + [part]}
    ensures forall p :: p in after <==> Needed(log, p) || p <= path + [part]
  {
    hide Needed;
    forall p
      ensures p in after <==> Needed(log, p) || p <= path + [part]
    {
      ProperPrefix(p, path, part);
    }
  }

  lemma ProperPrefix(p: Parts, path: Parts, part: string)
    ensures p <= path + [part] <==> p <= path || p == path + [part]
  {
    if p <= path + [part] && p != path + [part] {
      assert p == (path + [part])[..|p|];
      assert p == path[..|p|];
    }
  }

  lemma NeededWithLast(log: seq<Item>, x: Item, parts: Parts)
    requires Path(x) == parts
    ensures forall p :: Needed(log + [x], p) <==> Needed(log, p) || p <= parts
  {
    forall p
      ensures Needed(log + [x], p) <==> Needed(log, p) || p <= parts
    {
      NeededAppend(log, x, p);
    }
  }

  lemma RootPath(x: Item, parts: Parts)
    requires parts == Split(ActualFilter(x))
    ensures Path(x) == [] + parts
  {
  }

  lemma RootNeeded(kept: seq<Item>, after: set<Parts>, before: set<Parts>, log: seq<Item>)
    requires forall p :: p in before <==> Needed(log, p)
    requires forall p :: Needed(kept, p) ==> Needed(log, p)
    requires forall p :: p in after <==> p in before && (|p| <= 0 || Needed(kept, p))
    ensures forall p :: p in after <==> Needed(kept, p)
  {
  }

  lemma PrunedDomain(log: seq<Item>, kept: seq<Item>, n: nat, q: Parts,
                     before: set<Parts>, between: set<Parts>, after: set<Parts>)
    requires |q| == n + 1
    requires forall p :: p in before <==> Needed(log, p)
    requires forall p :: p in between <==> p in before && (|p| <= n + 1 || Needed(kept, p))
    requires after == if Needed(kept, q) then between else between - {q}
    requires forall p :: Needed(log, p) && |p| == |q| && p != q ==> Needed(kept, p)
    requires forall p :: Needed(kept, p) ==> Needed(log, p)
    ensures forall p :: p in after <==> p in before && (|p| <= n || Needed(kept, p))
  {
    hide Needed;
  }

  lemma ChildNeeded(log: seq<Item>, x: Item, path: Parts, parts: Parts)
    requires x in log && parts != [] && Path(x) == path + parts
    ensures Needed(log, path + [parts[0]])
    ensures Path(x) == path + [parts[0]] + parts[1..]
  {
    var i :| 0 <= i < |log| && log[i] == x;
    assert path + [parts[0]] <= Path(log[i]);
  }
}