/** Topic filters: splitting, validation, decorator stripping, matching, specificity. */
module Topics {
  import opened Util

  type Parts = seq<string>

  /** `s.split("/")`. */
  function Split(s: string): (parts: Parts)
    ensures |parts| >= 1
  {
    if s == [] then [""]
    else
      var rest := Split(s[1..]);
      if s[0] == '/' then [""] + rest else [[s[0]] + rest[0]] + rest[1..]
  }

  function Join(parts: Parts): string
    requires parts != []
  {
    if |parts| == 1 then parts[0] else parts[0] + "/" + Join(parts[1..])
  }

  /** Splitting loses nothing. */
  lemma {:induction false} JoinSplit(s: string)
    ensures Join(Split(s)) == s
  {
    if s != [] {
      JoinSplit(s[1..]);
      var rest := Split(s[1..]);
      if s[0] == '/' {
        assert Split(s)[1..] == rest;
      } else {
        assert Split(s)[1..] == rest[1..];
        assert [s[0]] + Join(rest) == s;
      }
    }
  }

  lemma {:induction false} FirstLevelNoSlash(s: string)
    ensures '/' !in Split(s)[0]
  {
    if s != [] {
      FirstLevelNoSlash(s[1..]);
    }
  }

  lemma {:induction false} LevelsNoSlash(s: string)
    ensures forall i :: 0 <= i < |Split(s)| ==> '/' !in Split(s)[i]
  {
    if s != [] {
      LevelsNoSlash(s[1..]);
      assert forall i :: 1 <= i < |Split(s)| ==> Split(s)[i] == Split(s[1..])[if s[0] == '/' then i - 1 else i];
    }
  }

  /** Splitting at any `/` splits the levels there. */
  lemma {:induction false} SplitAt(s: string, k: nat)
    requires k < |s| && s[k] == '/'
    ensures Split(s) == Split(s[..k]) + Split(s[k + 1..])
  {
    if k > 0 {
      SplitAt(s[1..], k - 1);
      var head, tail := s[..k], Split(s[k + 1..]);
      assert s[1..][..k - 1] == head[1..] && s[1..][k..] == s[k + 1..] && head[0] == s[0];
      var rest := Split(head[1..]);
      SplitCons(rest, tail, s[0]);
    }
  }

  lemma SplitCons(rest: Parts, tail: Parts, c: char)
    requires rest != []
    ensures [""] + (rest + tail) == ([""] + rest) + tail
    ensures [[c] + (rest + tail)[0]] + (rest + tail)[1..] == ([[c] + rest[0]] + rest[1..]) + tail
  {
  }

  datatype TopicError = EmptyTopic | DollarInside | HashNotLast | HashNotAlone | PlusNotAlone

  /** Position of the first `c`, or the length when there is none. */
  function IndexOf(s: string, c: char): (i: nat)
    ensures i <= |s|
    ensures i < |s| ==> s[i] == c
    ensures forall j :: 0 <= j < i ==> s[j] != c
  {
    if s == [] || s[0] == c then 0 else 1 + IndexOf(s[1..], c)
  }

  function ValidateSubscribe(topic: string): Result<(), TopicError> {
    if topic == "" then Err(EmptyTopic)
    else if '$' in topic[1..] then Err(DollarInside)
    else if '#' in topic && IndexOf(topic, '#') != |topic| - 1 then Err(HashNotLast)
    else if '#' in topic && IndexOf(topic, '#') > 0 && topic[IndexOf(topic, '#') - 1] != '/' then Err(HashNotAlone)
    else if exists i :: 0 <= i < |Split(topic)| && '+' in Split(topic)[i] && Split(topic)[i] != "+" then Err(PlusNotAlone)
    else Ok(())
  }

  /** Section 4.7.1 of MQTT 5.0, level by level. */
  predicate WellFormed(parts: Parts) {
    forall i :: 0 <= i < |parts| ==>
      ('#' in parts[i] ==> parts[i] == "#" && i == |parts| - 1) && ('+' in parts[i] ==> parts[i] == "+")
  }

  lemma {:induction false} SplitContains(s: string, c: char)
    requires c != '/'
    ensures c in s <==> exists i :: 0 <= i < |Split(s)| && c in Split(s)[i]
  {
    if s != [] {
      SplitContains(s[1..], c);
      var rest := Split(s[1..]);
      assert s == [s[0]] + s[1..];
      if s[0] == '/' {
        assert forall i :: 0 <= i < |rest| ==> Split(s)[i + 1] == rest[i];
      } else {
        assert forall i :: 1 <= i < |rest| ==> Split(s)[i] == rest[i];
        if c in s {
          if c == s[0] {
            assert c in Split(s)[0];
          } else {
            var i :| 0 <= i < |rest| && c in rest[i];
            assert c in Split(s)[i];
          }
        }
      }
    }
  }

  /** `#` occurs only as the whole of the last level. */
  predicate HashLevels(parts: Parts)
    requires parts != []
  {
    if |parts| == 1 then '#' in parts[0] ==> parts[0] == "#"
    else '#' !in parts[0] && HashLevels(parts[1..])
  }

  predicate HashPosition(s: string) {
    '#' in s ==> IndexOf(s, '#') == |s| - 1 && (|s| >= 2 ==> s[|s| - 2] == '/')
  }

  /** The character-position checks on `#` say exactly that it fills the last level. */
  lemma {:induction false} HashPositionIsLevelwise(s: string)
    ensures HashLevels(Split(s)) <==> HashPosition(s)
  {
    if s != [] {
      var rest := Split(s[1..]);
      HashPositionIsLevelwise(s[1..]);
      SplitContains(s[1..], '#');
      assert s == [s[0]] + s[1..];
      if s[0] == '/' {
        assert Split(s)[1..] == rest;
      } else {
        assert Split(s)[1..] == rest[1..] && Split(s)[0] == [s[0]] + rest[0];
        FirstLevelHash(s);
      }
    }
  }

  lemma FirstLevelHash(s: string)
    requires s != [] && s[0] != '/'
    requires HashLevels(Split(s[1..])) <==> HashPosition(s[1..])
    ensures HashLevels(Split(s)) <==> HashPosition(s)
  {
    var rest := Split(s[1..]);
    var f := rest[0];
    JoinSplit(s[1..]);
    FirstLevelNoSlash(s[1..]);
    assert f <= s[1..] && (|rest| == 1 ==> f == s[1..]) && (|rest| > 1 ==> |f| < |s| - 1 && s[1..][|f|] == '/');
    assert Split(s)[1..] == rest[1..] && Split(s)[0] == [s[0]] + f;
    if s[0] == '#' {
      assert HashLevels(Split(s)) <==> |s| == 1;
    } else if '#' in f {
      HashInsideLevel(s, f);
      assert '#' in Split(s)[0];
    } else {
      assert HashLevels(Split(s)) <==> HashLevels(rest);
      HashAfterLevel(s, f);
    }
  }

  lemma HashInsideLevel(s: string, f: string)
    requires s != [] && s[0] != '/' && s[0] != '#' && '/' !in f && '#' in f
    requires f <= s[1..]
    ensures !HashPosition(s)
  {
    var i :| 0 <= i < |f| && f[i] == '#';
    assert s[i + 1] == '#';
    var k := IndexOf(s, '#');
    assert 1 <= k <= i + 1;
    assert s[k - 1] != '/' by {
      if k >= 2 { assert s[k - 1] == f[k - 2]; }
    }
  }

  lemma HashAfterLevel(s: string, f: string)
    requires s != [] && s[0] != '#' && '#' !in f
    requires f == s[1..] || (f <= s[1..] && |f| < |s| - 1 && s[1..][|f|] == '/')
    ensures HashPosition(s) <==> HashPosition(s[1..])
  {
    assert s == [s[0]] + s[1..];
    var u := s[1..];
    var k := IndexOf(u, '#');
    if '#' in s {
      assert '#' in u && u[k] == '#';
      assert k > |f|;
    }
  }

  lemma {:induction false} HashLevelsIndexed(parts: Parts)
    requires parts != []
    ensures HashLevels(parts) <==> forall i :: 0 <= i < |parts| && '#' in parts[i] ==> parts[i] == "#" && i == |parts| - 1
  {
    if |parts| > 1 {
      HashLevelsIndexed(parts[1..]);
      assert forall i :: 0 <= i < |parts| - 1 ==> parts[1..][i] == parts[i + 1];
      assert forall i :: 1 <= i < |parts| ==> parts[i] == parts[1..][i - 1];
    }
  }

  /** `validate_subscribe_topic` accepts exactly the level-wise grammar (with the `$` rule). */
  lemma ValidateSubscribeExact(s: string)
    ensures ValidateSubscribe(s).Ok? <==> s != "" && '$' !in s[1..] && WellFormed(Split(s))
  {
    HashPositionIsLevelwise(s);
    HashLevelsIndexed(Split(s));
  }

  /** `filter_.split("/", 1)[1]` for a filter that has a `/`. */
  function AfterFirstSlash(s: string): string
    requires '/' in s
  {
    s[IndexOf(s, '/') + 1..]
  }

  /** The filter the broker matches PUBLISH topics against. */
  function SharedFilterToActual(f: string, strippedPrefixes: seq<string>): (actual: string) {
    if "$share/" <= f && '/' in f[7..] then AfterFirstSlash(f[7..])
    else StripPrefix(f, strippedPrefixes)
  }

  function StripPrefix(f: string, prefixes: seq<string>): string {
    if prefixes == [] then f
    else if prefixes[0] + "/" <= f then
      assert f[|prefixes[0]|] == (prefixes[0] + "/")[|prefixes[0]|];
      AfterFirstSlash(f)
    else StripPrefix(f, prefixes[1..])
  }

  lemma FirstSlash(head: string, tail: string)
    requires '/' !in head
    ensures IndexOf(head + "/" + tail, '/') == |head| && AfterFirstSlash(head + "/" + tail) == tail
  {
    var s := head + "/" + tail;
    assert s[|head|] == '/' && forall i :: 0 <= i < |head| ==> s[i] == head[i];
  }

  /** A shared subscription is matched against what follows its group. */
  lemma ShareStripped(group: string, rest: string, strippedPrefixes: seq<string>)
    requires '/' !in group
    ensures SharedFilterToActual("$share/" + group + "/" + rest, strippedPrefixes) == rest
  {
    var f := "$share/" + group + "/" + rest;
    assert f[7..] == group + "/" + rest && f[7..][|group|] == '/';
    FirstSlash(group, rest);
  }

  lemma ShareIndex(f: string)
    ensures "$share/" <= f ==> IndexOf(f, '/') == 6 && f[..6] == "$share"
  {
    if "$share/" <= f {
      assert forall i :: 0 <= i < 7 ==> f[i] == "$share/"[i];
      assert f[0] == '$' && f[1] == 's' && f[2] == 'h' && f[3] == 'a' && f[4] == 'r' && f[5] == 'e' && f[6] == '/';
      assert f[..6] == "$share";
    }
  }

  /** A filter behind one of the stripped prefixes is matched without it. */
  lemma {:induction false} DecoratorStripped(prefix: string, rest: string, strippedPrefixes: seq<string>)
    requires prefix in strippedPrefixes && '/' !in prefix && prefix != "$share"
    ensures SharedFilterToActual(prefix + "/" + rest, strippedPrefixes) == rest
  {
    var f := prefix + "/" + rest;
    FirstSlash(prefix, rest);
    assert f[..|prefix|] == prefix;
    ShareIndex(f);
    StripFirst(prefix, rest, strippedPrefixes);
  }

  lemma {:induction false} StripFirst(prefix: string, rest: string, prefixes: seq<string>)
    requires prefix in prefixes && '/' !in prefix
    ensures StripPrefix(prefix + "/" + rest, prefixes) == rest
  {
    FirstSlash(prefix, rest);
    assert prefix + "/" <= prefix + "/" + rest;
    if !(prefixes[0] + "/" <= prefix + "/" + rest) {
      StripFirst(prefix, rest, prefixes[1..]);
    }
  }

  /** Any other filter is matched as it is; so is a shared subscription that has no filter behind its group. */
  lemma {:induction false} PlainUnchanged(f: string, strippedPrefixes: seq<string>)
    requires "$share/" <= f ==> '/' !in f[7..]
    requires forall prefix :: prefix in strippedPrefixes ==> !(prefix + "/" <= f)
    ensures SharedFilterToActual(f, strippedPrefixes) == f
  {
    if strippedPrefixes != [] {
      assert strippedPrefixes[0] in strippedPrefixes;
      PlainStripped(f, strippedPrefixes);
    }
  }

  lemma {:induction false} PlainStripped(f: string, prefixes: seq<string>)
    requires forall prefix :: prefix in prefixes ==> !(prefix + "/" <= f)
    ensures StripPrefix(f, prefixes) == f
  {
    if prefixes != [] {
      assert prefixes[0] in prefixes;
      PlainStripped(f, prefixes[1..]);
    }
  }

  /** `tail` starts just after some `/` of `f`, or is `f` itself. */
  ghost predicate LevelSuffix(tail: string, f: string) {
    tail == f || exists head: string :: f == head + "/" + tail
  }

  lemma {:induction false} StripPrefixIsSuffix(f: string, prefixes: seq<string>)
    ensures LevelSuffix(StripPrefix(f, prefixes), f)
  {
    if prefixes != [] {
      if prefixes[0] + "/" <= f {
        assert f[|prefixes[0]|] == (prefixes[0] + "/")[|prefixes[0]|];
        assert f == f[..IndexOf(f, '/')] + "/" + AfterFirstSlash(f);
      } else {
        StripPrefixIsSuffix(f, prefixes[1..]);
      }
    }
  }

  lemma ActualIsSuffix(f: string, strippedPrefixes: seq<string>)
    ensures LevelSuffix(SharedFilterToActual(f, strippedPrefixes), f)
  {
    if "$share/" <= f && '/' in f[7..] {
      var k := IndexOf(f[7..], '/');
      assert f == f[..7 + k] + "/" + AfterFirstSlash(f[7..]);
    } else {
      StripPrefixIsSuffix(f, strippedPrefixes);
    }
  }

  lemma SuffixWellFormed(tail: string, f: string)
    requires WellFormed(Split(f)) && LevelSuffix(tail, f)
    ensures WellFormed(Split(tail))
  {
    if tail != f {
      var head :| f == head + "/" + tail;
      assert f[|head|] == '/' && f[..|head|] == head && f[|head| + 1..] == tail;
      SplitAt(f, |head|);
      var n := |Split(head)|;
      assert forall i :: 0 <= i < |Split(tail)| ==> Split(tail)[i] == Split(f)[n + i];
    }
  }

  /** Stripping any decorator from an accepted filter leaves an accepted shape: the trie can rely on `#` being last. */
  lemma StrippedFilterWellFormed(f: string, strippedPrefixes: seq<string>)
    requires ValidateSubscribe(f).Ok?
    ensures WellFormed(Split(SharedFilterToActual(f, strippedPrefixes)))
  {
    ValidateSubscribeExact(f);
    ActualIsSuffix(f, strippedPrefixes);
    SuffixWellFormed(SharedFilterToActual(f, strippedPrefixes), f);
  }

  // Matching.

  predicate StartsWithDollar(s: string) { s != [] && s[0] == '$' }

  predicate TopicMatches(actualFilter: string, topic: string) {
    StartsWithDollar(topic) == StartsWithDollar(actualFilter) && MatchParts(Split(actualFilter), Split(topic))
  }

  predicate MatchParts(f: Parts, t: Parts) {
    if f == [] then t == []
    else if f[0] == "#" then true
    else if t == [] then false
    else if f[0] != "+" && f[0] != t[0] then false
    else MatchParts(f[1..], t[1..])
  }

  /** What walking the trie finds: like MatchParts, but a `#` counts only as the last level. */
  predicate WalkMatches(f: Parts, t: Parts) {
    if f == [] then t == []
    else if f[0] == "#" then |f| == 1
    else if t == [] then false
    else if f[0] != "+" && f[0] != t[0] then false
    else WalkMatches(f[1..], t[1..])
  }

  ghost predicate HashLast(f: Parts) {
    forall i :: 0 <= i < |f| - 1 ==> f[i] != "#"
  }

  /** A level that stands for itself. */
  predicate Literal(level: string) { level != "+" && level != "#" }

  predicate LevelFits(f: Parts, t: Parts, i: nat)
    requires i < |f| && i < |t|
  {
    f[i] == "+" || f[i] == t[i]
  }

  /** Section 4.7 of MQTT 5.0 read level by level: a last `#` stands for its parent and everything below. */
  ghost predicate Fits(f: Parts, t: Parts)
    requires f != []
  {
    var fixed := if f[|f| - 1] == "#" then |f| - 1 else |f|;
    && (if fixed < |f| then fixed <= |t| else |t| == |f|)
    && forall i :: 0 <= i < fixed && i < |t| ==> LevelFits(f, t, i)
  }

  lemma {:induction false} MatchPartsExactly(f: Parts, t: Parts)
    requires f != [] && HashLast(f)
    ensures MatchParts(f, t) <==> Fits(f, t)
  {
    if |f| == 1 {
      if f[0] != "#" {
        assert MatchParts(f, t) <==> |t| == 1 && (f[0] == "+" || f[0] == t[0]);
        assert |t| == 1 ==> LevelFits(f, t, 0) == (f[0] == "+" || f[0] == t[0]);
      }
    } else if t != [] {
      assert f[0] != "#";
      assert forall i :: 0 <= i < |f| - 2 ==> f[1..][i] == f[i + 1];
      MatchPartsExactly(f[1..], t[1..]);
      assert LevelFits(f, t, 0) == (f[0] == "+" || f[0] == t[0]);
      FitsShift(f, t);
    }
  }

  lemma FitsShift(f: Parts, t: Parts)
    requires |f| > 1 && t != []
    ensures Fits(f, t) <==> LevelFits(f, t, 0) && Fits(f[1..], t[1..])
  {
    var fixed := if f[|f| - 1] == "#" then |f| - 1 else |f|;
    assert forall i :: 1 <= i < fixed && i < |t| ==> LevelFits(f, t, i) == LevelFits(f[1..], t[1..], i - 1);
    assert forall i :: 0 <= i < fixed - 1 && i < |t| - 1 ==> LevelFits(f[1..], t[1..], i) == LevelFits(f, t, i + 1);
  }

  /** A filter whose `#` is last matches a topic if and only if the levels fit and both or neither begin with `$`. */
  lemma TopicMatchesExactly(f: string, topic: string)
    requires HashLast(Split(f))
    ensures TopicMatches(f, topic) <==> ("$" <= topic <==> "$" <= f) && Fits(Split(f), Split(topic))
  {
    MatchPartsExactly(Split(f), Split(topic));
  }

  lemma {:induction false} WalkHashLast(f: Parts, t: Parts)
    requires WalkMatches(f, t)
    ensures HashLast(f)
  {
    if f != [] && f[0] != "#" {
      WalkHashLast(f[1..], t[1..]);
      assert forall i :: 1 <= i < |f| - 1 ==> f[i] == f[1..][i - 1];
    }
  }

  lemma {:induction false} MatchesItself(f: Parts)
    requires forall i :: 0 <= i < |f| ==> Literal(f[i])
    ensures MatchParts(f, f) && WalkMatches(f, f)
  {
    if f != [] {
      assert Literal(f[0]) && forall i :: 0 <= i < |f| - 1 ==> f[1..][i] == f[i + 1];
      MatchesItself(f[1..]);
    }
  }

  lemma WellFormedHashLast(f: Parts)
    requires WellFormed(f)
    ensures HashLast(f)
  {
    forall i | 0 <= i < |f| - 1
      ensures f[i] != "#"
    {
      assert '#' in "#";
    }
  }

  lemma {:induction false} WalkImpliesMatch(f: Parts, t: Parts)
    ensures WalkMatches(f, t) ==> MatchParts(f, t)
    ensures HashLast(f) ==> (WalkMatches(f, t) <==> MatchParts(f, t))
  {
    if f != [] && f[0] != "#" && t != [] {
      WalkImpliesMatch(f[1..], t[1..]);
      assert HashLast(f) ==> HashLast(f[1..]) by {
        assert forall i :: 0 <= i < |f| - 2 ==> f[1..][i] == f[i + 1];
      }
    }
  }

  /** The trie walk agrees with `_match_parts` on every topic exactly for filters whose `#` is last. */
  lemma WalkAgreesExactly(f: Parts)
    ensures (forall t: Parts :: WalkMatches(f, t) <==> MatchParts(f, t)) <==> HashLast(f)
  {
    forall t: Parts {
      WalkImpliesMatch(f, t);
    }
    if !HashLast(f) {
      EarlyHashDisagrees(f);
    }
  }

  lemma {:induction false} EarlyHashDisagrees(f: Parts)
    requires !HashLast(f)
    ensures exists t: Parts :: MatchParts(f, t) && !WalkMatches(f, t)
  {
    if f[0] == "#" {
      assert MatchParts(f, []) && !WalkMatches(f, []);
    } else {
      var i :| 0 <= i < |f| - 1 && f[i] == "#";
      assert f[1..][i - 1] == "#";
      EarlyHashDisagrees(f[1..]);
      var t :| MatchParts(f[1..], t) && !WalkMatches(f[1..], t);
      assert ([f[0]] + t)[1..] == t;
      assert MatchParts(f, [f[0]] + t) && !WalkMatches(f, [f[0]] + t);
    }
  }

  // Specificity.

  function SegmentRank(seg: string): int {
    if seg == "#" then 2 else if seg == "+" then 1 else 0
  }

  function Ranks(parts: Parts): (r: seq<int>)
    ensures |r| == |parts|
  {
    seq(|parts|, i requires 0 <= i < |parts| => SegmentRank(parts[i]))
  }

  function Specificity(f: string): seq<int> { Ranks(Split(f)) }

  lemma {:induction false} SameRanksSameParts(f: Parts, g: Parts, t: Parts)
    requires WalkMatches(f, t) && WalkMatches(g, t) && Ranks(f) == Ranks(g)
    ensures f == g
  {
    assert |f| == |Ranks(f)| == |Ranks(g)| == |g|;
    if f != [] {
      assert Ranks(f)[0] == Ranks(g)[0];
      if f[0] != "#" {
        assert forall i :: 0 <= i < |f| - 1 ==> Ranks(f[1..])[i] == Ranks(f)[i + 1] && Ranks(g[1..])[i] == Ranks(g)[i + 1];
        assert Ranks(f[1..]) == Ranks(g[1..]);
        SameRanksSameParts(f[1..], g[1..], t[1..]);
        assert f == [f[0]] + f[1..] && g == [g[0]] + g[1..];
      }
    }
  }

  /** Where the two first differ, `p` ends at the parent of a last `#`, is literal and `q` is not, or is `+` against `#`. */
  ghost predicate Tighter(p: Parts, q: Parts) {
    exists k :: 0 <= k < |q| && k <= |p| && TighterAt(p, q, k)
  }

  predicate TighterAt(p: Parts, q: Parts, k: nat)
    requires k < |q| && k <= |p|
  {
    && p[..k] == q[..k]
    && if k == |p| then q[k..] == ["#"]
       else (Literal(p[k]) && !Literal(q[k])) || (p[k] == "+" && q[k] == "#")
  }

  lemma TighterShift(p: Parts, q: Parts)
    requires p != [] && q != [] && p[0] == q[0]
    ensures Tighter(p, q) <==> Tighter(p[1..], q[1..])
  {
    if k :| 0 <= k < |q| && k <= |p| && TighterAt(p, q, k) {
      assert k > 0;
      assert p[1..][..k - 1] == p[..k][1..] && q[1..][..k - 1] == q[..k][1..];
      assert TighterAt(p[1..], q[1..], k - 1);
    }
    if k :| 0 <= k < |q[1..]| && k <= |p[1..]| && TighterAt(p[1..], q[1..], k) {
      assert p[..k + 1] == [p[0]] + p[1..][..k] && q[..k + 1] == [q[0]] + q[1..][..k];
      assert TighterAt(p, q, k + 1);
    }
  }

  /** Of two filters that match one topic, the tighter one is the one that sorts first. */
  lemma {:induction false} SortsFirstExactly(p: Parts, q: Parts, t: Parts)
    requires WalkMatches(p, t) && WalkMatches(q, t)
    ensures LexLess(Ranks(p), Ranks(q)) <==> Tighter(p, q)
    decreases |p|
  {
    if q != [] && p == [] {
      assert TighterAt(p, q, 0);
    } else if q != [] {
      RanksRest(p);
      RanksRest(q);
      if p[0] == "#" {
        assert q[0] != "#" ==> p[..1] != q[..1] by { assert p[..1] == [p[0]] && q[..1] == [q[0]]; }
        NotTighter(p, q);
      } else if q[0] == "#" {
        assert TighterAt(p, q, 0);
      } else if p[0] == q[0] {
        SortsFirstExactly(p[1..], q[1..], t[1..]);
        TighterShift(p, q);
      } else {
        assert TighterAt(p, q, 0) <==> q[0] == "+";
        NotTighter(p, q);
      }
    }
  }

  lemma RanksRest(p: Parts)
    requires p != []
    ensures Ranks(p) != [] && Ranks(p)[0] == SegmentRank(p[0]) && Ranks(p)[1..] == Ranks(p[1..])
  {
  }

  lemma NotTighter(p: Parts, q: Parts)
    requires p != [] && q != [] && (p[0] != q[0] || |q| == 1)
    ensures Tighter(p, q) <==> TighterAt(p, q, 0)
  {
    forall k | 0 < k < |q| && k <= |p|
      ensures !TighterAt(p, q, k)
    {
      assert p[..k][0] == p[0] && q[..k][0] == q[0];
    }
  }

  /** Two filters of equal specificity that match one topic are the same filter. */
  lemma SameSpecificitySameFilter(f: string, g: string, topic: string)
    requires HashLast(Split(f)) && HashLast(Split(g))
    requires TopicMatches(f, topic) && TopicMatches(g, topic)
    requires Specificity(f) == Specificity(g)
    ensures f == g
  {
    WalkImpliesMatch(Split(f), Split(topic));
    WalkImpliesMatch(Split(g), Split(topic));
    SameRanksSameParts(Split(f), Split(g), Split(topic));
    JoinSplit(f);
    JoinSplit(g);
  }
}
