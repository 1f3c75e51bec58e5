/** Wildcard search: the greedy matcher, what it decides, and the coarse substring that is
    sent upstream in its place. */
module Glob {
  import opened Ordering
  import opened Text
  import opened QueryLog

  /** strings.Split(pattern, "*"). */
  function Split(pattern: string): (parts: seq<string>)
    ensures |parts| >= 1
  {
    if pattern == [] then [""]
    else
      var rest := Split(pattern[1..]);
      if pattern[0] == '*' then [""] + rest else [[pattern[0]] + rest[0]] + rest[1..]
  }

  // ---------------------------------------------------------------- the meaning

  /** p0 + x1 + p1 + ... + xn + pn. */
  function Filled(parts: seq<string>, fillers: seq<string>): (s: string)
    requires |parts| == |fillers| + 1
  {
    if fillers == [] then parts[0] else parts[0] + fillers[0] + Filled(parts[1..], fillers[1..])
  }

  ghost predicate Fits(parts: seq<string>, fillers: seq<string>, s: string)
  {
    |parts| == |fillers| + 1 && s == Filled(parts, fillers)
  }

  /** A value matches a pattern when some run of characters in the place of each star gives
      the value, both case-folded. */
  ghost predicate Matches(lower: char -> char, pattern: string, s: string)
  {
    exists fillers :: Fits(Split(Lower(lower, pattern)), fillers, Lower(lower, s))
  }

  /** The same meaning read off the pattern one character at a time. */
  ghost predicate Wild(pattern: string, s: string)
    decreases |pattern|
  {
    if pattern == [] then s == []
    else if pattern[0] == '*' then exists k: nat | k <= |s| :: Wild(pattern[1..], s[k..])
    else s != [] && s[0] == pattern[0] && Wild(pattern[1..], s[1..])
  }

  lemma {:induction false} FilledCons(c: char, parts: seq<string>, fillers: seq<string>)
    requires |parts| == |fillers| + 1
    ensures Filled([[c] + parts[0]] + parts[1..], fillers) == [c] + Filled(parts, fillers)
  {
    var longer := [[c] + parts[0]] + parts[1..];
    if fillers != [] {
      assert longer[1..] == parts[1..];
    }
  }

  lemma {:induction false} WildFills(pattern: string, s: string) returns (xs: seq<string>)
    requires Wild(pattern, s)
    ensures Fits(Split(pattern), xs, s)
    decreases |pattern|
  {
    if pattern == [] {
      xs := [];
    } else if pattern[0] == '*' {
      var k: nat :| k <= |s| && Wild(pattern[1..], s[k..]);
      var ys := WildFills(pattern[1..], s[k..]);
      xs := [s[..k]] + ys;
      assert xs[1..] == ys && Split(pattern)[1..] == Split(pattern[1..]);
    } else {
      xs := WildFills(pattern[1..], s[1..]);
      FilledCons(s[0], Split(pattern[1..]), xs);
    }
  }

  lemma {:induction false} FillsWild(pattern: string, s: string, xs: seq<string>)
    requires Fits(Split(pattern), xs, s)
    ensures Wild(pattern, s)
    decreases |pattern|
  {
    if pattern != [] {
      var rest := Split(pattern[1..]);
      if pattern[0] == '*' {
        var k := |xs[0]|;
        assert Split(pattern)[1..] == rest;
        assert s[k..] == Filled(rest, xs[1..]);
        FillsWild(pattern[1..], s[k..], xs[1..]);
      } else {
        FilledCons(pattern[0], rest, xs);
        assert s == [pattern[0]] + Filled(rest, xs);
        assert s[1..] == Filled(rest, xs);
        FillsWild(pattern[1..], s[1..], xs);
      }
    }
  }

  /** Both readings of a pattern agree, so `Matches` is the usual wildcard meaning. */
  lemma {:induction false} MatchesIsWild(lower: char -> char, pattern: string, s: string)
    ensures Matches(lower, pattern, s) <==> Wild(Lower(lower, pattern), Lower(lower, s))
  {
    var p, t := Lower(lower, pattern), Lower(lower, s);
    if Wild(p, t) {
      var xs := WildFills(p, t);
    }
    if xs :| Fits(Split(p), xs, t) {
      FillsWild(p, t, xs);
    }
  }

  // ---------------------------------------------------------------- the greedy search

  predicate At(part: string, s: string, k: int)
  {
    0 <= k <= |s| - |part| && s[k..k + |part|] == part
  }

  lemma {:induction false} AtTail(part: string, s: string, j: int)
    requires s != [] && j >= 1
    ensures At(part, s, j) <==> At(part, s[1..], j - 1)
  {
    if j + |part| <= |s| {
      var a, b := s[1..][j - 1..j - 1 + |part|], s[j..j + |part|];
      assert forall i | 0 <= i < |part| :: a[i] == s[j + i] == b[i];
      assert a == b;
    }
  }

  lemma {:induction false} AtHead(part: string, s: string)
    ensures At(part, s, 0) <==> part <= s
  {
  }

  /** strings.Index: the leftmost occurrence. */
  function Index(s: string, part: string): (k: int)
    ensures k >= 0 ==> At(part, s, k)
    ensures forall j | At(part, s, j) :: 0 <= k <= j
  {
    if part <= s then 0
    else if s == [] then -1
    else
      var k := Index(s[1..], part);
      assert forall j | At(part, s, j) :: j > 0 && At(part, s[1..], j - 1) by {
        AtHead(part, s);
        forall j | At(part, s, j) ensures j > 0 && At(part, s[1..], j - 1) {
          AtTail(part, s, if j > 0 then j else 1);
        }
      }
      if k < 0 then -1 else AtTail(part, s, k + 1); k + 1
  }

  /** The parts occur in `s` in order and without overlap. */
  ghost predicate InOrder(parts: seq<string>, s: string)
    decreases |parts|
  {
    parts == [] || exists k: nat | At(parts[0], s, k) :: InOrder(parts[1..], s[k + |parts[0]|..])
  }

  lemma {:induction false} InOrderWider(parts: seq<string>, s: string, j: nat)
    requires j <= |s| && InOrder(parts, s[j..])
    ensures InOrder(parts, s)
  {
    if parts != [] {
      var k: nat :| At(parts[0], s[j..], k) && InOrder(parts[1..], s[j..][k + |parts[0]|..]);
      assert s[j..][k + |parts[0]|..] == s[j + k + |parts[0]|..];
      assert s[j..][k..k + |parts[0]|] == s[j + k..j + k + |parts[0]|];
      assert At(parts[0], s, j + k);
    }
  }

  /** Taking the leftmost occurrence never loses a decomposition. */
  lemma {:induction false} LeftmostSuffices(parts: seq<string>, s: string)
    requires parts != []
    ensures var k := Index(s, parts[0]);
            InOrder(parts, s) <==> k >= 0 && InOrder(parts[1..], s[k + |parts[0]|..])
  {
    var n := |parts[0]|;
    var k := Index(s, parts[0]);
    if InOrder(parts, s) {
      var j: nat :| At(parts[0], s, j) && InOrder(parts[1..], s[j + n..]);
      assert s[k + n..][j - k..] == s[j + n..];
      InOrderWider(parts[1..], s[k + n..], j - k);
    }
  }

  /** The literal suffix can be stripped before the interior is searched. */
  ghost predicate Strips(mid: seq<string>, last: string, t: string)
  {
    |last| <= |t| && t[|t| - |last|..] == last && InOrder(mid, t[..|t| - |last|])
  }

  /** Past the first filler and the first interior part, the rest fits the rest. */
  lemma {:induction false} FitsTail(mid: seq<string>, last: string, t: string, xs: seq<string>)
    requires mid != [] && Fits([""] + mid + [last], xs, t)
    ensures var n := |xs[0]| + |mid[0]|;
            n <= |t| && t[|xs[0]|..n] == mid[0] && Fits([""] + mid[1..] + [last], xs[1..], t[n..])
  {
    var m, rest := mid[0], mid[1..];
    assert ([""] + mid + [last])[1..] == [m] + (rest + [last]);
    FilledPrefix(m, rest + [last], xs[1..]);
    assert [""] + (rest + [last]) == [""] + rest + [last];
    assert t == xs[0] + (m + Filled([""] + rest + [last], xs[1..]));
  }

  lemma {:induction false} StripsLonger(mid: seq<string>, last: string, t: string, k: nat)
    requires mid != [] && k + |mid[0]| <= |t| && t[k..k + |mid[0]|] == mid[0]
    requires Strips(mid[1..], last, t[k + |mid[0]|..])
    ensures Strips(mid, last, t)
  {
    var n, t' := k + |mid[0]|, t[k + |mid[0]|..];
    var u := t[..|t| - |last|];
    assert t[|t| - |last|..] == t'[|t'| - |last|..];
    assert t'[..|t'| - |last|] == u[n..];
    assert At(mid[0], u, k);
  }

  lemma {:induction false} FitsStrips(mid: seq<string>, last: string, t: string, xs: seq<string>)
    requires Fits([""] + mid + [last], xs, t)
    ensures Strips(mid, last, t)
    decreases |mid|
  {
    var parts := [""] + mid + [last];
    if mid == [] {
      assert parts == ["", last] && xs == [xs[0]];
      assert Filled(parts[1..], xs[1..]) == last;
    } else {
      var m, rest, k := mid[0], mid[1..], |xs[0]|;
      FitsTail(mid, last, t, xs);
      var t' := t[k + |m|..];
      FitsStrips(rest, last, t', xs[1..]);
      StripsLonger(mid, last, t, k);
    }
  }

  lemma {:induction false} StripsFits(mid: seq<string>, last: string, t: string) returns (xs: seq<string>)
    requires Strips(mid, last, t)
    ensures Fits([""] + mid + [last], xs, t)
    decreases |mid|
  {
    var parts := [""] + mid + [last];
    var u := t[..|t| - |last|];
    if mid == [] {
      xs := [u];
      assert parts[1..] == [last] && xs[1..] == [];
    } else {
      var m, rest := mid[0], mid[1..];
      var k: nat :| At(m, u, k) && InOrder(rest, u[k + |m|..]);
      var t' := t[k + |m|..];
      assert t'[..|t'| - |last|] == u[k + |m|..];
      var ys := StripsFits(rest, last, t');
      xs := [t[..k]] + ys;
      FitsLonger(m, rest, last, t[..k], t', ys);
      assert [""] + ([m] + rest) + [last] == parts && t == t[..k] + (m + t');
    }
  }

  lemma {:induction false} FitsLonger(m: string, rest: seq<string>, last: string, x: string, t: string, ys: seq<string>)
    requires Fits([""] + rest + [last], ys, t)
    ensures Fits([""] + ([m] + rest) + [last], [x] + ys, x + (m + t))
  {
    var parts, xs := [""] + ([m] + rest) + [last], [x] + ys;
    assert [""] + (rest + [last]) == [""] + rest + [last];
    FilledPrefix(m, rest + [last], ys);
    assert parts[1..] == [m] + (rest + [last]) && xs[1..] == ys;
  }

  lemma {:induction false} InteriorFits(mid: seq<string>, last: string, t: string)
    ensures (exists fillers :: Fits([""] + mid + [last], fillers, t)) <==> Strips(mid, last, t)
  {
    if xs :| Fits([""] + mid + [last], xs, t) {
      FitsStrips(mid, last, t, xs);
    }
    if Strips(mid, last, t) {
      var xs := StripsFits(mid, last, t);
    }
  }

  lemma {:induction false} FilledPrefix(m: string, parts: seq<string>, fillers: seq<string>)
    requires |parts| == |fillers|
    ensures Filled([m] + parts, fillers) == m + Filled([""] + parts, fillers)
  {
    if fillers != [] {
      assert ([m] + parts)[1..] == ([""] + parts)[1..] == parts;
    }
  }

  method MatchGlob(lower: char -> char, pattern0: string, s0: string) returns (b: bool)
    ensures b <==> Matches(lower, pattern0, s0)
  {
    var pattern := Lower(lower, pattern0);
    var s := Lower(lower, s0);
    var parts := Split(pattern);
    if |parts| == 1 {
      WholeFits(pattern, s);
      return pattern == s;  // nothing to fill in
    }

    // What precedes the first star and what follows the last one is anchored.
    var last := parts[|parts| - 1];
    var mid := parts[1..|parts| - 1];
    WildcardFits(parts, mid, last, s);
    if !(parts[0] <= s) {
      return false;
    }
    s := s[|parts[0]|..];
    if !(|last| <= |s| && s[|s| - |last|..] == last) {
      return false;
    }
    s := s[..|s| - |last|];

    b := SearchInterior(mid, s);
  }

  /** The search for the interior segments, one after the other in what remains. */
  method SearchInterior(mid: seq<string>, s0: string) returns (b: bool)
    ensures b <==> InOrder(mid, s0)
  {
    var s := s0;
    for i := 0 to |mid|
      invariant InOrder(mid, s0) <==> InOrder(mid[i..], s)
    {
      LeftmostSuffices(mid[i..], s);
      assert mid[i..][1..] == mid[i + 1..];
      var idx := Index(s, mid[i]);
      if idx < 0 {
        return false;
      }
      s := s[idx + |mid[i]|..];
    }
    return true;
  }

  lemma {:induction false} WholeFits(pattern: string, s: string)
    requires |Split(pattern)| == 1
    ensures (exists fillers :: Fits(Split(pattern), fillers, s)) <==> pattern == s
  {
    SplitWhole(pattern);
    assert Fits(Split(pattern), [], s) <==> s == pattern;
    if xs :| Fits(Split(pattern), xs, s) {
      assert xs == [];
    }
  }

  lemma {:induction false} SplitWhole(pattern: string)
    requires |Split(pattern)| == 1
    ensures Split(pattern) == [pattern]
  {
    if pattern != [] {
      assert pattern == [pattern[0]] + pattern[1..];
      SplitWhole(pattern[1..]);
    }
  }

  /** The literal prefix can be stripped first. */
  lemma {:induction false} PrefixFits(parts: seq<string>, mid: seq<string>, last: string, s: string)
    requires |parts| >= 2 && parts == [parts[0]] + mid + [last]
    ensures (exists fillers :: Fits(parts, fillers, s))
       <==> parts[0] <= s && exists fillers :: Fits([""] + mid + [last], fillers, s[|parts[0]|..])
  {
    var p := parts[0];
    assert parts == [p] + (mid + [last]) && [""] + mid + [last] == [""] + (mid + [last]);
    if xs :| Fits(parts, xs, s) {
      FilledPrefix(p, mid + [last], xs);
      assert Fits([""] + mid + [last], xs, s[|p|..]);
    }
    if p <= s && exists fillers :: Fits([""] + mid + [last], fillers, s[|p|..]) {
      var xs :| Fits([""] + mid + [last], xs, s[|p|..]);
      FilledPrefix(p, mid + [last], xs);
      assert s == p + s[|p|..];
      assert Fits(parts, xs, s);
    }
  }

  lemma {:induction false} WildcardFits(parts: seq<string>, mid: seq<string>, last: string, s: string)
    requires |parts| >= 2 && parts == [parts[0]] + mid + [last]
    ensures (exists fillers :: Fits(parts, fillers, s)) <==> parts[0] <= s && Strips(mid, last, s[|parts[0]|..])
  {
    PrefixFits(parts, mid, last, s);
    if parts[0] <= s {
      InteriorFits(mid, last, s[|parts[0]|..]);
    }
  }

  // ---------------------------------------------------------------- the coarse pre-filter

  function Longest(parts: seq<string>, best: string): (r: string)
    ensures r == best || r in parts
  {
    if parts == [] then best
    else Longest(parts[1..], if |parts[0]| > |best| then parts[0] else best)
  }

  /** The substring sent upstream for a pattern. */
  function SearchTerm(pattern: string): (r: string)
  {
    if '*' !in pattern then pattern else Longest(Split(pattern), "")
  }

  /** The first of the longest parts. */
  ghost predicate FirstLongest(r: string, parts: seq<string>)
  {
    exists k | 0 <= k < |parts| :: parts[k] == r && LongestAt(parts, k)
  }

  ghost predicate LongestAt(parts: seq<string>, k: nat)
    requires k < |parts|
  {
    && (forall i | 0 <= i < |parts| :: |parts[i]| <= |parts[k]|)
    && (forall i | 0 <= i < k :: |parts[i]| < |parts[k]|)
  }

  lemma {:induction false} LongestOf(parts: seq<string>, best: string)
    ensures var r := Longest(parts, best);
            && |best| <= |r|
            && (forall i | 0 <= i < |parts| :: |parts[i]| <= |r|)
            && (r == best || exists k | 0 <= k < |parts| :: parts[k] == r && |best| < |r| && LongestAt(parts, k))
  {
    if parts != [] {
      var p, rest := parts[0], parts[1..];
      var next := if |p| > |best| then p else best;
      var r := Longest(rest, next);
      LongestOf(rest, next);
      assert forall i | 1 <= i < |parts| :: parts[i] == rest[i - 1];
      if k :| 0 <= k < |rest| && rest[k] == r && |next| < |r| && LongestAt(rest, k) {
        assert parts[k + 1] == r && LongestAt(parts, k + 1);
      } else if next == p && r == p {
        assert LongestAt(parts, 0);
      }
    }
  }

  lemma {:induction false} LongestIsFirst(parts: seq<string>)
    requires parts != []
    ensures FirstLongest(Longest(parts, ""), parts)
  {
    LongestOf(parts, "");
    if Longest(parts, "") == "" {
      assert parts[0] == "" && LongestAt(parts, 0);
    }
  }

  method AdguardSearchTerm(pattern: string) returns (longest: string)
    ensures longest == SearchTerm(pattern)
    ensures '*' !in pattern ==> longest == pattern
    ensures '*' in pattern ==> FirstLongest(longest, Split(pattern))
  {
    LongestIsFirst(Split(pattern));
    if '*' !in pattern {
      return pattern;
    }
    longest := "";
    var parts := Split(pattern);
    for i := 0 to |parts|
      invariant Longest(parts[i..], longest) == Longest(parts, "")
    {
      assert parts[i..][0] == parts[i] && parts[i..][1..] == parts[i + 1..];
      if |parts[i]| > |longest| {
        longest := parts[i];
      }
    }
  }

  /** Case folding neither makes nor removes a star. */
  ghost predicate StarStable(lower: char -> char)
  {
    forall c :: lower(c) == '*' <==> c == '*'
  }

  function LowerAll(lower: char -> char, parts: seq<string>): (r: seq<string>)
    ensures |r| == |parts| && forall i | 0 <= i < |parts| :: r[i] == Lower(lower, parts[i])
  {
    seq(|parts|, i requires 0 <= i < |parts| => Lower(lower, parts[i]))
  }

  lemma {:induction false} SplitLower(lower: char -> char, pattern: string)
    requires StarStable(lower)
    ensures Split(Lower(lower, pattern)) == LowerAll(lower, Split(pattern))
  {
    if pattern != [] {
      var low := Lower(lower, pattern);
      assert low[1..] == Lower(lower, pattern[1..]);
      SplitLower(lower, pattern[1..]);
      var rest := Split(pattern[1..]);
      assert pattern[0] != '*' ==> Lower(lower, [pattern[0]] + rest[0]) == [low[0]] + Lower(lower, rest[0]);
    }
  }

  lemma {:induction false} NoStarWhole(pattern: string)
    requires '*' !in pattern
    ensures Split(pattern) == [pattern]
  {
    if pattern != [] {
      assert pattern == [pattern[0]] + pattern[1..];
      NoStarWhole(pattern[1..]);
    }
  }

  lemma {:induction false} PartContained(parts: seq<string>, fillers: seq<string>, i: nat)
    requires |parts| == |fillers| + 1 && i < |parts|
    ensures Contains(Filled(parts, fillers), parts[i])
  {
    var s := Filled(parts, fillers);
    if i == 0 {
      ContainsAt(s, parts[0], 0);
    } else {
      var n := |parts[0] + fillers[0]|;
      var t := Filled(parts[1..], fillers[1..]);
      PartContained(parts[1..], fillers[1..], i - 1);
      var k := ContainedWhere(t, parts[i]);
      assert s[n + k..] == t[k..];
      ContainsAt(s, parts[i], n + k);
    }
  }

  /** The pre-filter never drops a match: whatever matches contains the folded term. */
  lemma {:induction false} PrefilterSound(lower: char -> char, pattern: string, s: string)
    requires StarStable(lower) && Matches(lower, pattern, s)
    ensures Contains(Lower(lower, s), Lower(lower, SearchTerm(pattern)))
  {
    var term := SearchTerm(pattern);
    var parts := Split(pattern);
    SplitLower(lower, pattern);
    var fillers :| Fits(Split(Lower(lower, pattern)), fillers, Lower(lower, s));
    if '*' !in pattern {
      NoStarWhole(pattern);
    }
    if term in parts {
      var i :| 0 <= i < |parts| && parts[i] == term;
      PartContained(Split(Lower(lower, pattern)), fillers, i);
    }
  }

  // ---------------------------------------------------------------- filtering a page

  ghost predicate MatchesSearch(rt: Runtime, search: string, it: Item)
  {
    || search == ""
    || Matches(rt.lower, search, it.domain)
    || Matches(rt.lower, search, it.client)
    || (it.clientInfo.Some? && Matches(rt.lower, search, it.clientInfo.value))
  }

  ghost function Shows(rt: Runtime, search: string): Item -> bool
  {
    (it: Item) => MatchesSearch(rt, search, it)
  }

  method ComputeMatchesSearch(rt: Runtime, search: string, it: Item) returns (b: bool)
    ensures b <==> MatchesSearch(rt, search, it)
    ensures b <==> search == "" || Matches(rt.lower, search, it.domain) || Matches(rt.lower, search, it.client)
                   || (it.clientInfo.Some? && Matches(rt.lower, search, it.clientInfo.value))
  {
    if search == "" {
      return true;
    }
    b := MatchGlob(rt.lower, search, it.domain);
    if !b {
      b := MatchGlob(rt.lower, search, it.client);
    }
    if !b && it.clientInfo.Some? {
      b := MatchGlob(rt.lower, search, it.clientInfo.value);
    }
  }

  method FilterEntries(rt: Runtime, search: string, entries: seq<Item>) returns (out: seq<Item>)
    ensures out == Keep(entries, Shows(rt, search))
  {
    if search == "" {
      KeepAll(entries, Shows(rt, search));
      return entries;
    }
    out := [];
    for i := 0 to |entries|
      invariant out + Keep(entries[i..], Shows(rt, search)) == Keep(entries, Shows(rt, search))
    {
      KeepStep(out, entries, i, Shows(rt, search));
      var b := ComputeMatchesSearch(rt, search, entries[i]);
      if b {
        out := out + [entries[i]];
      }
    }
  }

  /** The entries of a log a search is asking for. */
  ghost function Wanted(rt: Runtime, search: string, status: string): Entry -> bool
  {
    (e: Entry) =>
      && (status == "blocked" || status == "filtered" ==> e.blocked)
      && (status == "rewritten" ==> e.rewrite)
      && (status == "processed" ==> !e.blocked)
      && (search == ""
          || Matches(rt.lower, search, e.domain)
          || Matches(rt.lower, search, e.client)
          || (e.clientName != "" && Matches(rt.lower, search, e.clientName)))
  }

  lemma {:induction false} WantedPasses(rt: Runtime, search: string, status: string, e: Entry)
    requires StarStable(rt.lower) && Wanted(rt, search, status)(e)
    ensures Passing(rt, SearchTerm(search), status)(e)
  {
    StatusSpelled(e, status);
    if search != "" {
      if Matches(rt.lower, search, e.domain) {
        PrefilterSound(rt.lower, search, e.domain);
      } else if Matches(rt.lower, search, e.client) {
        PrefilterSound(rt.lower, search, e.client);
      } else {
        PrefilterSound(rt.lower, search, e.clientName);
      }
    }
  }

  /** Filtering upstream by substring and then here by pattern shows exactly the wanted
      entries: the two filters together lose nothing and add nothing. */
  lemma {:induction false} StreamShows(rt: Runtime, name: string, log: seq<Entry>, search: string, status: string)
    requires StarStable(rt.lower)
    ensures Keep(Stream(rt, name, log, SearchTerm(search), status), Shows(rt, search))
         == EnrichAll(rt, name, Keep(log, Wanted(rt, search, status)))
  {
    if log != [] {
      var e := log[0];
      var p, w := Passing(rt, SearchTerm(search), status), Wanted(rt, search, status);
      StreamShows(rt, name, log[1..], search, status);
      if w(e) {
        WantedPasses(rt, search, status, e);
      }
      StatusSpelled(e, status);
      assert p(e) ==> MatchesStatus(e, status);
      EnrichCons(rt, name, e, Keep(log[1..], p));
      EnrichCons(rt, name, e, Keep(log[1..], w));
    }
  }
}
