/** Merging one page across instances: concatenate, stable-sort, cut and count, against
    the reference of repeatedly taking the best head among the instances' streams. */
module Merge {
  import opened Ordering
  import opened QueryLog
  import opened Text

  datatype TaggedEntries = TaggedEntries(instance: string, entries: seq<Item>)

  function From(name: string): Item -> bool
  {
    (it: Item) => it.instance == name
  }

  function CountOf(s: seq<Item>, name: string): (c: nat)
  {
    |Keep(s, From(name))|
  }

  function Concat(groups: seq<TaggedEntries>): (r: seq<Item>)
  {
    if groups == [] then [] else groups[0].entries + Concat(groups[1..])
  }

  lemma {:induction false} ConcatAppend(a: seq<TaggedEntries>, b: seq<TaggedEntries>)
    ensures Concat(a + b) == Concat(a) + Concat(b)
  {
    if a == [] {
      assert a + b == b;
    } else {
      assert (a + b)[1..] == a[1..] + b;
      ConcatAppend(a[1..], b);
    }
  }

  function CountFor(consumed: map<string, nat>, name: string): (c: nat)
  {
    if name in consumed then consumed[name] else 0
  }

  // ---------------------------------------------------------------- streams by name

  ghost predicate Distinct(names: seq<string>)
  {
    forall i, j | 0 <= i < j < |names| :: names[i] != names[j]
  }

  predicate Covers(names: seq<string>, m: map<string, seq<Item>>)
  {
    forall n | n in names :: n in m
  }

  /** Distinct instances, each entry tagged with the instance it came from. */
  ghost predicate Tagged(names: seq<string>, m: map<string, seq<Item>>)
  {
    Distinct(names) && Covers(names, m) && forall n | n in names :: forall it | it in m[n] :: it.instance == n
  }

  /** ... and each stream already in merge order. */
  ghost predicate Mergeable(names: seq<string>, m: map<string, seq<Item>>)
  {
    Tagged(names, m) && forall n | n in names :: Sorted(m[n], Before)
  }

  /** The streams one after the other. */
  function Flatten(names: seq<string>, m: map<string, seq<Item>>): (r: seq<Item>)
    requires Covers(names, m)
  {
    if names == [] then [] else m[names[0]] + Flatten(names[1..], m)
  }

  lemma {:induction false} FlattenAppend(a: seq<string>, b: seq<string>, m: map<string, seq<Item>>)
    requires Covers(a, m) && Covers(b, m)
    ensures Flatten(a + b, m) == Flatten(a, m) + Flatten(b, m)
  {
    if a == [] {
      assert a + b == b;
    } else {
      assert (a + b)[1..] == a[1..] + b;
      FlattenAppend(a[1..], b, m);
    }
  }

  lemma {:induction false} FlattenFrom(names: seq<string>, m: map<string, seq<Item>>, k: string)
    requires Tagged(names, m)
    ensures Keep(Flatten(names, m), From(k)) == if k in names then m[k] else []
  {
    if names != [] {
      var n := names[0];
      FlattenFrom(names[1..], m, k);
      KeepAppend(m[n], Flatten(names[1..], m), From(k));
      if k == n {
        KeepAll(m[n], From(k));
      } else {
        KeepNone(m[n], From(k));
      }
    }
  }

  lemma {:induction false} FlattenSame(names: seq<string>, m: map<string, seq<Item>>, m': map<string, seq<Item>>)
    requires Covers(names, m) && Covers(names, m')
    requires forall n | n in names :: m[n] == m'[n]
    ensures Flatten(names, m) == Flatten(names, m')
  {
    if names != [] {
      FlattenSame(names[1..], m, m');
    }
  }

  lemma {:induction false} FlattenNil(names: seq<string>, m: map<string, seq<Item>>)
    requires Covers(names, m)
    ensures Flatten(names, m) == [] <==> forall n | n in names :: m[n] == []
  {
    if names != [] {
      FlattenNil(names[1..], m);
      assert names == [names[0]] + names[1..];
    }
  }

  // ---------------------------------------------------------------- shares of a page

  predicate InstancesIn(page: seq<Item>, names: seq<string>)
  {
    forall it | it in page :: it.instance in names
  }

  function NotFrom(name: string): Item -> bool
  {
    (it: Item) => it.instance != name
  }

  lemma {:induction false} ShareAndRest(page: seq<Item>, n: string)
    ensures CountOf(page, n) + |Keep(page, NotFrom(n))| == |page|
  {
    if page != [] {
      ShareAndRest(page[1..], n);
    }
  }

  lemma {:induction false} OtherShare(page: seq<Item>, n: string, k: string)
    requires n != k
    ensures CountOf(Keep(page, NotFrom(n)), k) == CountOf(page, k)
  {
    KeepNarrow(page, NotFrom(n), From(k));
  }

  lemma {:induction false} HasMember(page: seq<Item>)
    ensures page == [] || exists it :: it in page
  {
    if page != [] {
      assert page[0] in page;
    }
  }

  /** The instances' shares of a page make up the page. */
  lemma {:induction false} SharesAddUp(names: seq<string>, shares: map<string, seq<Item>>, page: seq<Item>)
    requires Distinct(names) && InstancesIn(page, names) && Covers(names, shares)
    requires forall n | n in names :: |shares[n]| == CountOf(page, n)
    ensures |Flatten(names, shares)| == |page|
  {
    if names == [] {
      HasMember(page);
    } else {
      var rest := Keep(page, NotFrom(names[0]));
      ShareAndRest(page, names[0]);
      forall n | n in names[1..] ensures |shares[n]| == CountOf(rest, n) {
        OtherShare(page, names[0], n);
      }
      SharesAddUp(names[1..], shares, rest);
    }
  }

  function SumFor(consumed: map<string, nat>, names: seq<string>): (c: nat)
  {
    if names == [] then 0 else CountFor(consumed, names[0]) + SumFor(consumed, names[1..])
  }

  /** The counts of consumed entries add up to the page. */
  lemma {:induction false} ConsumedAddsUp(names: seq<string>, consumed: map<string, nat>, page: seq<Item>)
    requires Distinct(names) && InstancesIn(page, names)
    requires forall n | n in names :: CountFor(consumed, n) == CountOf(page, n)
    ensures SumFor(consumed, names) == |page|
  {
    if names == [] {
      HasMember(page);
    } else {
      var rest := Keep(page, NotFrom(names[0]));
      ShareAndRest(page, names[0]);
      forall n | n in names[1..] ensures CountFor(consumed, n) == CountOf(rest, n) {
        OtherShare(page, names[0], n);
      }
      ConsumedAddsUp(names[1..], consumed, rest);
    }
  }

  lemma {:induction false} KeptBeforeCut(s: seq<Item>, k: nat, x: Item, y: Item)
    requires Sorted(s, Before) && k <= |s| && x in s[..k] && y in s && y !in s[..k]
    ensures !Before(y, x)
  {
    var i :| 0 <= i < k && s[..k][i] == x;
    var j :| 0 <= j < |s| && s[j] == y;
    assert forall t | 0 <= t < k :: s[t] == s[..k][t] && s[..k][t] in s[..k];
    assert s[i] == x && k <= j;
  }

  /** A page may show `x` and leave out `y`: `x` is the newer, or no later by instance name at
      the same instant, or no later by raw text if the instance is the same too. */
  predicate NotAfter(x: Item, y: Item)
  {
    && x.parsedTime >= y.parsedTime
    && (x.parsedTime == y.parsedTime ==> !Less(y.instance, x.instance))
    && (x.parsedTime == y.parsedTime && x.instance == y.instance ==> !Less(y.rawTime, x.rawTime))
  }

  lemma {:induction false} PageInOrder(all: seq<Item>, pageSize: nat, page: seq<Item>)
    requires page == Take(SortStable(all, Before), pageSize)
    ensures |page| == if |all| < pageSize then |all| else pageSize
    ensures Sorted(page, Before)
    ensures forall x | x in page :: x in all
    ensures forall x, y | x in page && y in all && y !in page :: NotAfter(x, y)
  {
    var s := SortStable(all, Before);
    BeforeOrder();
    SortedByClass(all, Before);
    assert page == s[..|page|];
    TakeSorted(s, pageSize);
    forall x, y | x in page && y in all && y !in page ensures NotAfter(x, y) {
      KeptBeforeCut(s, |page|, x, y);
      NotBefore(x, y);
    }
  }

  lemma {:induction false} ConcatMember(groups: seq<TaggedEntries>, y: Item)
    ensures y in Concat(groups) <==> exists g | g in groups :: y in g.entries
  {
    if groups != [] {
      ConcatMember(groups[1..], y);
      assert groups == [groups[0]] + groups[1..];
    }
  }

  lemma {:induction false} PageOfGroups(groups: seq<TaggedEntries>, all: seq<Item>, page: seq<Item>)
    requires all == Concat(groups) && (forall x | x in page :: x in all)
    requires forall x, y | x in page && y in all && y !in page :: NotAfter(x, y)
    ensures forall x | x in page :: exists g | g in groups :: x in g.entries
    ensures forall g, x, y | g in groups && y in g.entries && y !in page && x in page :: NotAfter(x, y)
  {
    forall y: Item ensures y in all <==> exists g | g in groups :: y in g.entries {
      ConcatMember(groups, y);
    }
  }

  /** How many of a page's entries each instance has on it. */
  method CountConsumed(page: seq<Item>) returns (consumed: map<string, nat>)
    ensures forall n :: CountFor(consumed, n) == CountOf(page, n)
  {
    consumed := map[];
    for i := 0 to |page|
      invariant forall n :: CountFor(consumed, n) == CountOf(page[..i], n)
    {
      var name := page[i].instance;
      assert page[..i + 1] == page[..i] + [page[i]];
      forall n ensures CountOf(page[..i + 1], n) == CountOf(page[..i], n) + if n == name then 1 else 0 {
        KeepAppend(page[..i], [page[i]], From(n));
      }
      ghost var before := consumed;
      consumed := consumed[name := CountFor(consumed, name) + 1];
      forall n ensures CountFor(consumed, n) == CountOf(page[..i + 1], n) {
        assert CountFor(before, n) == CountOf(page[..i], n);
      }
    }
    assert page[..|page|] == page;
  }

  lemma {:induction false} ConsumedAlwaysAddsUp(consumed: map<string, nat>, page: seq<Item>)
    requires forall n :: CountFor(consumed, n) == CountOf(page, n)
    ensures forall names | Distinct(names) && InstancesIn(page, names) :: SumFor(consumed, names) == |page|
  {
    forall names | Distinct(names) && InstancesIn(page, names) ensures SumFor(consumed, names) == |page| {
      ConsumedAddsUp(names, consumed, page);
    }
  }

  /** Concatenate, sort, trim. */
  method SortAndTrim(groups: seq<TaggedEntries>, pageSize: nat) returns (page: seq<Item>)
    ensures page == Take(SortStable(Concat(groups), Before), pageSize)
  {
    var combined: seq<Item> := [];
    for i := 0 to |groups|
      invariant combined == Concat(groups[..i])
    {
      assert groups[..i + 1] == groups[..i] + [groups[i]];
      ConcatAppend(groups[..i], [groups[i]]);
      combined := combined + groups[i].entries;
    }
    assert groups[..|groups|] == groups;
    combined := SortStable(combined, Before);
    if |combined| > pageSize {
      combined := combined[..pageSize];
    }
    page := combined;
  }

  /** A page in the groups' own terms: its size, where its entries come from, their order, and
      that no entry left out comes before one on it. */
  lemma {:induction false} PageSpelled(groups: seq<TaggedEntries>, pageSize: nat, page: seq<Item>)
    requires page == Take(SortStable(Concat(groups), Before), pageSize)
    ensures |page| == (if |Concat(groups)| < pageSize then |Concat(groups)| else pageSize)
    ensures forall x | x in page :: exists g | g in groups :: x in g.entries
    ensures forall i, j | 0 <= i < j < |page| ::
              && page[i].parsedTime >= page[j].parsedTime
              && (page[i].parsedTime == page[j].parsedTime ==> !Less(page[j].instance, page[i].instance))
              && (page[i].parsedTime == page[j].parsedTime && page[i].instance == page[j].instance ==>
                    !Less(page[j].rawTime, page[i].rawTime))
    ensures forall g, x, y | g in groups && y in g.entries && y !in page && x in page :: NotAfter(x, y)
  {
    var all := Concat(groups);
    PageInOrder(all, pageSize, page);
    SortedSpelled(page);
    PageOfGroups(groups, all, page);
  }

  method MergeDescending(groups: seq<TaggedEntries>, pageSize: nat)
    returns (page: seq<Item>, consumed: map<string, nat>)
    ensures page == Take(SortStable(Concat(groups), Before), pageSize)
    ensures forall n :: CountFor(consumed, n) == CountOf(page, n)
    ensures forall names | Distinct(names) && InstancesIn(page, names) :: SumFor(consumed, names) == |page|
    ensures |page| == (if |Concat(groups)| < pageSize then |Concat(groups)| else pageSize)
    ensures forall x | x in page :: exists g | g in groups :: x in g.entries
    ensures forall i, j | 0 <= i < j < |page| ::
              && page[i].parsedTime >= page[j].parsedTime
              && (page[i].parsedTime == page[j].parsedTime ==> !Less(page[j].instance, page[i].instance))
              && (page[i].parsedTime == page[j].parsedTime && page[i].instance == page[j].instance ==>
                    !Less(page[j].rawTime, page[i].rawTime))
    ensures forall g, x, y | g in groups && y in g.entries && y !in page && x in page :: NotAfter(x, y)
  {
    page := SortAndTrim(groups, pageSize);
    consumed := CountConsumed(page);
    ConsumedAlwaysAddsUp(consumed, page);
    PageSpelled(groups, pageSize, page);
  }

  /** Sorting sees only which streams there are, not the order they are listed in. */
  lemma {:induction false} SortedFlattenUnordered(names: seq<string>, names': seq<string>, m: map<string, seq<Item>>)
    requires Tagged(names, m) && Tagged(names', m)
    requires forall n :: n in names <==> n in names'
    ensures SortStable(Flatten(names, m), Before) == SortStable(Flatten(names', m), Before)
  {
    var s, s' := Flatten(names, m), Flatten(names', m);
    BeforeOrder();
    SortedByClass(s', Before);
    forall x ensures Keep(SortStable(s', Before), Ties(x, Before)) == Keep(s, Ties(x, Before)) {
      assert Keep(SortStable(s', Before), Ties(x, Before)) == Keep(s', Ties(x, Before));
      ClassFrom(s, x);
      ClassFrom(s', x);
      FlattenFrom(names, m, x.instance);
      FlattenFrom(names', m, x.instance);
    }
    StableSortUnique(s, SortStable(s', Before), Before);
  }

  /** A tie class lies within one instance. */
  lemma {:induction false} ClassFrom(s: seq<Item>, x: Item)
    ensures Keep(s, Ties(x, Before)) == Keep(Keep(s, From(x.instance)), Ties(x, Before))
  {
    forall y | y in s && Ties(x, Before)(y) ensures From(x.instance)(y) {
      TiesShareInstance(x, y);
    }
    KeepNarrow(s, From(x.instance), Ties(x, Before));
  }

  // ---------------------------------------------------------------- taking the best head

  /** The instance whose newest remaining entry comes first. */
  function Best(names: seq<string>, m: map<string, seq<Item>>): (r: Option<string>)
    requires Covers(names, m)
    ensures r.None? ==> forall n | n in names :: m[n] == []
    ensures r.Some? ==> r.value in names && m[r.value] != []
  {
    if names == [] then None
    else
      var n, b := names[0], Best(names[1..], m);
      if m[n] == [] || (b.Some? && Before(m[b.value][0], m[n][0])) then b else Some(n)
  }

  lemma {:induction false} BestIsBest(names: seq<string>, m: map<string, seq<Item>>, n: string)
    requires Covers(names, m) && n in names && m[n] != []
    ensures Best(names, m).Some? && !Before(m[n][0], m[Best(names, m).value][0])
  {
    BeforeOrder();
    var b := Best(names[1..], m);
    if n in names[1..] {
      BestIsBest(names[1..], m, n);
    }
  }

  function DropHead(m: map<string, seq<Item>>, b: string): (r: map<string, seq<Item>>)
    requires b in m && m[b] != []
  {
    m[b := m[b][1..]]
  }

  /** Take the best head, at most `n` times. */
  function HeadMerge(names: seq<string>, m: map<string, seq<Item>>, n: nat): (r: seq<Item>)
    requires Covers(names, m)
  {
    var b := Best(names, m);
    if n == 0 || b.None? then [] else [m[b.value][0]] + HeadMerge(names, DropHead(m, b.value), n - 1)
  }

  /** The streams that leaves. */
  function Rest(names: seq<string>, m: map<string, seq<Item>>, n: nat): (r: map<string, seq<Item>>)
    requires Covers(names, m)
    ensures Covers(names, r)
  {
    var b := Best(names, m);
    if n == 0 || b.None? then m else Rest(names, DropHead(m, b.value), n - 1)
  }

  lemma {:induction false} DropHeadMergeable(names: seq<string>, m: map<string, seq<Item>>, b: string)
    requires Tagged(names, m) && b in m && m[b] != []
    ensures Tagged(names, DropHead(m, b))
    ensures Mergeable(names, m) ==> Mergeable(names, DropHead(m, b))
  {
    var m' := DropHead(m, b);
    forall n: string, it: Item | n in names && it in m'[n] ensures it.instance == n {
      assert it in m[n];
    }
  }

  lemma {:induction false} TakenStep(m: map<string, seq<Item>>, b: string, k: string, tail: seq<Item>, rest: seq<Item>)
    requires b in m && m[b] != [] && m[b][0].instance == b && k in m
    requires Keep(tail, From(k)) + rest == DropHead(m, b)[k]
    ensures Keep([m[b][0]] + tail, From(k)) + rest == m[k]
  {
    var h := m[b][0];
    assert ([h] + tail)[1..] == tail;
    if b == k {
      assert [h] + Keep(tail, From(k)) + rest == [h] + (Keep(tail, From(k)) + rest);
      assert m[k] == [h] + m[k][1..];
    }
  }

  /** Of every instance a prefix is taken: what is taken and what is left make up the stream. */
  lemma {:induction false} TakenIsPrefix(names: seq<string>, m: map<string, seq<Item>>, n: nat, k: string)
    requires Tagged(names, m) && k in names
    ensures Keep(HeadMerge(names, m, n), From(k)) + Rest(names, m, n)[k] == m[k]
    decreases n
  {
    var b := Best(names, m);
    if n > 0 && b.Some? {
      var m' := DropHead(m, b.value);
      DropHeadMergeable(names, m, b.value);
      TakenIsPrefix(names, m', n - 1, k);
      assert m[b.value][0] in m[b.value];
      TakenStep(m, b.value, k, HeadMerge(names, m', n - 1), Rest(names, m', n - 1)[k]);
      assert HeadMerge(names, m, n) == [m[b.value][0]] + HeadMerge(names, m', n - 1);
      assert Rest(names, m, n)[k] == Rest(names, m', n - 1)[k];
    } else {
      assert [] + m[k] == m[k];
    }
  }

  lemma {:induction false} FlattenDrop(names: seq<string>, m: map<string, seq<Item>>, b: string)
    requires Distinct(names) && Covers(names, m) && b in names && m[b] != []
    ensures |Flatten(names, DropHead(m, b))| == |Flatten(names, m)| - 1
  {
    if names[0] == b {
      FlattenSame(names[1..], m, DropHead(m, b));
    } else {
      FlattenDrop(names[1..], m, b);
    }
  }

  lemma {:induction false} HeadMergeLength(names: seq<string>, m: map<string, seq<Item>>, n: nat)
    requires Distinct(names) && Covers(names, m)
    ensures |HeadMerge(names, m, n)| == if n <= |Flatten(names, m)| then n else |Flatten(names, m)|
    ensures |Flatten(names, Rest(names, m, n))| == |Flatten(names, m)| - |HeadMerge(names, m, n)|
    decreases n
  {
    var b := Best(names, m);
    FlattenNil(names, m);
    if n > 0 && b.Some? {
      FlattenDrop(names, m, b.value);
      HeadMergeLength(names, DropHead(m, b.value), n - 1);
    }
  }

  /** Taking a + b heads leaves what taking a and then b leaves. */
  lemma {:induction false} OneHead(names: seq<string>, m: map<string, seq<Item>>, n: nat, b: string)
    requires Covers(names, m) && n > 0 && Best(names, m) == Some(b)
    ensures HeadMerge(names, m, n) == [m[b][0]] + HeadMerge(names, DropHead(m, b), n - 1)
    ensures Rest(names, m, n) == Rest(names, DropHead(m, b), n - 1)
  {
  }

  lemma {:induction false} NoHead(names: seq<string>, m: map<string, seq<Item>>, n: nat)
    requires Covers(names, m) && (n == 0 || Best(names, m).None?)
    ensures HeadMerge(names, m, n) == [] && Rest(names, m, n) == m
  {
  }

  lemma {:induction false} RestSplit(names: seq<string>, m: map<string, seq<Item>>, a: nat, b: nat)
    requires Covers(names, m)
    ensures Rest(names, m, a + b) == Rest(names, Rest(names, m, a), b)
    decreases a
  {
    var best := Best(names, m);
    if a == 0 || best.None? {
      NoHead(names, m, a);
      if best.None? {
        NoHead(names, m, b);
        NoHead(names, m, a + b);
      }
    } else {
      RestSplit(names, DropHead(m, best.value), a - 1, b);
      OneHead(names, m, a, best.value);
      OneHead(names, m, a + b, best.value);
    }
  }

  lemma {:induction false} HeadJoined(h: Item, all: seq<Item>, first: seq<Item>, last: seq<Item>, tail: seq<Item>)
    requires all == [h] + (tail + last) && first == [h] + tail
    ensures all == first + last
  {
  }

  /** Taking a + b heads is taking a and then b of what is left. */
  lemma {:induction false} HeadMergeSplit(names: seq<string>, m: map<string, seq<Item>>, a: nat, b: nat)
    requires Covers(names, m)
    ensures HeadMerge(names, m, a + b) == HeadMerge(names, m, a) + HeadMerge(names, Rest(names, m, a), b)
    decreases a
  {
    var best := Best(names, m);
    if a == 0 || best.None? {
      NoHead(names, m, a);
      if best.None? {
        NoHead(names, m, b);
        NoHead(names, m, a + b);
      }
    } else {
      var m' := DropHead(m, best.value);
      HeadMergeSplit(names, m', a - 1, b);
      OneHead(names, m, a, best.value);
      OneHead(names, m, a + b, best.value);
      HeadJoined(m[best.value][0], HeadMerge(names, m, a + b), HeadMerge(names, m, a), HeadMerge(names, Rest(names, m, a), b),
                 HeadMerge(names, m', a - 1));
    }
  }

  lemma {:induction false} BestAgrees(names: seq<string>, m: map<string, seq<Item>>, m': map<string, seq<Item>>)
    requires Covers(names, m) && Covers(names, m')
    requires forall k | k in names :: Take(m[k], 1) == Take(m'[k], 1)
    ensures Best(names, m) == Best(names, m')
  {
    if names != [] {
      BestAgrees(names[1..], m, m');
      forall k | k in names && m[k] != [] ensures m'[k] != [] && m[k][0] == m'[k][0] {
        assert Take(m[k], 1)[0] == m[k][0];
      }
      forall k | k in names && m[k] == [] ensures m'[k] == [] {
        assert |Take(m'[k], 1)| == 0;
      }
    }
  }

  lemma {:induction false} TakeLess(s: seq<Item>, t: seq<Item>, n: nat, k: nat)
    requires Take(s, n) == Take(t, n) && k <= n
    ensures Take(s, k) == Take(t, k)
  {
    assert Take(s, k) == Take(Take(s, n), k) && Take(t, k) == Take(Take(t, n), k);
  }

  lemma {:induction false} DropAgrees(m: map<string, seq<Item>>, m': map<string, seq<Item>>, b: string, n: nat, k: string)
    requires n > 0 && b in m && b in m' && m[b] != [] && m'[b] != [] && k in m && k in m'
    requires Take(m[k], n) == Take(m'[k], n)
    ensures Take(DropHead(m, b)[k], n - 1) == Take(DropHead(m', b)[k], n - 1)
  {
    if k == b {
      assert Take(m[k][1..], n - 1) == Take(m[k], n)[1..] && Take(m'[k][1..], n - 1) == Take(m'[k], n)[1..];
    } else {
      TakeLess(m[k], m'[k], n, n - 1);
    }
  }

  lemma {:induction false} FirstsAgree(names: seq<string>, m: map<string, seq<Item>>, m': map<string, seq<Item>>, n: nat)
    requires Covers(names, m) && Covers(names, m') && n > 0
    requires forall k | k in names :: Take(m[k], n) == Take(m'[k], n)
    ensures var b := Best(names, m);
            b == Best(names, m') && (b.Some? ==> m[b.value][0] == m'[b.value][0])
  {
    forall k | k in names ensures Take(m[k], 1) == Take(m'[k], 1) {
      TakeLess(m[k], m'[k], n, 1);
    }
    BestAgrees(names, m, m');
    var b := Best(names, m);
    if b.Some? {
      HeadsEqual(m[b.value], m'[b.value]);
    }
  }

  lemma {:induction false} RestsAgree(names: seq<string>, m: map<string, seq<Item>>, m': map<string, seq<Item>>, b: string, n: nat)
    requires Covers(names, m) && Covers(names, m') && n > 0 && b in names && m[b] != [] && m'[b] != []
    requires forall k | k in names :: Take(m[k], n) == Take(m'[k], n)
    ensures forall k | k in names :: Take(DropHead(m, b)[k], n - 1) == Take(DropHead(m', b)[k], n - 1)
  {
    forall k | k in names ensures Take(DropHead(m, b)[k], n - 1) == Take(DropHead(m', b)[k], n - 1) {
      DropAgrees(m, m', b, n, k);
    }
  }

  /** `n` heads depend on no more than the first `n` entries of each stream. */
  lemma {:induction false} HeadMergeAgrees(
      names: seq<string>, m: map<string, seq<Item>>, m': map<string, seq<Item>>, n: nat)
    requires Covers(names, m) && Covers(names, m')
    requires forall k | k in names :: Take(m[k], n) == Take(m'[k], n)
    ensures HeadMerge(names, m, n) == HeadMerge(names, m', n)
    decreases n
  {
    if n > 0 {
      FirstsAgree(names, m, m', n);
      var b := Best(names, m);
      if b.Some? {
        RestsAgree(names, m, m', b.value, n);
        HeadMergeAgrees(names, DropHead(m, b.value), DropHead(m', b.value), n - 1);
      }
    }
  }

  lemma {:induction false} HeadsEqual(s: seq<Item>, t: seq<Item>)
    requires s != [] && t != [] && Take(s, 1) == Take(t, 1)
    ensures s[0] == t[0]
  {
    assert Take(s, 1)[0] == s[0] && Take(t, 1)[0] == t[0];
  }

  lemma {:induction false} HeadMergeMembers(names: seq<string>, m: map<string, seq<Item>>, n: nat, y: Item)
    requires Tagged(names, m) && y in HeadMerge(names, m, n)
    ensures y.instance in names && y in m[y.instance]
    decreases n
  {
    var b := Best(names, m);
    var m' := DropHead(m, b.value);
    if y != m[b.value][0] {
      assert y in HeadMerge(names, m', n - 1);
      HeadMergeMembers(names, m', n - 1, y);
    }
  }

  lemma {:induction false} BestBeatsAll(names: seq<string>, m: map<string, seq<Item>>, y: Item)
    requires Mergeable(names, m) && y.instance in names && y in m[y.instance]
    ensures Best(names, m).Some? && !Before(y, m[Best(names, m).value][0])
  {
    var s := m[y.instance];
    BestIsBest(names, m, y.instance);
    var h := m[Best(names, m).value][0];
    var j :| 0 <= j < |s| && s[j] == y;
    assert j == 0 || !Before(s[j], s[0]);
    if Before(y, h) {
      BeforeNegTransitive(y, s[0], h);
    }
  }

  lemma {:induction false} HeadMergeSorted(names: seq<string>, m: map<string, seq<Item>>, n: nat)
    requires Mergeable(names, m)
    ensures Sorted(HeadMerge(names, m, n), Before)
    decreases n
  {
    var b := Best(names, m);
    if n > 0 && b.Some? {
      var h, m' := m[b.value][0], DropHead(m, b.value);
      DropHeadMergeable(names, m, b.value);
      HeadMergeSorted(names, m', n - 1);
      forall y | y in HeadMerge(names, m', n - 1) ensures !Before(y, h) {
        HeadMergeMembers(names, m', n - 1, y);
        BestBeatsAll(names, m, y);
      }
    }
  }

  lemma {:induction false} HeadMergeTakes(names: seq<string>, m: map<string, seq<Item>>, n: nat, n': nat)
    requires Covers(names, m) && n <= n'
    ensures HeadMerge(names, m, n) == Take(HeadMerge(names, m, n'), n)
  {
    HeadMergeSplit(names, m, n, n' - n);
    if |HeadMerge(names, m, n)| < n {
      HeadMergeShort(names, m, n);
    } else {
      HeadMergeBound(names, m, n);
    }
  }

  lemma {:induction false} HeadMergeBound(names: seq<string>, m: map<string, seq<Item>>, n: nat)
    requires Covers(names, m)
    ensures |HeadMerge(names, m, n)| <= n
    decreases n
  {
    var b := Best(names, m);
    if n > 0 && b.Some? {
      HeadMergeBound(names, DropHead(m, b.value), n - 1);
    }
  }

  lemma {:induction false} HeadMergeShort(names: seq<string>, m: map<string, seq<Item>>, n: nat)
    requires Covers(names, m) && |HeadMerge(names, m, n)| < n
    ensures Best(names, Rest(names, m, n)).None?
    decreases n
  {
    var b := Best(names, m);
    if b.Some? {
      HeadMergeShort(names, DropHead(m, b.value), n - 1);
    }
  }

  lemma {:induction false} AllTaken(names: seq<string>, m: map<string, seq<Item>>, k: string)
    requires Tagged(names, m)
    ensures Keep(HeadMerge(names, m, |Flatten(names, m)|), From(k)) == if k in names then m[k] else []
  {
    var n := |Flatten(names, m)|;
    var r := HeadMerge(names, m, n);
    if k in names {
      HeadMergeLength(names, m, n);
      FlattenNil(names, Rest(names, m, n));
      TakenIsPrefix(names, m, n, k);
    } else {
      forall y | y in r ensures !From(k)(y) {
        HeadMergeMembers(names, m, n, y);
      }
      KeepNone(r, From(k));
    }
  }

  /** Sort-and-cut is taking the best head, page-size times. */
  lemma {:induction false} SortRefinesHeadMerge(names: seq<string>, m: map<string, seq<Item>>, n: nat)
    requires Mergeable(names, m)
    ensures Take(SortStable(Flatten(names, m), Before), n) == HeadMerge(names, m, n)
  {
    var s := Flatten(names, m);
    var r := HeadMerge(names, m, |s|);
    BeforeOrder();
    HeadMergeSorted(names, m, |s|);
    HeadMergeLength(names, m, |s|);
    forall x: Item ensures Keep(r, Ties(x, Before)) == Keep(s, Ties(x, Before)) {
      ClassFrom(r, x);
      ClassFrom(s, x);
      FlattenFrom(names, m, x.instance);
      AllTaken(names, m, x.instance);
    }
    StableSortUnique(s, r, Before);
    if n <= |s| {
      HeadMergeTakes(names, m, n, |s|);
    } else {
      HeadMergeLength(names, m, n);
      HeadMergeTakes(names, m, |s|, n);
    }
  }

  function Cut(m: map<string, seq<Item>>, n: nat): (r: map<string, seq<Item>>)
  {
    map k | k in m :: Take(m[k], n)
  }

  lemma {:induction false} TakeSorted(s: seq<Item>, n: nat)
    requires Sorted(s, Before)
    ensures Sorted(Take(s, n), Before)
  {
  }

  /** Asking each instance for one page is enough: the first page of the merged streams is
      the first page of the merged first pages, and takes from each instance a prefix. */
  lemma {:induction false} LimitPushdown(names: seq<string>, m: map<string, seq<Item>>, n: nat)
    requires Mergeable(names, m)
    ensures Take(SortStable(Flatten(names, Cut(m, n)), Before), n) == Take(SortStable(Flatten(names, m), Before), n)
    ensures forall k | k in names :: Keep(Take(SortStable(Flatten(names, m), Before), n), From(k)) <= Take(m[k], n)
  {
    var c := Cut(m, n);
    forall k | k in names ensures Sorted(c[k], Before) && Take(c[k], n) == Take(m[k], n) {
      TakeSorted(m[k], n);
    }
    SortRefinesHeadMerge(names, m, n);
    SortRefinesHeadMerge(names, c, n);
    HeadMergeAgrees(names, c, m, n);
    forall k | k in names ensures Keep(HeadMerge(names, m, n), From(k)) <= Take(m[k], n) {
      TakenIsPrefix(names, c, n, k);
    }
  }

  /** Exactly when are the entries taken from an instance the first ones it returned,
      whatever the page size? When its answer already is in merge order. */
  lemma {:induction false} ConsumedIsPrefixIff(names: seq<string>, m: map<string, seq<Item>>)
    requires Tagged(names, m)
    ensures (forall n: nat, k | k in names :: Keep(Take(SortStable(Flatten(names, m), Before), n), From(k)) <= m[k])
       <==> (forall k | k in names :: Sorted(m[k], Before))
  {
    if forall k | k in names :: Sorted(m[k], Before) {
      forall n: nat, k | k in names ensures Keep(Take(SortStable(Flatten(names, m), Before), n), From(k)) <= m[k] {
        SortRefinesHeadMerge(names, m, n);
        TakenIsPrefix(names, m, n, k);
      }
    } else {
      var k :| k in names && !Sorted(m[k], Before);
      var all := SortStable(Flatten(names, m), Before);
      if Keep(all, From(k)) <= m[k] {
        PrefixMeansSorted(names, m, k);
      }
      assert Take(all, |all|) == all;
    }
  }

  lemma {:induction false} PrefixMeansSorted(names: seq<string>, m: map<string, seq<Item>>, k: string)
    requires Tagged(names, m) && k in names
    requires Keep(SortStable(Flatten(names, m), Before), From(k)) <= m[k]
    ensures Sorted(m[k], Before)
  {
    BeforeOrder();
    KeepSort(Flatten(names, m), From(k), Before);
    FlattenFrom(names, m, k);
    assert SortStable(m[k], Before) == m[k];
    SortedByClass(m[k], Before);
  }
}
