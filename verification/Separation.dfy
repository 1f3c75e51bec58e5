/** Cutting a sorted log so that, instance by instance, everything before the cut is newer by
    text than everything after it: then each side is the sort of a part of every stream. */
module Separation {
  import opened Ordering
  import opened Text
  import opened QueryLog
  import opened Merge
  import opened Runs
  import opened Resume

  /** Everything in `a` is newer, by text, than everything in `b`. */
  ghost predicate Above(a: seq<Item>, b: seq<Item>)
  {
    forall x, y | x in a && y in b :: Less(y.rawTime, x.rawTime)
  }

  /** The same, for entries of one instance. */
  ghost predicate SplitsAt(log: seq<Item>, m: nat)
    requires m <= |log|
  {
    forall x, y | x in log[..m] && y in log[m..] && x.instance == y.instance :: Less(y.rawTime, x.rawTime)
  }

  // ---------------------------------------------------------------- one stream

  function In(a: seq<Item>): Item -> bool
  {
    (it: Item) => it in a
  }

  function NotIn(a: seq<Item>): Item -> bool
  {
    (it: Item) => it !in a
  }

  /** The stream's entries in `a` are newer, by text, than its others. */
  ghost predicate Upper(stream: seq<Item>, a: seq<Item>)
  {
    forall x, y | x in stream && y in stream && x in a && y !in a :: Less(y.rawTime, x.rawTime)
  }

  lemma {:induction false} UpperTail(stream: seq<Item>, a: seq<Item>)
    requires stream != [] && Upper(stream, a)
    ensures Upper(stream[1..], a)
  {
    assert forall x | x in stream[1..] :: x in stream;
  }

  /** In a stream that descends by text they come first. */
  lemma {:induction false} UpperFirst(stream: seq<Item>, a: seq<Item>)
    requires TextDown(stream) && Upper(stream, a)
    ensures stream == Keep(stream, In(a)) + Keep(stream, NotIn(a))
  {
    if stream == [] {
    } else if stream[0] in a {
      TextDownSlice(stream, 1, |stream|);
      UpperTail(stream, a);
      UpperFirst(stream[1..], a);
      UpperNext(stream[0], stream[1..], a);
      assert stream == [stream[0]] + stream[1..];
    } else {
      NoneUpper(stream, a);
      NoneKept(stream, a);
    }
  }

  lemma {:induction false} NoneKept(stream: seq<Item>, a: seq<Item>)
    requires forall z | z in stream :: z !in a
    ensures stream == Keep(stream, In(a)) + Keep(stream, NotIn(a))
  {
    KeepNone(stream, In(a));
    KeepAll(stream, NotIn(a));
  }

  lemma {:induction false} UpperNext(x: Item, rest: seq<Item>, a: seq<Item>)
    requires x in a && rest == Keep(rest, In(a)) + Keep(rest, NotIn(a))
    ensures [x] + rest == Keep([x] + rest, In(a)) + Keep([x] + rest, NotIn(a))
  {
    assert ([x] + rest)[1..] == rest;
    ConcatAssociates([x], Keep(rest, In(a)), Keep(rest, NotIn(a)));
  }

  lemma {:induction false} NoneUpper(stream: seq<Item>, a: seq<Item>)
    requires TextDown(stream) && stream != [] && stream[0] !in a && Upper(stream, a)
    ensures forall z | z in stream :: z !in a
  {
    forall j | 0 <= j < |stream| ensures stream[j] !in a {
      assert stream[0] in stream && stream[j] in stream;
    }
  }

  lemma {:induction false} KeepSides(a: seq<Item>, b: seq<Item>)
    requires Above(a, b)
    ensures Keep(a + b, In(a)) == a && Keep(a + b, NotIn(a)) == b
  {
    forall y | y in b ensures y !in a {
      LessTotal(y.rawTime, y.rawTime);
    }
    KeepAppend(a, b, In(a));
    KeepAll(a, In(a));
    KeepNone(b, In(a));
    KeepAppend(a, b, NotIn(a));
    KeepNone(a, NotIn(a));
    KeepAll(b, NotIn(a));
  }

  lemma {:induction false} SortedUpper(stream: seq<Item>, a: seq<Item>, b: seq<Item>)
    requires SortStable(stream, Before) == a + b && Above(a, b)
    ensures Upper(stream, a)
  {
    forall x, y | x in stream && y in stream && x in a && y !in a ensures Less(y.rawTime, x.rawTime) {
      assert y in SortStable(stream, Before);
    }
  }

  /** Where a sorted stream splits, its sides are the sorts of the stream's sides. */
  lemma {:induction false} SortedSides(stream: seq<Item>, a: seq<Item>, b: seq<Item>)
    requires TextDown(stream) && SortStable(stream, Before) == a + b && Above(a, b)
    ensures |stream| == |a| + |b|
    ensures SortStable(stream[..|a|], Before) == a && SortStable(stream[|a|..], Before) == b
  {
    var up, low := Keep(stream, In(a)), Keep(stream, NotIn(a));
    BeforeOrder();
    KeepSides(a, b);
    KeepSort(stream, In(a), Before);
    KeepSort(stream, NotIn(a), Before);
    SortedUpper(stream, a, b);
    UpperFirst(stream, a);
    assert stream[..|a|] == up && stream[|a|..] == low;
  }

  /** The stream itself is then cut between different timestamps. */
  lemma {:induction false} SidesDiffer(stream: seq<Item>, a: seq<Item>, b: seq<Item>)
    requires TextDown(stream) && SortStable(stream, Before) == a + b && Above(a, b)
    ensures 0 < |a| < |stream| ==> stream[|a|].rawTime != stream[|a| - 1].rawTime
  {
    var k := |a|;
    SortedSides(stream, a, b);
    if 0 < k < |stream| {
      assert stream[k - 1] in stream[..k] && stream[k] in stream[k..];
      assert stream[k - 1] in a && stream[k] in b;
      LessTotal(stream[k].rawTime, stream[k].rawTime);
    }
  }

  /** Between two splits, too, the sorted stream is the sort of that part of the stream. */
  lemma {:induction false} SortedMiddle(stream: seq<Item>, a: seq<Item>, b: seq<Item>, ab: seq<Item>, c: seq<Item>)
    requires TextDown(stream) && SortStable(stream, Before) == ab + c && ab == a + b && Above(a, b) && Above(ab, c)
    ensures |a| <= |ab| <= |stream| && SortStable(stream[|a|..|ab|], Before) == b
  {
    SortedSides(stream, ab, c);
    TextDownSlice(stream, 0, |ab|);
    SortedSides(stream[..|ab|], a, b);
    assert stream[..|ab|][|a|..] == stream[|a|..|ab|];
  }

  // ---------------------------------------------------------------- many streams

  /** An instance's part of a log, at a cut. */
  lemma {:induction false} KeepCut(log: seq<Item>, m: nat, n: string)
    requires m <= |log|
    ensures Keep(log, From(n)) == Keep(log[..m], From(n)) + Keep(log[m..], From(n))
    ensures SplitsAt(log, m) ==> Above(Keep(log[..m], From(n)), Keep(log[m..], From(n)))
  {
    assert log == log[..m] + log[m..];
    KeepAppend(log[..m], log[m..], From(n));
  }

  /** The log sorted from the streams. */
  ghost predicate SortOf(log: seq<Item>, names: seq<string>, streams: map<string, seq<Item>>)
  {
    && Tagged(names, streams) && log == SortStable(Flatten(names, streams), Before)
    && forall n | n in names :: TextDown(streams[n])
  }

  lemma {:induction false} SortOfKeeps(log: seq<Item>, names: seq<string>, streams: map<string, seq<Item>>, n: string)
    requires SortOf(log, names, streams)
    ensures Keep(log, From(n)) == if n in names then SortStable(streams[n], Before) else []
  {
    BeforeOrder();
    KeepSort(Flatten(names, streams), From(n), Before);
    FlattenFrom(names, streams, n);
  }

  lemma {:induction false} InstancesOf(log: seq<Item>, names: seq<string>, streams: map<string, seq<Item>>)
    requires SortOf(log, names, streams)
    ensures InstancesIn(log, names)
  {
    forall it | it in log ensures it.instance in names {
      SortOfKeeps(log, names, streams, it.instance);
      assert it in Keep(log, From(it.instance));
    }
  }

  /** An instance's stream, at a cut where the log splits. */
  lemma {:induction false} SplitSides(log: seq<Item>, names: seq<string>, streams: map<string, seq<Item>>, m: nat, n: string)
    requires SortOf(log, names, streams) && n in names && m <= |log| && SplitsAt(log, m)
    ensures var k := CountOf(log[..m], n);
            && k <= |streams[n]|
            && SortStable(streams[n][k..], Before) == Keep(log[m..], From(n))
            && (0 < k < |streams[n]| ==> streams[n][k].rawTime != streams[n][k - 1].rawTime)
  {
    KeepCut(log, m, n);
    SortOfKeeps(log, names, streams, n);
    SortedSides(streams[n], Keep(log[..m], From(n)), Keep(log[m..], From(n)));
    SidesDiffer(streams[n], Keep(log[..m], From(n)), Keep(log[m..], From(n)));
  }

  lemma {:induction false} KeepBlock(log: seq<Item>, lo: nat, hi: nat, n: string)
    requires lo <= hi <= |log|
    ensures Keep(log[..hi], From(n)) == Keep(log[..lo], From(n)) + Keep(log[lo..hi], From(n))
    ensures CountOf(log[..hi], n) == CountOf(log[..lo], n) + CountOf(log[lo..hi], n)
  {
    assert log[..hi] == log[..lo] + log[lo..hi];
    KeepAppend(log[..lo], log[lo..hi], From(n));
  }

  /** Between two cuts where the log splits, an instance's entries are the sort of its
      stream's entries between them. */
  lemma {:induction false} BlockOfStream(log: seq<Item>, names: seq<string>, streams: map<string, seq<Item>>, lo: nat, hi: nat, n: string)
    requires SortOf(log, names, streams) && n in names && lo <= hi <= |log| && SplitsAt(log, lo) && SplitsAt(log, hi)
    ensures var k, k' := CountOf(log[..lo], n), CountOf(log[..hi], n);
            k <= k' <= |streams[n]| && SortStable(streams[n][k..k'], Before) == Keep(log[lo..hi], From(n))
  {
    SortOfKeeps(log, names, streams, n);
    MiddleOf(log, lo, hi, n, streams[n]);
  }

  lemma {:induction false} MiddleOf(log: seq<Item>, lo: nat, hi: nat, n: string, stream: seq<Item>)
    requires TextDown(stream) && SortStable(stream, Before) == Keep(log, From(n))
    requires lo <= hi <= |log| && SplitsAt(log, lo) && SplitsAt(log, hi)
    ensures var k, k' := CountOf(log[..lo], n), CountOf(log[..hi], n);
            k <= k' <= |stream| && SortStable(stream[k..k'], Before) == Keep(log[lo..hi], From(n))
  {
    KeepBlock(log, lo, hi, n);
    KeepCut(log, hi, n);
    SplitBlock(log, lo, hi, n);
    SortedMiddle(stream, Keep(log[..lo], From(n)), Keep(log[lo..hi], From(n)), Keep(log[..hi], From(n)), Keep(log[hi..], From(n)));
  }

  lemma {:induction false} SplitBlock(log: seq<Item>, lo: nat, hi: nat, n: string)
    requires lo <= hi <= |log| && SplitsAt(log, lo)
    ensures Above(Keep(log[..lo], From(n)), Keep(log[lo..hi], From(n)))
  {
    forall y | y in log[lo..hi] ensures y in log[lo..] {
      var j :| 0 <= j < hi - lo && log[lo..hi][j] == y;
      assert log[lo..][j] == y;
    }
  }

  // ---------------------------------------------------------------- blocks of the log

  /** Streams cut up between two cuts. */
  ghost predicate Slices(slices: map<string, seq<Item>>, names: seq<string>, streams: map<string, seq<Item>>, log: seq<Item>, lo: nat, hi: nat)
    requires lo <= hi <= |log| && Covers(names, streams)
  {
    && Covers(names, slices)
    && forall n | n in names ::
         var k, k' := CountOf(log[..lo], n), CountOf(log[..hi], n);
         k <= k' <= |streams[n]| && slices[n] == streams[n][k..k']
  }

  lemma {:induction false} SlicesTagged(slices: map<string, seq<Item>>, names: seq<string>, streams: map<string, seq<Item>>, log: seq<Item>, lo: nat, hi: nat)
    requires lo <= hi <= |log| && Tagged(names, streams) && Slices(slices, names, streams, log, lo, hi)
    ensures Tagged(names, slices)
  {
    forall n: string, it: Item | n in names && it in slices[n] ensures it.instance == n {
      assert it in streams[n];
    }
  }

  lemma {:induction false} SortedSlice(log: seq<Item>, lo: nat, hi: nat)
    requires Sorted(log, Before) && lo <= hi <= |log|
    ensures Sorted(log[lo..hi], Before)
  {
  }

  lemma {:induction false} SortOfIsSorted(log: seq<Item>, names: seq<string>, streams: map<string, seq<Item>>)
    requires SortOf(log, names, streams)
    ensures Sorted(log, Before)
  {
    BeforeOrder();
    SortedByClass(Flatten(names, streams), Before);
  }

  lemma {:induction false} SameClass(s: seq<Item>, t: seq<Item>, x: Item, part: seq<Item>)
    requires Keep(s, From(x.instance)) == SortStable(part, Before) && Keep(t, From(x.instance)) == part
    ensures Keep(s, Ties(x, Before)) == Keep(t, Ties(x, Before))
  {
    BeforeOrder();
    ClassFrom(s, x);
    ClassFrom(t, x);
    SortedByClass(part, Before);
  }

  /** A block of the log between two splits is the sort of the streams' slices. */
  lemma {:induction false} BlockIsSort(log: seq<Item>, names: seq<string>, streams: map<string, seq<Item>>, lo: nat, hi: nat,
                                       slices: map<string, seq<Item>>)
    requires SortOf(log, names, streams) && lo <= hi <= |log| && SplitsAt(log, lo) && SplitsAt(log, hi)
    requires Slices(slices, names, streams, log, lo, hi)
    ensures SortStable(Flatten(names, slices), Before) == log[lo..hi]
  {
    var block, all := log[lo..hi], Flatten(names, slices);
    SlicesTagged(slices, names, streams, log, lo, hi);
    SortOfIsSorted(log, names, streams);
    SortedSlice(log, lo, hi);
    forall x: Item ensures Keep(block, Ties(x, Before)) == Keep(all, Ties(x, Before)) {
      BlockClass(log, names, streams, lo, hi, slices, x);
    }
    BeforeOrder();
    StableSortUnique(all, block, Before);
  }

  lemma {:induction false} BlockClass(log: seq<Item>, names: seq<string>, streams: map<string, seq<Item>>, lo: nat, hi: nat,
                                      slices: map<string, seq<Item>>, x: Item)
    requires SortOf(log, names, streams) && lo <= hi <= |log| && SplitsAt(log, lo) && SplitsAt(log, hi)
    requires Slices(slices, names, streams, log, lo, hi) && Tagged(names, slices)
    ensures Keep(log[lo..hi], Ties(x, Before)) == Keep(Flatten(names, slices), Ties(x, Before))
  {
    var n := x.instance;
    FlattenFrom(names, slices, n);
    if n in names {
      BlockOfStream(log, names, streams, lo, hi, n);
      SameClass(log[lo..hi], Flatten(names, slices), x, slices[n]);
    } else {
      KeepBlock(log, lo, hi, n);
      KeepCut(log, hi, n);
      SortOfKeeps(log, names, streams, n);
      SameClass(log[lo..hi], Flatten(names, slices), x, []);
    }
  }

  /** Two parts of the streams, nothing of the second before anything of the first, sort one
      after the other. */
  lemma {:induction false} SortInTwo(names: seq<string>, a: map<string, seq<Item>>, b: map<string, seq<Item>>, c: map<string, seq<Item>>)
    requires Tagged(names, a) && Tagged(names, b) && Tagged(names, c)
    requires forall n | n in names :: c[n] == a[n] + b[n]
    requires forall x, y | x in Flatten(names, a) && y in Flatten(names, b) :: !Before(y, x)
    ensures SortStable(Flatten(names, c), Before)
         == SortStable(Flatten(names, a), Before) + SortStable(Flatten(names, b), Before)
  {
    var u, v := SortStable(Flatten(names, a), Before), SortStable(Flatten(names, b), Before);
    BeforeOrder();
    SortedByClass(Flatten(names, a), Before);
    SortedByClass(Flatten(names, b), Before);
    SortedJoin(u, v);
    forall x: Item ensures Keep(u + v, Ties(x, Before)) == Keep(Flatten(names, c), Ties(x, Before)) {
      KeepAppend(u, v, Ties(x, Before));
      TwoClass(names, a, b, c, x);
    }
    StableSortUnique(Flatten(names, c), u + v, Before);
  }

  lemma {:induction false} SortedJoin(u: seq<Item>, v: seq<Item>)
    requires Sorted(u, Before) && Sorted(v, Before) && forall x, y | x in u && y in v :: !Before(y, x)
    ensures Sorted(u + v, Before)
  {
    var s := u + v;
    forall i, j | 0 <= i < j < |s| ensures !Before(s[j], s[i]) {
      if i < |u| <= j {
        assert s[i] in u && s[j] in v;
      }
    }
  }

  lemma {:induction false} TwoClass(names: seq<string>, a: map<string, seq<Item>>, b: map<string, seq<Item>>, c: map<string, seq<Item>>, x: Item)
    requires Tagged(names, a) && Tagged(names, b) && Tagged(names, c)
    requires forall n | n in names :: c[n] == a[n] + b[n]
    ensures Keep(Flatten(names, c), Ties(x, Before))
         == Keep(Flatten(names, a), Ties(x, Before)) + Keep(Flatten(names, b), Ties(x, Before))
  {
    var n := x.instance;
    ClassFrom(Flatten(names, a), x);
    ClassFrom(Flatten(names, b), x);
    ClassFrom(Flatten(names, c), x);
    FlattenFrom(names, a, n);
    FlattenFrom(names, b, n);
    FlattenFrom(names, c, n);
    if n in names {
      KeepAppend(a[n], b[n], Ties(x, Before));
    }
  }

  // ---------------------------------------------------------------- the next page

  function Slice(names: seq<string>, streams: map<string, seq<Item>>, log: seq<Item>, lo: nat, hi: nat): (m: map<string, seq<Item>>)
    requires lo <= hi <= |log| && Covers(names, streams)
  {
    map n | n in names :: Part(streams[n], CountOf(log[..lo], n), CountOf(log[..hi], n))
  }

  function Part(s: seq<Item>, k: nat, k': nat): (r: seq<Item>)
  {
    if k <= k' <= |s| then s[k..k'] else []
  }

  lemma {:induction false} SliceIs(names: seq<string>, streams: map<string, seq<Item>>, log: seq<Item>, lo: nat, hi: nat)
    requires SortOf(log, names, streams) && lo <= hi <= |log| && SplitsAt(log, lo) && SplitsAt(log, hi)
    ensures Slices(Slice(names, streams, log, lo, hi), names, streams, log, lo, hi)
  {
    forall n | n in names
      ensures var k, k' := CountOf(log[..lo], n), CountOf(log[..hi], n);
              k <= k' <= |streams[n]| && Slice(names, streams, log, lo, hi)[n] == streams[n][k..k']
    {
      BlockOfStream(log, names, streams, lo, hi, n);
    }
  }

  /** What is offered beyond the block. */
  function Beyond(names: seq<string>, offers: map<string, seq<Item>>, log: seq<Item>, lo: nat, hi: nat): (m: map<string, seq<Item>>)
    requires lo <= hi <= |log| && Covers(names, offers)
  {
    map n | n in names :: Part(offers[n], CountOf(log[lo..hi], n), |offers[n]|)
  }

  /** What an instance offers at a split is its slice of the block and something from after it. */
  lemma {:induction false} OfferParts(log: seq<Item>, names: seq<string>, streams: map<string, seq<Item>>, lo: nat, hi: nat,
                                      pageSize: nat, n: string, offer: seq<Item>)
    requires SortOf(log, names, streams) && n in names && lo <= hi <= |log| && SplitsAt(log, lo) && SplitsAt(log, hi)
    requires hi - lo <= pageSize
    requires CountOf(log[..lo], n) <= |streams[n]| && offer == Take(streams[n][CountOf(log[..lo], n)..], pageSize)
    ensures var c := CountOf(log[lo..hi], n);
            && c <= |offer|
            && offer[..c] == Part(streams[n], CountOf(log[..lo], n), CountOf(log[..hi], n))
            && (forall y | y in offer[c..] :: y in log[hi..])
  {
    BlockOfStream(log, names, streams, lo, hi, n);
    KeepBlock(log, lo, hi, n);
    LowerInLog(log, names, streams, hi, n);
    OfferCut(streams[n], CountOf(log[..lo], n), CountOf(log[lo..hi], n), pageSize, offer);
  }

  lemma {:induction false} OfferCut(stream: seq<Item>, k: nat, c: nat, pageSize: nat, offer: seq<Item>)
    requires k + c <= |stream| && c <= pageSize && offer == Take(stream[k..], pageSize)
    ensures c <= |offer| && offer[..c] == stream[k..k + c]
    ensures forall y | y in offer[c..] :: y in stream[k + c..]
  {
    forall y | y in offer[c..] ensures y in stream[k + c..] {
      var j :| 0 <= j < |offer[c..]| && offer[c..][j] == y;
      assert stream[k + c..][j] == y;
    }
  }

  lemma {:induction false} LowerInLog(log: seq<Item>, names: seq<string>, streams: map<string, seq<Item>>, m: nat, n: string)
    requires SortOf(log, names, streams) && n in names && m <= |log| && SplitsAt(log, m)
    ensures CountOf(log[..m], n) <= |streams[n]|
    ensures forall y | y in streams[n][CountOf(log[..m], n)..] :: y in log[m..]
  {
    SplitSides(log, names, streams, m, n);
    var low := streams[n][CountOf(log[..m], n)..];
    forall y | y in low ensures y in log[m..] {
      assert y in SortStable(low, Before);
    }
  }

  lemma {:induction false} FlattenMember(names: seq<string>, m: map<string, seq<Item>>, y: Item) returns (n: string)
    requires Covers(names, m) && y in Flatten(names, m)
    ensures n in names && y in m[n]
  {
    if y in m[names[0]] {
      n := names[0];
    } else {
      n := FlattenMember(names[1..], m, y);
    }
  }

  /** The page over such offers is the block. */
  lemma {:induction false} NextBlock(log: seq<Item>, names: seq<string>, streams: map<string, seq<Item>>, lo: nat, hi: nat,
                                     pageSize: nat, offers: map<string, seq<Item>>)
    requires SortOf(log, names, streams) && lo <= hi <= |log| && SplitsAt(log, lo) && SplitsAt(log, hi)
    requires hi == lo + pageSize || (hi == |log| && hi - lo <= pageSize)
    requires Tagged(names, offers)
    requires forall n | n in names :: CountOf(log[..lo], n) <= |streams[n]| && offers[n] == Take(streams[n][CountOf(log[..lo], n)..], pageSize)
    ensures Take(SortStable(Flatten(names, offers), Before), pageSize) == log[lo..hi]
  {
    var a, b := Slice(names, streams, log, lo, hi), Beyond(names, offers, log, lo, hi);
    SortOfIsSorted(log, names, streams);
    SliceIs(names, streams, log, lo, hi);
    SlicesTagged(a, names, streams, log, lo, hi);
    BlockIsSort(log, names, streams, lo, hi, a);
    forall n | n in names ensures offers[n] == a[n] + b[n] && forall y | y in b[n] :: y in log[hi..] && y.instance == n
    {
      OfferInTwo(log, names, streams, lo, hi, pageSize, n, offers[n], a[n], b[n]);
    }
    BlockThenRest(log, names, lo, hi, pageSize, a, b, offers);
  }

  lemma {:induction false} OfferInTwo(log: seq<Item>, names: seq<string>, streams: map<string, seq<Item>>, lo: nat, hi: nat,
                                      pageSize: nat, n: string, offer: seq<Item>, a: seq<Item>, b: seq<Item>)
    requires SortOf(log, names, streams) && n in names && lo <= hi <= |log| && SplitsAt(log, lo) && SplitsAt(log, hi)
    requires hi - lo <= pageSize && forall it | it in offer :: it.instance == n
    requires CountOf(log[..lo], n) <= |streams[n]| && offer == Take(streams[n][CountOf(log[..lo], n)..], pageSize)
    requires a == Part(streams[n], CountOf(log[..lo], n), CountOf(log[..hi], n))
    requires b == Part(offer, CountOf(log[lo..hi], n), |offer|)
    ensures offer == a + b && forall y | y in b :: y in log[hi..] && y.instance == n
  {
    OfferParts(log, names, streams, lo, hi, pageSize, n, offer);
    SplitOffer(offer, CountOf(log[lo..hi], n));
  }

  lemma {:induction false} SplitOffer(offer: seq<Item>, c: nat)
    requires c <= |offer|
    ensures offer == offer[..c] + offer[c..] && Part(offer, c, |offer|) == offer[c..]
    ensures forall y | y in offer[c..] :: y in offer
  {
    assert offer[c..|offer|] == offer[c..];
  }

  lemma {:induction false} BlockThenRest(log: seq<Item>, names: seq<string>, lo: nat, hi: nat, pageSize: nat,
                                         a: map<string, seq<Item>>, b: map<string, seq<Item>>, c: map<string, seq<Item>>)
    requires lo <= hi <= |log| && Sorted(log, Before)
    requires hi == lo + pageSize || (hi == |log| && hi - lo <= pageSize)
    requires Tagged(names, a) && Covers(names, b) && Tagged(names, c)
    requires SortStable(Flatten(names, a), Before) == log[lo..hi]
    requires forall n | n in names :: c[n] == a[n] + b[n]
    requires forall n | n in names :: forall y | y in b[n] :: y in log[hi..] && y.instance == n
    ensures Take(SortStable(Flatten(names, c), Before), pageSize) == log[lo..hi]
  {
    forall y | y in Flatten(names, b) ensures y in log[hi..] {
      var n := FlattenMember(names, b, y);
    }
    forall x, y | x in Flatten(names, a) && y in Flatten(names, b) ensures !Before(y, x) {
      assert x in log[lo..hi];
      AcrossCut(log, lo, hi, x, y);
    }
    SortInTwo(names, a, b, c);
    TakeFirst(log[lo..hi], SortStable(Flatten(names, b), Before), log[hi..], pageSize);
  }

  lemma {:induction false} AcrossCut(log: seq<Item>, lo: nat, hi: nat, x: Item, y: Item)
    requires lo <= hi <= |log| && Sorted(log, Before) && x in log[lo..hi] && y in log[hi..]
    ensures !Before(y, x)
  {
    var i :| 0 <= i < hi - lo && log[lo..hi][i] == x;
    var j :| 0 <= j < |log| - hi && log[hi..][j] == y;
    assert log[lo + i] == x && log[hi + j] == y;
  }

  lemma {:induction false} TakeFirst(u: seq<Item>, v: seq<Item>, later: seq<Item>, n: nat)
    requires (|u| == n || (|u| <= n && later == [])) && forall y | y in v :: y in later
    ensures Take(u + v, n) == u
  {
    HasMember(v);
    if later == [] {
      assert v == [];
      assert u + v == u;
    } else {
      assert (u + v)[..n] == u;
      assert |u + v| == n ==> v == [] && u + v == u;
    }
  }
}
