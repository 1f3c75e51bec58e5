/** Ranked top lists: what "the n highest counts, ties by name" means, that it leaves one
    answer, and the two pieces of code that compute it. */
module Ranking {
  import opened Ordering
  import opened Text

  datatype TopEntry = TopEntry(name: string, count: int)

  datatype InstanceCount = InstanceCount(instance: string, count: int)

  datatype MergedTopEntry = MergedTopEntry(name: string, count: int, perInstance: seq<InstanceCount>)

  type Counts = map<string, int>

  /** Higher count first, then the smaller name. */
  predicate Outranks(a: TopEntry, b: TopEntry)
  {
    a.count > b.count || (a.count == b.count && Less(a.name, b.name))
  }

  /** `out` holds, in rank order, keys with their counts; it is no longer than `n`, and only a
      full list leaves keys out, each outranked by every row. */
  ghost predicate TopOf(out: seq<TopEntry>, counts: Counts, n: nat)
  {
    && |out| <= n
    && (forall i | 0 <= i < |out| :: out[i].name in counts && out[i].count == counts[out[i].name])
    && (forall i, j | 0 <= i < j < |out| :: Outranks(out[i], out[j]))
    && (forall k | k in counts && TopEntry(k, counts[k]) !in out ::
          |out| == n && forall i | 0 <= i < |out| :: Outranks(out[i], TopEntry(k, counts[k])))
  }

  lemma {:induction false} OutranksOrder()
    ensures StrictWeakOrder(Outranks)
  {
    forall a: TopEntry, b: TopEntry | Outranks(a, b) ensures !Outranks(b, a) {
      LessTotal(a.name, b.name);
    }
    forall a: TopEntry, b: TopEntry, c: TopEntry | Outranks(a, c) ensures Outranks(a, b) || Outranks(b, c) {
      LessTotal(a.name, b.name);
      LessTotal(b.name, c.name);
      if Less(b.name, a.name) && Less(a.name, c.name) {
        LessTransitive(b.name, a.name, c.name);
      }
    }
  }

  lemma {:induction false} OutranksTotal(a: TopEntry, b: TopEntry)
    requires a.name != b.name
    ensures Outranks(a, b) <==> !Outranks(b, a)
  {
    LessTotal(a.name, b.name);
  }

  lemma {:induction false} TopRowAgrees(a: seq<TopEntry>, b: seq<TopEntry>, counts: Counts, n: nat, i: nat)
    requires TopOf(a, counts, n) && TopOf(b, counts, n) && i < |a|
    requires i <= |b| && a[..i] == b[..i]
    ensures i < |b| && !Outranks(a[i], b[i])
  {
    var x := a[i];
    forall j | 0 <= j < i ensures b[j] != x {
      assert a[j] == a[..i][j] == b[..i][j] == b[j];
      assert Outranks(a[j], x);
      LessTotal(x.name, x.name);
    }
    LessTotal(x.name, x.name);
    if x in b {
      var j :| 0 <= j < |b| && b[j] == x;
      assert j == i || Outranks(b[i], b[j]);
      LessTotal(b[i].name, x.name);
    } else {
      assert TopEntry(x.name, counts[x.name]) == x;
      assert |b| == n;
      LessTotal(b[i].name, x.name);
    }
  }

  lemma {:induction false} TopPrefixUnique(a: seq<TopEntry>, b: seq<TopEntry>, counts: Counts, n: nat, i: nat)
    requires TopOf(a, counts, n) && TopOf(b, counts, n) && i <= |a|
    ensures i <= |b| && a[..i] == b[..i]
  {
    if i > 0 {
      TopPrefixUnique(a, b, counts, n, i - 1);
      RowsAgree(a, b, counts, n, i - 1);
      PrefixExtends(a, b, i);
    }
  }

  lemma {:induction false} PrefixExtends(a: seq<TopEntry>, b: seq<TopEntry>, i: nat)
    requires 0 < i <= |a| && i <= |b| && a[..i - 1] == b[..i - 1] && a[i - 1] == b[i - 1]
    ensures a[..i] == b[..i]
  {
    assert a[..i] == a[..i - 1] + [a[i - 1]] && b[..i] == b[..i - 1] + [b[i - 1]];
  }

  lemma {:induction false} RowsAgree(a: seq<TopEntry>, b: seq<TopEntry>, counts: Counts, n: nat, i: nat)
    requires TopOf(a, counts, n) && TopOf(b, counts, n) && i < |a|
    requires i <= |b| && a[..i] == b[..i]
    ensures i < |b| && a[i] == b[i]
  {
    TopRowAgrees(a, b, counts, n, i);
    TopRowAgrees(b, a, counts, n, i);
    SameRow(a[i], b[i], counts);
  }

  lemma {:induction false} SameRow(x: TopEntry, y: TopEntry, counts: Counts)
    requires x.name in counts && x.count == counts[x.name] && y.name in counts && y.count == counts[y.name]
    requires !Outranks(x, y) && !Outranks(y, x)
    ensures x == y
  {
    if x.name != y.name {
      OutranksTotal(x, y);
    }
  }

  /** There is one top list. */
  lemma {:induction false} TopUnique(a: seq<TopEntry>, b: seq<TopEntry>, counts: Counts, n: nat)
    requires TopOf(a, counts, n) && TopOf(b, counts, n)
    ensures a == b
  {
    TopPrefixUnique(a, b, counts, n, |a|);
    TopPrefixUnique(b, a, counts, n, |b|);
    assert a[..|a|] == a && b[..|b|] == b;
  }

  // ---------------------------------------------------------------- sorting rows

  /** One row per key. */
  ghost predicate RowsOf(rows: seq<TopEntry>, counts: Counts)
  {
    && (forall x | x in rows :: x.name in counts && x.count == counts[x.name])
    && (forall k | k in counts :: TopEntry(k, counts[k]) in rows)
    && (forall i, j | 0 <= i < j < |rows| :: rows[i] != rows[j])
  }

  lemma {:induction false} TwiceInMultiset<T>(s: seq<T>, i: nat, j: nat)
    requires i < j < |s| && s[i] == s[j]
    ensures multiset(s)[s[i]] >= 2
  {
    assert s == s[..j] + [s[j]] + s[j + 1..];
    assert s[i] in s[..j];
  }

  lemma {:induction false} OnceInMultiset<T>(s: seq<T>, x: T)
    requires forall i, j | 0 <= i < j < |s| :: s[i] != s[j]
    ensures multiset(s)[x] <= 1
  {
    if s != [] {
      var n := |s| - 1;
      OnceInMultiset(s[..n], x);
      assert s == s[..n] + [s[n]];
      assert s[n] !in s[..n];
    }
  }

  lemma {:induction false} SortedRowsDistinct(rows: seq<TopEntry>, i: nat, j: nat)
    requires forall i, j | 0 <= i < j < |rows| :: rows[i] != rows[j]
    requires i < j < |rows|
    ensures SortStable(rows, Outranks)[i] != SortStable(rows, Outranks)[j]
  {
    var s := SortStable(rows, Outranks);
    if s[i] == s[j] {
      TwiceInMultiset(s, i, j);
      SortMultiset(rows, Outranks);
      OnceInMultiset(rows, s[i]);
    }
  }

  lemma {:induction false} SortedRowsRank(rows: seq<TopEntry>, counts: Counts, i: nat, j: nat)
    requires RowsOf(rows, counts) && i < j < |rows|
    ensures Outranks(SortStable(rows, Outranks)[i], SortStable(rows, Outranks)[j])
  {
    var s := SortStable(rows, Outranks);
    OutranksOrder();
    SortedByClass(rows, Outranks);
    SortedRowsDistinct(rows, i, j);
    assert s[i] in rows && s[j] in rows;
    OutranksTotal(s[i], s[j]);
  }

  /** Sorting one row per key and cutting gives the top list. */
  lemma {:induction false} SortedRowsAreTop(rows: seq<TopEntry>, counts: Counts, n: nat)
    requires RowsOf(rows, counts)
    ensures TopOf(Take(SortStable(rows, Outranks), n), counts, n)
  {
    var s := SortStable(rows, Outranks);
    forall i, j | 0 <= i < j < |s| ensures Outranks(s[i], s[j]) {
      SortedRowsRank(rows, counts, i, j);
    }
    CutRanked(s, counts, n);
  }

  lemma {:induction false} CutRanked(s: seq<TopEntry>, counts: Counts, n: nat)
    requires forall x | x in s :: x.name in counts && x.count == counts[x.name]
    requires forall k | k in counts :: TopEntry(k, counts[k]) in s
    requires forall i, j | 0 <= i < j < |s| :: Outranks(s[i], s[j])
    ensures TopOf(Take(s, n), counts, n)
  {
    var out := Take(s, n);
    forall i | 0 <= i < |out| ensures out[i].name in counts && out[i].count == counts[out[i].name] {
      assert out[i] in s;
    }
    forall k | k in counts && TopEntry(k, counts[k]) !in out
      ensures |out| == n && forall i | 0 <= i < |out| :: Outranks(out[i], TopEntry(k, counts[k]))
    {
      var j :| 0 <= j < |s| && s[j] == TopEntry(k, counts[k]);
      assert forall i | 0 <= i < |out| :: s[i] == out[i] && out[i] in out;
      assert j >= |out|;
    }
  }

  /** The fixture's topN: rows in whatever order the map is iterated, sorted and cut. */
  method TopN(counts: Counts, n: nat) returns (out: seq<TopEntry>)
    ensures TopOf(out, counts, n)
    ensures |out| == (if |counts| < n then |counts| else n)
    ensures forall r | r in out :: r.name in counts && r.count == counts[r.name]
    ensures forall i, j | 0 <= i < j < |out| ::
              out[i].count > out[j].count || (out[i].count == out[j].count && Less(out[i].name, out[j].name))
    ensures forall k, r | k in counts && r in out && TopEntry(k, counts[k]) !in out ::
              r.count > counts[k] || (r.count == counts[k] && Less(r.name, k))
  {
    var pairs: seq<TopEntry> := [];
    var rest := counts.Keys;
    while rest != {}
      invariant rest <= counts.Keys
      invariant forall x | x in pairs :: x.name in counts && x.name !in rest && x.count == counts[x.name]
      invariant forall k | k in counts && k !in rest :: TopEntry(k, counts[k]) in pairs
      invariant forall i, j | 0 <= i < j < |pairs| :: pairs[i] != pairs[j]
      decreases |rest|
    {
      var k :| k in rest;
      assert TopEntry(k, counts[k]) !in pairs;
      pairs := pairs + [TopEntry(k, counts[k])];
      rest := rest - {k};
    }
    SortedRowsAreTop(pairs, counts, n);
    RowCount(pairs, counts);
    pairs := SortStable(pairs, Outranks);
    if |pairs| > n {
      pairs := pairs[..n];
    }
    out := pairs;
    TopSpelled(out, counts, n);
  }

  /** One row per key is as many rows as keys. */
  lemma {:induction false} RowCount(rows: seq<TopEntry>, counts: Counts)
    requires RowsOf(rows, counts)
    ensures |rows| == |counts|
  {
    if rows == [] {
      assert counts.Keys == {};
    } else {
      var n := |rows| - 1;
      var k := rows[n].name;
      assert rows[n] in rows;
      forall j | j in counts && j != k ensures TopEntry(j, counts[j]) in rows[..n] {
        var i :| 0 <= i < |rows| && rows[i] == TopEntry(j, counts[j]);
        assert rows[..n][i] == rows[i];
      }
      forall x | x in rows[..n] ensures x in rows && x.name != k {
        var i :| 0 <= i < n && rows[i] == x;
      }
      RowCount(rows[..n], counts - {k});
      assert (counts - {k}).Keys == counts.Keys - {k};
    }
  }

  /** A top list, in the rows' own terms. */
  lemma {:induction false} TopSpelled(out: seq<TopEntry>, counts: Counts, n: nat)
    requires TopOf(out, counts, n)
    ensures forall r | r in out :: r.name in counts && r.count == counts[r.name]
    ensures forall i, j | 0 <= i < j < |out| ::
              out[i].count > out[j].count || (out[i].count == out[j].count && Less(out[i].name, out[j].name))
    ensures forall k, r | k in counts && r in out && TopEntry(k, counts[k]) !in out ::
              r.count > counts[k] || (r.count == counts[k] && Less(r.name, k))
  {
    forall i, j | 0 <= i < j < |out|
      ensures out[i].count > out[j].count || (out[i].count == out[j].count && Less(out[i].name, out[j].name))
    {
      assert Outranks(out[i], out[j]);
    }
    forall k, r | k in counts && r in out && TopEntry(k, counts[k]) !in out
      ensures r.count > counts[k] || (r.count == counts[k] && Less(r.name, k))
    {
      var i :| 0 <= i < |out| && out[i] == r;
      assert Outranks(out[i], TopEntry(k, counts[k]));
    }
  }

  // ---------------------------------------------------------------- merging top lists

  /** The state of a merger. */
  datatype Tally = Tally(totals: Counts, perInstance: map<string, seq<InstanceCount>>, order: seq<string>)
  {
    function Total(name: string): (c: int) { if name in totals then totals[name] else 0 }

    function Parts(name: string): (r: seq<InstanceCount>) { if name in perInstance then perInstance[name] else [] }

    function AddOne(instance: string, e: TopEntry): (t: Tally)
    {
      Tally(totals[e.name := Total(e.name) + e.count],
            perInstance[e.name := Parts(e.name) + [InstanceCount(instance, e.count)]],
            if e.name in totals then order else order + [e.name])
    }

    /** The names in first-seen order, each once; every total is the sum of its parts. */
    ghost predicate Consistent()
    {
      && (forall k :: k in totals <==> k in perInstance)
      && (forall k :: k in totals <==> k in order)
      && (forall i, j | 0 <= i < j < |order| :: order[i] != order[j])
      && (forall k | k in totals :: totals[k] == SumParts(perInstance[k]))
    }
  }

  function SumParts(parts: seq<InstanceCount>): (c: int)
  {
    if parts == [] then 0 else SumParts(parts[..|parts| - 1]) + parts[|parts| - 1].count
  }

  function AddAll(t: Tally, instance: string, entries: seq<TopEntry>): (r: Tally)
  {
    if entries == [] then t
    else AddAll(t, instance, entries[..|entries| - 1]).AddOne(instance, entries[|entries| - 1])
  }

  /** What a list of rows counts for a name. */
  function CountIn(entries: seq<TopEntry>, name: string): (c: int)
  {
    if entries == [] then 0
    else
      var e := entries[|entries| - 1];
      CountIn(entries[..|entries| - 1], name) + (if e.name == name then e.count else 0)
  }

  predicate NameIn(entries: seq<TopEntry>, name: string)
  {
    entries != [] && (entries[|entries| - 1].name == name || NameIn(entries[..|entries| - 1], name))
  }

  function SumAll(entries: seq<TopEntry>): (c: int)
  {
    if entries == [] then 0 else SumAll(entries[..|entries| - 1]) + entries[|entries| - 1].count
  }

  function SumTotals(t: Tally, names: seq<string>): (c: int)
  {
    if names == [] then 0 else SumTotals(t, names[..|names| - 1]) + t.Total(names[|names| - 1])
  }

  lemma {:induction false} SumPartsAppend(parts: seq<InstanceCount>, c: InstanceCount)
    ensures SumParts(parts + [c]) == SumParts(parts) + c.count
  {
    assert (parts + [c])[..|parts|] == parts;
  }

  lemma {:induction false} AddOneConsistent(t: Tally, instance: string, e: TopEntry)
    requires t.Consistent()
    ensures t.AddOne(instance, e).Consistent()
  {
    var t' := t.AddOne(instance, e);
    AddOneOrder(t, instance, e);
    forall k | k in t'.totals ensures t'.totals[k] == SumParts(t'.perInstance[k]) {
      if k == e.name {
        SumPartsAppend(t.Parts(k), InstanceCount(instance, e.count));
        assert t.Total(k) == SumParts(t.Parts(k));
      }
    }
  }

  lemma {:induction false} AddOneOrder(t: Tally, instance: string, e: TopEntry)
    requires forall k :: k in t.totals <==> k in t.order
    requires forall i, j | 0 <= i < j < |t.order| :: t.order[i] != t.order[j]
    ensures var t' := t.AddOne(instance, e);
            && (forall k :: k in t'.totals <==> k in t'.order)
            && forall i, j | 0 <= i < j < |t'.order| :: t'.order[i] != t'.order[j]
  {
  }

  lemma {:induction false} SumTotalsFrame(t: Tally, t': Tally, names: seq<string>)
    requires forall k | k in names :: t.Total(k) == t'.Total(k)
    ensures SumTotals(t, names) == SumTotals(t', names)
  {
    if names != [] {
      SumTotalsFrame(t, t', names[..|names| - 1]);
    }
  }

  lemma {:induction false} SumTotalsChange(t: Tally, t': Tally, names: seq<string>, k: string)
    requires (forall i, j | 0 <= i < j < |names| :: names[i] != names[j]) && k in names
    requires forall j | j != k :: t.Total(j) == t'.Total(j)
    ensures SumTotals(t', names) - SumTotals(t, names) == t'.Total(k) - t.Total(k)
  {
    var n := |names| - 1;
    if names[n] == k {
      SumTotalsFrame(t, t', names[..n]);
    } else {
      SumTotalsChange(t, t', names[..n], k);
    }
  }

  lemma {:induction false} AddOneSum(t: Tally, instance: string, e: TopEntry)
    requires t.Consistent()
    ensures var t' := t.AddOne(instance, e); SumTotals(t', t'.order) == SumTotals(t, t.order) + e.count
  {
    var t' := t.AddOne(instance, e);
    if e.name in t.totals {
      SumTotalsChange(t, t', t.order, e.name);
    } else {
      SumTotalsFrame(t, t', t.order);
      assert t'.order[..|t.order|] == t.order;
    }
  }

  lemma {:induction false} AddAllConsistent(t: Tally, instance: string, entries: seq<TopEntry>)
    requires t.Consistent()
    ensures AddAll(t, instance, entries).Consistent()
  {
    if entries != [] {
      var n := |entries| - 1;
      AddAllConsistent(t, instance, entries[..n]);
      AddOneConsistent(AddAll(t, instance, entries[..n]), instance, entries[n]);
    }
  }

  lemma {:induction false} AddAllTotal(t: Tally, instance: string, entries: seq<TopEntry>, k: string)
    ensures var r := AddAll(t, instance, entries);
            && r.Total(k) == t.Total(k) + CountIn(entries, k)
            && (k in r.totals <==> k in t.totals || NameIn(entries, k))
  {
    if entries != [] {
      AddAllTotal(t, instance, entries[..|entries| - 1], k);
    }
  }

  lemma {:induction false} AddAllSum(t: Tally, instance: string, entries: seq<TopEntry>)
    requires t.Consistent()
    ensures var r := AddAll(t, instance, entries);
            SumTotals(r, r.order) == SumTotals(t, t.order) + SumAll(entries)
  {
    if entries != [] {
      var n := |entries| - 1;
      AddAllConsistent(t, instance, entries[..n]);
      AddAllSum(t, instance, entries[..n]);
      AddOneSum(AddAll(t, instance, entries[..n]), instance, entries[n]);
    }
  }

  /** Adding a list adds, name by name, what the list counts; the order stays free of
      duplicates and complete, every total the sum of its parts; and nothing is counted
      twice or dropped. */
  lemma {:induction false} AddAllTotals(t: Tally, instance: string, entries: seq<TopEntry>)
    requires t.Consistent()
    ensures var r := AddAll(t, instance, entries);
            && r.Consistent()
            && (forall k :: r.Total(k) == t.Total(k) + CountIn(entries, k))
            && (forall k :: k in r.totals <==> k in t.totals || NameIn(entries, k))
            && SumTotals(r, r.order) == SumTotals(t, t.order) + SumAll(entries)
  {
    AddAllConsistent(t, instance, entries);
    AddAllSum(t, instance, entries);
    var r := AddAll(t, instance, entries);
    forall k: string
      ensures r.Total(k) == t.Total(k) + CountIn(entries, k)
      ensures k in r.totals <==> k in t.totals || NameIn(entries, k)
    {
      AddAllTotal(t, instance, entries, k);
    }
  }

  function Plain(rows: seq<MergedTopEntry>): (r: seq<TopEntry>)
    ensures |r| == |rows| && forall i | 0 <= i < |rows| :: r[i] == TopEntry(rows[i].name, rows[i].count)
  {
    seq(|rows|, i requires 0 <= i < |rows| => TopEntry(rows[i].name, rows[i].count))
  }

  predicate RowBefore(a: MergedTopEntry, b: MergedTopEntry)
  {
    if a.count != b.count then a.count > b.count else Less(a.name, b.name)
  }

  lemma {:induction false} InsertPlain(x: MergedTopEntry, s: seq<MergedTopEntry>)
    ensures Plain(Insert(x, s, RowBefore)) == Insert(TopEntry(x.name, x.count), Plain(s), Outranks)
  {
    if s != [] && RowBefore(s[0], x) {
      InsertPlain(x, s[1..]);
      assert Plain(s)[1..] == Plain(s[1..]);
      assert Plain([s[0]] + Insert(x, s[1..], RowBefore)) == [Plain(s)[0]] + Plain(Insert(x, s[1..], RowBefore));
    } else {
      assert Plain([x] + s) == [TopEntry(x.name, x.count)] + Plain(s);
    }
  }

  lemma {:induction false} SortPlain(s: seq<MergedTopEntry>)
    ensures Plain(SortStable(s, RowBefore)) == SortStable(Plain(s), Outranks)
  {
    if s != [] {
      SortPlain(s[1..]);
      InsertPlain(s[0], SortStable(s[1..], RowBefore));
      assert Plain(s)[1..] == Plain(s[1..]);
    }
  }

  function RowFor(t: Tally, name: string): (r: MergedTopEntry)
  {
    MergedTopEntry(name, t.Total(name), t.Parts(name))
  }

  lemma {:induction false} OrderIsRows(t: Tally, rows: seq<TopEntry>)
    requires t.Consistent() && |rows| == |t.order|
    requires forall i | 0 <= i < |rows| :: rows[i] == TopEntry(t.order[i], t.Total(t.order[i]))
    ensures RowsOf(rows, t.totals)
  {
    forall k | k in t.totals ensures TopEntry(k, t.totals[k]) in rows {
      var i :| 0 <= i < |t.order| && t.order[i] == k;
      assert rows[i] == TopEntry(k, t.totals[k]);
    }
    forall x | x in rows ensures x.name in t.totals && x.count == t.totals[x.name] {
      var i :| 0 <= i < |rows| && rows[i] == x;
      assert t.order[i] in t.order;
    }
  }

  lemma {:induction false} TopRows(t: Tally, rows: seq<MergedTopEntry>, n: nat)
    requires t.Consistent() && |rows| == |t.order|
    requires forall i | 0 <= i < |rows| :: rows[i] == RowFor(t, t.order[i])
    ensures TopOf(Plain(Take(SortStable(rows, RowBefore), n)), t.totals, n)
  {
    OrderIsRows(t, Plain(rows));
    SortedRowsAreTop(Plain(rows), t.totals, n);
    PlainSorted(rows, n);
  }

  lemma {:induction false} PlainSorted(rows: seq<MergedTopEntry>, n: nat)
    ensures Plain(Take(SortStable(rows, RowBefore), n)) == Take(SortStable(Plain(rows), Outranks), n)
  {
    SortPlain(rows);
    assert Plain(Take(SortStable(rows, RowBefore), n)) == Take(Plain(SortStable(rows, RowBefore)), n);
  }

  lemma {:induction false} RowsKeepParts(t: Tally, rows: seq<MergedTopEntry>, r: MergedTopEntry)
    requires t.Consistent() && |rows| == |t.order| && r in rows
    requires forall i | 0 <= i < |rows| :: rows[i] == RowFor(t, t.order[i])
    ensures r.name in t.perInstance && r.perInstance == t.perInstance[r.name]
  {
    var i :| 0 <= i < |rows| && rows[i] == r;
    assert t.order[i] in t.order;
  }

  /** Accumulates top lists across instances by key, keeping the per-instance breakdown. */
  class TopMerger {
    var totals: Counts
    var perInstance: map<string, seq<InstanceCount>>
    var order: seq<string>

    function Value(): (t: Tally)
      reads this
    {
      Tally(totals, perInstance, order)
    }

    constructor ()
      ensures Value() == Tally(map[], map[], [])
    {
      totals, perInstance, order := map[], map[], [];
    }

    method Add(instance: string, entries: seq<TopEntry>)
      modifies this
      ensures Value() == AddAll(old(Value()), instance, entries)
    {
      for i := 0 to |entries|
        invariant Value() == AddAll(old(Value()), instance, entries[..i])
      {
        var e := entries[i];
        assert entries[..i + 1][..i] == entries[..i];
        var total, parts := Value().Total(e.name), Value().Parts(e.name);
        if e.name !in totals {
          order := order + [e.name];
        }
        totals := totals[e.name := total + e.count];
        perInstance := perInstance[e.name := parts + [InstanceCount(instance, e.count)]];
      }
      assert entries[..|entries|] == entries;
    }

    method Top(n: nat) returns (rows: seq<MergedTopEntry>)
      requires Value().Consistent()
      ensures TopOf(Plain(rows), totals, n)
      ensures forall i | 0 <= i < |rows| :: rows[i].name in perInstance && rows[i].perInstance == perInstance[rows[i].name]
    {
      rows := [];
      for i := 0 to |order|
        invariant |rows| == i && forall j | 0 <= j < i :: rows[j] == RowFor(Value(), order[j])
      {
        rows := rows + [MergedTopEntry(order[i], totals[order[i]], perInstance[order[i]])];
      }
      TopRows(Value(), rows, n);
      forall r | r in SortStable(rows, RowBefore)
        ensures r.name in perInstance && r.perInstance == perInstance[r.name]
      {
        RowsKeepParts(Value(), rows, r);
      }
      rows := SortStable(rows, RowBefore);
      if |rows| > n {
        rows := rows[..n];
      }
    }
  }
}
