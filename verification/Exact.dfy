/** Exactly when a failure-free run pages through the one globally sorted log. */
module Exact {
  import opened Ordering
  import opened Text
  import opened QueryLog
  import opened Merge
  import opened Cursors
  import opened Logs
  import opened Runs
  import opened Safety
  import opened Resume
  import opened Separation
  import opened WholeRun

  /** A failure-free run that has come to its end. */
  ghost predicate Completed(u: Setup, logs: LogMap, events: seq<Event>)
  {
    Quiet(u, logs, events) && !Run(u, logs, events).more
  }

  /** Its pages, put together, are the sorted log. */
  ghost predicate ServesLog(u: Setup, logs: LogMap, events: seq<Event>)
  {
    Flat(Run(u, logs, events).merged) == GlobalLog(u, logs)
  }

  // ---------------------------------------------------------------- full pages

  ghost predicate FullButLast(merged: seq<seq<Item>>, more: bool, pageSize: nat)
  {
    forall p | 0 <= p < |merged| :: |merged[p]| <= pageSize && (p + 1 < |merged| || more ==> |merged[p]| == pageSize)
  }

  lemma {:induction false} PagesFull(u: Setup, logs: LogMap, events: seq<Event>, s: Session)
    requires u.Valid() && Quiet(u, logs, events) && s == Run(u, logs, events)
    ensures FullButLast(s.merged, s.more, u.pageSize)
  {
    if events != [] {
      var m := |events| - 1;
      var prev, e := Run(u, logs, events[..m]), events[m];
      assert events == events[..m] + [e];
      QuietAnswers(u, logs, events[..m], e);
      PagesFull(u, logs, events[..m], prev);
      if prev.more {
        AnsweredPage(u, prev, e.down);
        FullAppend(prev.merged, MergedAt(u, prev, e.down), s.more, u.pageSize);
      }
    }
  }

  lemma {:induction false} FullAppend(merged: seq<seq<Item>>, page: seq<Item>, more: bool, pageSize: nat)
    requires FullButLast(merged, true, pageSize) && |page| <= pageSize && (|page| < pageSize ==> !more)
    ensures FullButLast(merged + [page], more, pageSize)
  {
  }

  lemma {:induction false} FlatLength(merged: seq<seq<Item>>, pageSize: nat)
    requires forall p | 0 <= p < |merged| :: |merged[p]| <= pageSize
    ensures |Flat(merged)| <= Upto(|merged|, pageSize)
    ensures (forall p | 0 <= p < |merged| :: |merged[p]| == pageSize) ==> |Flat(merged)| == Upto(|merged|, pageSize)
  {
    if merged != [] {
      FlatLength(merged[..|merged| - 1], pageSize);
    }
  }

  lemma {:induction false} FlatSplit(merged: seq<seq<Item>>, q: nat)
    requires q <= |merged|
    ensures Flat(merged) == Flat(merged[..q]) + Flat(merged[q..])
  {
    var n := |merged| - 1;
    if q <= n {
      FlatSplit(merged[..n], q);
      assert merged[..n][..q] == merged[..q] && merged[..n][q..] == merged[q..][..n - q];
      ConcatAssociates(Flat(merged[..q]), Flat(merged[..n][q..]), merged[n]);
    } else {
      assert merged[..q] == merged;
    }
  }

  /** The pages up to a boundary of the log hold the log up to there. */
  lemma {:induction false} BoundaryPages(merged: seq<seq<Item>>, log: seq<Item>, more: bool, pageSize: nat, q: nat, m: nat)
    requires Flat(merged) == log && FullButLast(merged, more, pageSize)
    requires 1 <= pageSize && m == Upto(q, pageSize) < |log|
    ensures q <= |merged| && Flat(merged[..q]) == log[..m] && Flat(merged[q..]) == log[m..]
  {
    FlatLength(merged, pageSize);
    if |merged| <= q {
      UptoGrows(|merged|, q, pageSize);
    }
    FlatLength(merged[..q], pageSize);
    FlatSplit(merged, q);
  }

  // ---------------------------------------------------------------- what a boundary leaves behind

  /** What an instance serves on a page it had left. */
  lemma {:induction false} TakenFromLeft(u: Setup, s: Session, down: set<string>, n: string)
    requires u.Valid() && n in u.Selection()
    ensures forall x | x in MergedAt(u, s, down) && x.instance == n :: x in LeftOf(u, s, n)
  {
    OffersTaggedAt(u, s, down);
    TakenFromOffer(u.Selection(), OffersAt(u, s, down), u.pageSize, n);
    OfferOf(u, s, down, n);
    InTake(LeftOf(u, s, n), u.pageSize);
  }

  lemma {:induction false} TakenFromOffer(names: seq<string>, offers: map<string, seq<Item>>, pageSize: nat, n: string)
    requires Tagged(names, offers) && n in names
    ensures forall x | x in Merged(names, offers, pageSize) && x.instance == n :: x in offers[n]
  {
    FlattenFrom(names, offers, n);
    forall x | x in Merged(names, offers, pageSize) && x.instance == n ensures x in offers[n] {
      assert x in Keep(Flatten(names, offers), From(n));
    }
  }

  lemma {:induction false} InTake(s: seq<Item>, n: nat)
    ensures forall x | x in Take(s, n) :: x in s
  {
  }

  lemma {:induction false} ServedBound(u: Setup, logs: LogMap, events: seq<Event>, n: string, s: Session)
    requires u.Valid() && Fixed(events) && TextDownLogs(u, logs) && n in u.Selection() && s == Run(u, logs, events)
    ensures CountOf(Flat(s.merged), n) + |LeftOf(u, s, n)| <= |StreamOf(u, logs, n)|
  {
    if events != [] {
      var m := |events| - 1;
      var prev := Run(u, logs, events[..m]);
      ServedBound(u, logs, events[..m], n, prev);
      FixedLogs(u, logs, events[..m]);
      if prev.more {
        LoadTakes(u, prev, events[m].down, n);
        CountNext(prev.merged, MergedAt(u, prev, events[m].down), n);
      }
    } else {
      assert |LeftOf(u, s, n)| <= |StreamOf(u, logs, n)|;
    }
  }

  /** Under cursor `c`, held after `q` pages: the served entries leave room for what remains,
      and whatever is served later, or still left, was among it. */
  ghost predicate Behind(u: Setup, s: Session, n: string, q: nat, c: InstanceCursor)
    requires q <= |s.merged|
  {
    var rest := Remains(StreamOf(u, s.logs, n), c);
    && CountOf(Flat(s.merged[..q]), n) + |rest| <= |StreamOf(u, s.logs, n)|
    && (forall x | x in Flat(s.merged[q..]) && x.instance == n :: x in rest)
    && (forall x | x in LeftOf(u, s, n) :: x in rest)
  }

  lemma {:induction false} BehindStep(u: Setup, s: Session, down: set<string>, n: string, q: nat, c: InstanceCursor)
    requires u.Valid() && s.more && n in u.Selection() && TextDown(StreamOf(u, s.logs, n))
    requires q <= |s.merged| && Behind(u, s, n, q, c)
    ensures Behind(u, Step(u, s, Load(down)), n, q, c)
  {
    TakenFromLeft(u, s, down, n);
    LoadTakes(u, s, down, n);
    LaterPages(s.merged, MergedAt(u, s, down), q);
  }

  lemma {:induction false} LaterPages(merged: seq<seq<Item>>, page: seq<Item>, q: nat)
    requires q <= |merged|
    ensures (merged + [page])[..q] == merged[..q] && Flat((merged + [page])[q..]) == Flat(merged[q..]) + page
  {
    var later := (merged + [page])[q..];
    assert later == merged[q..] + [page] && later[..|merged| - q] == merged[q..];
  }

  lemma {:induction false} BoundaryCursor(u: Setup, logs: LogMap, events: seq<Event>, n: string, q: nat, s: Session)
    returns (c: InstanceCursor)
    requires u.Valid() && Fixed(events) && TextDownLogs(u, logs) && n in u.Selection()
    requires s == Run(u, logs, events) && q <= |s.merged|
    ensures Behind(u, s, n, q, c)
  {
    FixedLogs(u, logs, events);
    if q == |s.merged| {
      c := Lookup(s.prev, n);
      ServedBound(u, logs, events, n, s);
      LeftIsRemains(u, s, n);
      assert s.merged[..q] == s.merged && s.merged[q..] == [];
    } else {
      var m := |events| - 1;
      var prev := Run(u, logs, events[..m]);
      FixedLogs(u, logs, events[..m]);
      c := BoundaryCursor(u, logs, events[..m], n, q, prev);
      if prev.more {
        BehindStep(u, prev, events[m].down, n, q, c);
      }
    }
  }

  /** Served whole, what came before the boundary is newer by text than what came after. */
  lemma {:induction false} ServedAbove(stream: seq<Item>, earlier: seq<Item>, later: seq<Item>, c: InstanceCursor)
    requires SortStable(stream, Before) == earlier + later && |earlier| + |Remains(stream, c)| <= |stream|
    requires forall x | x in later :: x in Remains(stream, c)
    ensures Above(earlier, later)
  {
    if !c.d && c.o != "" {
      NoneOlder(stream, earlier, later, c.o);
      forall x, y | x in earlier && y in later ensures Less(y.rawTime, x.rawTime) {
        LessTotal(x.rawTime, c.o);
        if Less(c.o, x.rawTime) {
          LessTransitive(y.rawTime, c.o, x.rawTime);
        }
      }
    } else if !c.d {
      KeepAll(stream, OlderItem(c.o));
    }
  }

  lemma {:induction false} NoneOlder(stream: seq<Item>, earlier: seq<Item>, later: seq<Item>, o: string)
    requires SortStable(stream, Before) == earlier + later && o != ""
    requires |earlier| + |OlderThan(stream, o)| <= |stream| && forall x | x in later :: x in OlderThan(stream, o)
    ensures (forall x | x in earlier :: !Less(x.rawTime, o)) && (forall y | y in later :: Less(y.rawTime, o))
  {
    BeforeOrder();
    KeepSort(stream, OlderItem(o), Before);
    KeepAppend(earlier, later, OlderItem(o));
    KeepAll(later, OlderItem(o));
    forall x | x in earlier ensures !Less(x.rawTime, o) {
      assert x !in Keep(earlier, OlderItem(o));
    }
  }

  lemma {:induction false} SplitsWhereServed(u: Setup, logs: LogMap, events: seq<Event>, s: Session, q: nat, m: nat, log: seq<Item>)
    requires u.Valid() && Fixed(events) && TextDownLogs(u, logs) && s == Run(u, logs, events)
    requires Flat(s.merged) == log == GlobalLog(u, logs) && FullButLast(s.merged, s.more, u.pageSize)
    requires m == Upto(q, u.pageSize) < |log|
    ensures SplitsAt(log, m)
  {
    BoundaryPages(s.merged, log, s.more, u.pageSize, q, m);
    FixedLogs(u, logs, events);
    forall x, y | x in log[..m] && y in log[m..] && x.instance == y.instance ensures Less(y.rawTime, x.rawTime) {
      MembersSelected(u, logs, x);
      var n := x.instance;
      var c := BoundaryCursor(u, logs, events, n, q, s);
      GlobalKeeps(u, logs, n);
      KeepCut(log, m, n);
      ServedAbove(StreamOf(u, logs, n), Keep(log[..m], From(n)), Keep(log[m..], From(n)), c);
      assert x in Keep(log[..m], From(n)) && y in Keep(log[m..], From(n));
    }
  }

  lemma {:induction false} ServesOnlySeparated(u: Setup, logs: LogMap, events: seq<Event>)
    requires u.Valid() && Completed(u, logs, events) && TextDownLogs(u, logs) && ServesLog(u, logs, events)
    ensures Separated(GlobalLog(u, logs), u.pageSize)
  {
    var log, s := GlobalLog(u, logs), Run(u, logs, events);
    PagesFull(u, logs, events, s);
    forall q: nat | Upto(q, u.pageSize) <= |log| ensures SplitsAt(log, Upto(q, u.pageSize)) {
      if Upto(q, u.pageSize) < |log| {
        SplitsWhereServed(u, logs, events, s, q, Upto(q, u.pageSize), log);
      } else {
        assert log[|log|..] == [];
      }
    }
  }

  /** The protocol's promise at a page size, exactly: over logs that descend by text, a
      completed failure-free run serves the sorted log if and only if every page boundary of
      that log has, instance by instance, everything before it newer by text than everything
      after it. */
  lemma {:induction false} ServesLogIffSeparated(u: Setup, logs: LogMap, events: seq<Event>)
    requires u.Valid() && Completed(u, logs, events) && TextDownLogs(u, logs)
    ensures ServesLog(u, logs, events) <==> Separated(GlobalLog(u, logs), u.pageSize)
  {
    if Separated(GlobalLog(u, logs), u.pageSize) {
      PagesAreTheSortedLog(u, logs, events);
    }
    if ServesLog(u, logs, events) {
      ServesOnlySeparated(u, logs, events);
    }
  }

  // ---------------------------------------------------------------- where text and instants agree

  lemma {:induction false} NotNewer(stream: seq<Item>, i: nat, j: nat)
    requires TextDown(stream) && i <= j < |stream|
    ensures !Less(stream[i].rawTime, stream[j].rawTime)
  {
    LessTotal(stream[i].rawTime, stream[i].rawTime);
  }

  lemma {:induction false} EqualBetween(stream: seq<Item>, i: nat, k: nat, j: nat)
    requires TextDown(stream) && i < k <= j < |stream| && stream[i].rawTime == stream[j].rawTime
    ensures stream[k - 1].rawTime == stream[k].rawTime
  {
    NotNewer(stream, i, k - 1);
    NotNewer(stream, k - 1, k);
    NotNewer(stream, k, j);
    ChainEqual(stream[i].rawTime, stream[k - 1].rawTime, stream[k].rawTime);
  }

  lemma {:induction false} TiedAcross(log: seq<Item>, m: nat, n: string, i: nat, j: nat)
    requires Sorted(log, Before) && m <= |log| && Orderly(Keep(log, From(n)))
    requires i < CountOf(log[..m], n) <= j < CountOf(log, n)
    requires Keep(log, From(n))[i].rawTime == Keep(log, From(n))[j].rawTime
    ensures 0 < m < |log| && Tied(log[m - 1], log[m])
  {
    EqualBetween(Keep(log, From(n)), i, CountOf(log[..m], n), j);
    CutOfTies(log, m, n);
  }

  lemma {:induction false} Positions(a: seq<Item>, b: seq<Item>, x: Item, y: Item) returns (i: nat, j: nat)
    requires x in a && y in b
    ensures i < |a| <= j < |a + b| && (a + b)[i] == x && (a + b)[j] == y
  {
    i :| i < |a| && a[i] == x;
    var t: nat :| t < |b| && b[t] == y;
    j := |a| + t;
  }

  lemma {:induction false} UntiedSplits(log: seq<Item>, m: nat, n: string, x: Item, y: Item)
    requires Sorted(log, Before) && m <= |log| && (0 < m < |log| ==> !Tied(log[m - 1], log[m]))
    requires Orderly(Keep(log, From(n))) && x in log[..m] && y in log[m..] && x.instance == y.instance == n
    ensures Less(y.rawTime, x.rawTime)
  {
    var stream := Keep(log, From(n));
    KeepCut(log, m, n);
    var i, j := Positions(Keep(log[..m], From(n)), Keep(log[m..], From(n)), x, y);
    NotNewer(stream, i, j);
    LessTotal(x.rawTime, y.rawTime);
    if x.rawTime == y.rawTime {
      TiedAcross(log, m, n, i, j);
    }
  }

  lemma {:induction false} UntiedSplitsAt(u: Setup, logs: LogMap, log: seq<Item>, m: nat)
    requires u.Valid() && OrderlyLogs(u, logs) && log == GlobalLog(u, logs) && Sorted(log, Before)
    requires m <= |log| && (0 < m < |log| ==> !Tied(log[m - 1], log[m]))
    ensures SplitsAt(log, m)
  {
    forall x, y | x in log[..m] && y in log[m..] && x.instance == y.instance ensures Less(y.rawTime, x.rawTime) {
      MembersSelected(u, logs, x);
      GlobalKeeps(u, logs, x.instance);
      UntiedSplits(log, m, x.instance, x, y);
    }
  }

  lemma {:induction false} UntiedSeparates(u: Setup, logs: LogMap)
    requires u.Valid() && OrderlyLogs(u, logs) && Untied(GlobalLog(u, logs), u.pageSize)
    ensures Separated(GlobalLog(u, logs), u.pageSize)
  {
    var log := GlobalLog(u, logs);
    GlobalIsSortOf(u, logs);
    SortOfIsSorted(log, u.Selection(), Streams(u, logs));
    forall q: nat | Upto(q, u.pageSize) <= |log| ensures SplitsAt(log, Upto(q, u.pageSize)) {
      UntiedSplitsAt(u, logs, log, Upto(q, u.pageSize));
    }
  }

  lemma {:induction false} SeparatedIsUntied(log: seq<Item>, pageSize: nat)
    requires Separated(log, pageSize)
    ensures Untied(log, pageSize)
  {
    forall q: nat | 0 < Upto(q, pageSize) < |log| ensures !Tied(log[Upto(q, pageSize) - 1], log[Upto(q, pageSize)]) {
      var m := Upto(q, pageSize);
      assert log[..m][m - 1] in log[..m] && log[m..][0] in log[m..];
      LessTotal(log[m].rawTime, log[m].rawTime);
    }
  }

  /** Ties, exactly, for every page size: where text order agrees with the instants, a
      completed failure-free run serves the sorted log if and only if no page boundary of
      that log falls between two entries of one instance with one timestamp. */
  lemma {:induction false} ServesLogIffUntied(u: Setup, logs: LogMap, events: seq<Event>)
    requires u.Valid() && Completed(u, logs, events) && OrderlyLogs(u, logs)
    ensures ServesLog(u, logs, events) <==> Untied(GlobalLog(u, logs), u.pageSize)
  {
    ServesLogIffSeparated(u, logs, events);
    if Untied(GlobalLog(u, logs), u.pageSize) {
      UntiedSeparates(u, logs);
    }
    if Separated(GlobalLog(u, logs), u.pageSize) {
      SeparatedIsUntied(GlobalLog(u, logs), u.pageSize);
    }
  }

  lemma {:induction false} StrictSeparates(u: Setup, logs: LogMap)
    requires u.Valid() && OrderlyLogs(u, logs) && StrictLogs(u, logs)
    ensures Separated(GlobalLog(u, logs), u.pageSize)
  {
    StrictIsUntied(u, logs);
    UntiedSeparates(u, logs);
  }

  // ---------------------------------------------------------------- pages of one entry

  ghost predicate Descending(s: seq<Item>)
  {
    forall i, j | 0 <= i < j < |s| :: Less(s[j].rawTime, s[i].rawTime)
  }

  /** A strictly descending stream in merge order has no ties, and text and instants agree. */
  lemma {:induction false} SortedDescending(stream: seq<Item>, n: string)
    requires TextDown(stream) && Descending(stream) && Sorted(stream, Before)
    requires forall it | it in stream :: it.instance == n
    ensures Orderly(stream) && Strict(stream)
  {
    forall i, j | 0 <= i < j < |stream|
      ensures stream[i].rawTime != stream[j].rawTime && stream[j].parsedTime < stream[i].parsedTime
    {
      LessTotal(stream[i].rawTime, stream[j].rawTime);
      assert !Before(stream[j], stream[i]);
      assert stream[i] in stream && stream[j] in stream;
    }
  }

  /** Some cut of the log comes after the first `k` entries of an instance. */
  lemma {:induction false} CutAfter(log: seq<Item>, n: string, k: nat) returns (m: nat)
    requires k <= CountOf(log, n)
    ensures m <= |log| && CountOf(log[..m], n) == k
  {
    if log == [] || k == CountOf(log, n) {
      m := |log|;
      assert log[..m] == log;
    } else {
      var l := |log| - 1;
      assert log == log[..l] + [log[l]];
      KeepAppend(log[..l], [log[l]], From(n));
      m := CutAfter(log[..l], n, k);
      assert log[..l][..m] == log[..m];
    }
  }

  lemma {:induction false} UptoOne(q: nat)
    ensures Upto(q, 1) == q
  {
    if q > 0 {
      UptoOne(q - 1);
    }
  }

  /** At page size 1 every entry of an instance is split from the next. */
  lemma {:induction false} SinglesAbove(log: seq<Item>, n: string, k: nat)
    requires Separated(log, 1) && k <= CountOf(log, n)
    ensures Above(Keep(log, From(n))[..k], Keep(log, From(n))[k..])
  {
    var m := CutAfter(log, n, k);
    UptoOne(m);
    assert SplitsAt(log, Upto(m, 1));
    KeepCut(log, m, n);
  }

  lemma {:induction false} SinglesDescend(log: seq<Item>, n: string)
    requires Separated(log, 1)
    ensures Descending(Keep(log, From(n)))
  {
    var s := Keep(log, From(n));
    forall i, j | 0 <= i < j < |s| ensures Less(s[j].rawTime, s[i].rawTime) {
      SinglesAbove(log, n, j);
      assert s[..j][i] in s[..j] && s[j..][0] in s[j..];
    }
  }

  /** Sorting then moves nothing. */
  lemma {:induction false} SingleInPlace(stream: seq<Item>, s: seq<Item>, k: nat)
    requires TextDown(stream) && s == SortStable(stream, Before) && Descending(s) && k < |s|
    ensures k < |stream| && stream[k] == s[k]
  {
    var a, b, ab, c := s[..k], [s[k]], s[..k + 1], s[k + 1..];
    DescendingAbove(s, k);
    DescendingAbove(s, k + 1);
    assert s == ab + c && ab == a + b && s[k] in s[k..];
    assert Above(a, b);
    SortedMiddle(stream, a, b, ab, c);
    assert stream[k..k + 1] == [stream[k]] && SortStable([stream[k]], Before) == [stream[k]];
  }

  lemma {:induction false} DescendingAbove(s: seq<Item>, k: nat)
    requires Descending(s) && k <= |s|
    ensures Above(s[..k], s[k..])
  {
    forall x, y | x in s[..k] && y in s[k..] ensures Less(y.rawTime, x.rawTime) {
      var i :| 0 <= i < k && s[..k][i] == x;
      var j :| 0 <= j < |s| - k && s[k..][j] == y;
      assert s[i] == x && s[k + j] == y;
    }
  }

  lemma {:induction false} SinglesAgree(log: seq<Item>, n: string, stream: seq<Item>)
    requires Separated(log, 1) && TextDown(stream) && Keep(log, From(n)) == SortStable(stream, Before)
    requires forall it | it in stream :: it.instance == n
    ensures Orderly(stream) && Strict(stream)
  {
    var s := Keep(log, From(n));
    SinglesDescend(log, n);
    forall k | 0 <= k < |s| ensures stream[k] == s[k] {
      SingleInPlace(stream, s, k);
    }
    assert stream == s;
    BeforeOrder();
    SortedByClass(stream, Before);
    SortedDescending(stream, n);
  }

  /** Pages of one entry need all there is to ask for: over logs that descend by text, a
      completed failure-free run serves the sorted log if and only if in every instance text
      order agrees with the instants and no timestamp repeats. */
  lemma {:induction false} SinglesServeLogIff(u: Setup, logs: LogMap, events: seq<Event>)
    requires u.Valid() && u.pageSize == 1 && Completed(u, logs, events) && TextDownLogs(u, logs)
    ensures ServesLog(u, logs, events) <==> OrderlyLogs(u, logs) && StrictLogs(u, logs)
  {
    ServesLogIffSeparated(u, logs, events);
    if OrderlyLogs(u, logs) && StrictLogs(u, logs) {
      StrictSeparates(u, logs);
    }
    if Separated(GlobalLog(u, logs), 1) {
      forall n | n in u.Selection() ensures Orderly(StreamOf(u, logs, n)) && Strict(StreamOf(u, logs, n)) {
        GlobalKeeps(u, logs, n);
        SinglesAgree(GlobalLog(u, logs), n, StreamOf(u, logs, n));
      }
    }
  }

  // ---------------------------------------------------------------- every page size

  lemma {:induction false} QuietNeverFails(u: Setup, logs: LogMap, events: seq<Event>, s: Session)
    requires Quiet(u, logs, events) && s == Run(u, logs, events)
    ensures FailedPages(s.pages) == 0
  {
    if events != [] {
      var m := |events| - 1;
      var prev, e := Run(u, logs, events[..m]), events[m];
      assert events == events[..m] + [e];
      QuietAnswers(u, logs, events[..m], e);
      QuietNeverFails(u, logs, events[..m], prev);
      if prev.more {
        StepCounts(u, prev, e.down);
      }
    }
  }

  /** Asking often enough completes a failure-free run. */
  lemma {:induction false} QuietEnds(u: Setup, logs: LogMap) returns (events: seq<Event>)
    requires u.Valid() && TextDownLogs(u, logs) && forall n | n in u.Selection() :: n in logs
    ensures Completed(u, logs, events)
  {
    var bound := FullPages(Total(u, Streams(u, logs)), u.pageSize) + 1;
    events := Loads(bound);
    PageBound(u, logs, events);
    QuietNeverFails(u, logs, events, Run(u, logs, events));
  }

  function Loads(k: nat): (events: seq<Event>)
    ensures |events| == k && forall i | 0 <= i < k :: events[i] == Load({})
  {
    seq(k, _ => Load({}))
  }

  /** Whatever the page size, a completed failure-free run serves the sorted log. */
  ghost predicate AlwaysServesLog(u: Setup, logs: LogMap)
  {
    forall pageSize: nat, events | 1 <= pageSize && Completed(u.(pageSize := pageSize), logs, events) ::
      ServesLog(u.(pageSize := pageSize), logs, events)
  }

  lemma {:induction false} SameStreams(u: Setup, logs: LogMap, pageSize: nat)
    ensures var v := u.(pageSize := pageSize);
            && v.Selection() == u.Selection()
            && (forall n :: StreamOf(v, logs, n) == StreamOf(u, logs, n))
            && (OrderlyLogs(v, logs) <==> OrderlyLogs(u, logs))
            && (StrictLogs(v, logs) <==> StrictLogs(u, logs))
  {
  }

  /** The protocol's promise, exactly: over logs that descend by text, failure-free runs
      serve the sorted log at every page size if and only if in every selected instance text
      order agrees with the instants and no timestamp repeats. */
  lemma {:induction false} AlwaysServesLogIff(u: Setup, logs: LogMap)
    requires Distinct(u.clients) && TextDownLogs(u, logs) && forall n | n in u.Selection() :: n in logs
    ensures AlwaysServesLog(u, logs) <==> OrderlyLogs(u, logs) && StrictLogs(u, logs)
  {
    if OrderlyLogs(u, logs) && StrictLogs(u, logs) {
      forall pageSize: nat, events | 1 <= pageSize && Completed(u.(pageSize := pageSize), logs, events)
        ensures ServesLog(u.(pageSize := pageSize), logs, events)
      {
        SameStreams(u, logs, pageSize);
        StrictSeparates(u.(pageSize := pageSize), logs);
        ServesLogIffSeparated(u.(pageSize := pageSize), logs, events);
      }
    }
    if AlwaysServesLog(u, logs) {
      var v := u.(pageSize := 1);
      SameStreams(u, logs, 1);
      var events := QuietEnds(v, logs);
      assert ServesLog(v, logs, events);
      SinglesServeLogIff(v, logs, events);
    }
  }
}
