/** What the books of a run mean: served segments, and exactly which entries a tie loses. */
module Safety {
  import opened Ordering
  import opened Text
  import opened QueryLog
  import opened Cursors
  import opened Runs

  /** Everything served from an instance so far, in the order it was served. */
  function Served(s: Session, n: string): (r: seq<Item>)
  {
    Flat(TakenFrom(s.merged, n))
  }

  /** The position just after page `p`'s consumed prefix, counted from the first page. */
  function CutPoint(taken: seq<seq<Item>>, lost: seq<seq<Item>>, p: nat): (q: nat)
    requires |taken| == |lost| && p < |taken|
  {
    |Woven(taken[..p], lost[..p])| + |taken[p]|
  }

  lemma {:induction false} Slices<T>(s: seq<T>, p: nat)
    requires p + 1 < |s|
    ensures s[..|s| - 1][..p] == s[..p]
    ensures s[..|s| - 1][p + 1..] == s[p + 1..][..|s| - p - 2]
    ensures s[p + 1..][|s| - p - 2] == s[|s| - 1] && s[..|s| - 1][p] == s[p]
  {
  }

  lemma {:induction false} WovenSplit(taken: seq<seq<Item>>, lost: seq<seq<Item>>, p: nat)
    requires |taken| == |lost| && p < |taken|
    ensures Woven(taken, lost)
         == Woven(taken[..p], lost[..p]) + taken[p] + lost[p] + Woven(taken[p + 1..], lost[p + 1..])
  {
    var n := |taken| - 1;
    if p < n {
      WovenSplit(taken[..n], lost[..n], p);
      Slices(taken, p);
      Slices(lost, p);
      var x, y := Woven(taken[..p], lost[..p]) + taken[p] + lost[p], Woven(taken[..n][p + 1..], lost[..n][p + 1..]);
      assert x + y + taken[n] + lost[n] == x + (y + taken[n] + lost[n]);
    } else {
      assert taken[p + 1..] == [] && lost[p + 1..] == [];
    }
  }

  /** A page loses entries exactly when its cut falls between two equal timestamps. */
  lemma {:induction false} LostIffCutSplitsTie(stream: seq<Item>, taken: seq<seq<Item>>, c: InstanceCursor, led: Ledger, p: nat)
    requires Accounts(stream, taken, c, led) && led.newer == [] && p < |taken|
    ensures var q := CutPoint(taken, led.lost, p);
            && q <= |stream|
            && (led.lost[p] != [] <==>
                  taken[p] != [] && q < |stream| && stream[q].rawTime == stream[q - 1].rawTime)
  {
    var w, rest := Woven(taken[..p], led.lost[..p]), After(taken, led, p);
    WovenSplit(taken, led.lost, p);
    assert stream == w + taken[p] + (led.lost[p] + rest);
    assert TieExact(taken, led, p);
    if taken[p] != [] {
      CutBetween(w, taken[p], led.lost[p], rest);
    }
  }

  lemma {:induction false} CutBetween(w: seq<Item>, a: seq<Item>, l: seq<Item>, rest: seq<Item>)
    requires a != [] && forall x | x in l :: x.rawTime == a[|a| - 1].rawTime
    requires forall x | x in rest :: Less(x.rawTime, a[|a| - 1].rawTime)
    ensures var s, q := w + a + (l + rest), |w| + |a|;
            l != [] <==> q < |s| && s[q].rawTime == s[q - 1].rawTime
  {
    var s, q := w + a + (l + rest), |w| + |a|;
    assert s[q - 1] == a[|a| - 1];
    LessTotal(a[|a| - 1].rawTime, a[|a| - 1].rawTime);
    if l != [] {
      assert s[q] == l[0] && l[0] in l;
    } else if rest != [] {
      assert s[q] == rest[0] && rest[0] in rest;
    }
  }

  lemma {:induction false} WovenUnlost(taken: seq<seq<Item>>, lost: seq<seq<Item>>)
    requires |taken| == |lost| && forall p | 0 <= p < |lost| :: lost[p] == []
    ensures Woven(taken, lost) == Flat(taken)
  {
    if taken != [] {
      WovenUnlost(taken[..|taken| - 1], lost[..|lost| - 1]);
    }
  }

  lemma {:induction false} WovenCounts(taken: seq<seq<Item>>, lost: seq<seq<Item>>)
    requires |taken| == |lost|
    ensures multiset(Woven(taken, lost)) == multiset(Flat(taken)) + multiset(Flat(lost))
    ensures |Woven(taken, lost)| == |Flat(taken)| + |Flat(lost)|
  {
    if taken != [] {
      var n := |taken| - 1;
      WovenCounts(taken[..n], lost[..n]);
    }
  }

  lemma {:induction false} FlatNil(pages: seq<seq<Item>>)
    ensures Flat(pages) == [] <==> forall p | 0 <= p < |pages| :: pages[p] == []
  {
    if pages != [] {
      var n := |pages| - 1;
      FlatNil(pages[..n]);
      assert pages == pages[..n] + [pages[n]];
    }
  }

  lemma {:induction false} TieBreaksStrict(w: seq<Item>, a: seq<Item>, l: seq<Item>, rest: seq<Item>)
    requires a != [] && l != [] && l[0].rawTime == a[|a| - 1].rawTime
    ensures !Strict(w + a + l + rest)
  {
    var s, i := w + a + l + rest, |w| + |a|;
    assert s[i - 1] == a[|a| - 1] && s[i] == l[0];
  }

  lemma {:induction false} Regroup(newer: seq<Item>, w: seq<Item>, a: seq<Item>, l: seq<Item>, v: seq<Item>, older: seq<Item>)
    ensures newer + (w + a + l + v) + older == (newer + w) + a + l + (v + older)
  {
  }

  /** Without equal timestamps in the instance's stream no page loses anything. */
  lemma {:induction false} StrictLosesNothing(stream: seq<Item>, taken: seq<seq<Item>>, c: InstanceCursor, led: Ledger)
    requires Accounts(stream, taken, c, led) && Strict(stream)
    ensures forall p | 0 <= p < |taken| :: led.lost[p] == []
    ensures Woven(taken, led.lost) == Flat(taken)
  {
    forall p | 0 <= p < |taken| ensures led.lost[p] == [] {
      assert TieExact(taken, led, p);
      if led.lost[p] != [] {
        var w, v := Woven(taken[..p], led.lost[..p]), Woven(taken[p + 1..], led.lost[p + 1..]);
        WovenSplit(taken, led.lost, p);
        Regroup(led.newer, w, taken[p], led.lost[p], v, led.older);
        assert led.lost[p][0] in led.lost[p];
        TieBreaksStrict(led.newer + w, taken[p], led.lost[p], v + led.older);
      }
    }
    WovenUnlost(taken, led.lost);
  }

  /** Safety of every run: whatever failed and whatever arrived, the entries served from an
      instance without equal timestamps are one contiguous stretch of its stream, newest
      first; its cursor is the raw time of the last of them; entries on the newer side are
      among those logged since the run began; and once exhausted, nothing on the older side
      is left. */
  lemma {:induction false} ServedIsSegment(u: Setup, logs: LogMap, events: seq<Event>, n: string)
    returns (newer: seq<Item>, older: seq<Item>)
    requires u.Valid() && n in u.Selection()
    requires var stream := StreamOf(u, FinalLogs(u, logs, events), n); Pageable(stream, u.pageSize) && Strict(stream)
    ensures var s := Run(u, logs, events);
            var c := Lookup(s.prev, n);
            && StreamOf(u, s.logs, n) == newer + Served(s, n) + older
            && c.o == (if Served(s, n) == [] then "" else Served(s, n)[|Served(s, n)| - 1].rawTime)
            && (c.d ==> older == [])
            && StreamOf(u, s.logs, n) == Arrivals(u, logs, events, n) + StreamOf(u, logs, n)
            && newer <= Arrivals(u, logs, events, n)
  {
    var led := EveryRunBalances(u, logs, events, n);
    var s := Run(u, logs, events);
    StrictLosesNothing(StreamOf(u, s.logs, n), TakenFrom(s.merged, n), Lookup(s.prev, n), led);
    LastRawFlat(TakenFrom(s.merged, n));
    newer, older := led.newer, led.older;
  }

  lemma {:induction false} LastRawFlat(taken: seq<seq<Item>>)
    ensures LastRaw(taken) == if Flat(taken) == [] then "" else Flat(taken)[|Flat(taken)| - 1].rawTime
  {
    if taken != [] {
      var n := |taken| - 1;
      LastRawFlat(taken[..n]);
      assert Flat(taken) == Flat(taken[..n]) + taken[n];
    }
  }

  /** A failing or exhausted instance keeps its cursor and serves nothing. */
  lemma {:induction false} FailureKeepsCursor(u: Setup, s: Session, down: set<string>, n: string)
    requires u.Valid() && s.more && n in u.Selection()
    requires n in down || n !in s.logs || Lookup(s.prev, n).d
    ensures var s' := Step(u, s, Load(down));
            && Lookup(s'.prev, n) == Lookup(s.prev, n)
            && Served(s', n) == Served(s, n)
  {
    OffersTaggedAt(u, s, down);
    TakenPrefix(u.Selection(), OffersAt(u, s, down), u.pageSize, n);
    TakenAppend(s.merged, MergedAt(u, s, down), n);
    FlatAppend(TakenFrom(s.merged, n), []);
  }

  lemma {:induction false} FlatAppend(pages: seq<seq<Item>>, page: seq<Item>)
    ensures Flat(pages + [page]) == Flat(pages) + page
  {
    assert (pages + [page])[..|pages|] == pages;
  }

  ghost predicate Fixed(events: seq<Event>)
  {
    forall i | 0 <= i < |events| :: events[i].Load?
  }

  lemma {:induction false} FixedLogs(u: Setup, logs: LogMap, events: seq<Event>)
    requires Fixed(events)
    ensures FinalLogs(u, logs, events) == logs
  {
    if events != [] {
      FixedLogs(u, logs, events[..|events| - 1]);
    }
  }

  /** What page `p` lost: something exactly when its cut falls between two equal timestamps,
      and then the entries beyond the cut that carry the last consumed timestamp, all of
      them, since everything handled later is older. */
  ghost predicate PageLoss(stream: seq<Item>, taken: seq<seq<Item>>, lost: seq<seq<Item>>, p: nat)
    requires |taken| == |lost| && p < |taken|
  {
    var q := CutPoint(taken, lost, p);
    && q <= |stream|
    && (lost[p] != [] <==> taken[p] != [] && q < |stream| && stream[q].rawTime == stream[q - 1].rawTime)
    && (taken[p] != [] ==>
          var o := taken[p][|taken[p]| - 1].rawTime;
          && (forall x | x in lost[p] :: x.rawTime == o)
          && (forall x | x in Woven(taken[p + 1..], lost[p + 1..]) :: Less(x.rawTime, o)))
  }

  lemma {:induction false} PageLossHolds(stream: seq<Item>, taken: seq<seq<Item>>, c: InstanceCursor, led: Ledger, p: nat)
    requires Accounts(stream, taken, c, led) && led.newer == led.older == [] && p < |taken|
    ensures PageLoss(stream, taken, led.lost, p)
  {
    LostIffCutSplitsTie(stream, taken, c, led, p);
    assert TieExact(taken, led, p);
    assert After(taken, led, p) == Woven(taken[p + 1..], led.lost[p + 1..]);
  }

  /** No page cut between two equal timestamps. */
  ghost predicate NoTieCut(stream: seq<Item>, taken: seq<seq<Item>>, lost: seq<seq<Item>>)
    requires |taken| == |lost|
  {
    forall p | 0 <= p < |taken| && taken[p] != [] ::
      var q := CutPoint(taken, lost, p);
      q < |stream| ==> stream[q].rawTime != stream[q - 1].rawTime
  }

  lemma {:induction false} NothingLostIff(stream: seq<Item>, taken: seq<seq<Item>>, lost: seq<seq<Item>>)
    requires |taken| == |lost| && forall p | 0 <= p < |taken| :: PageLoss(stream, taken, lost, p)
    ensures NoTieCut(stream, taken, lost) <==> Flat(lost) == []
  {
    FlatNil(lost);
    forall p | 0 <= p < |taken|
      ensures lost[p] == [] <==> taken[p] == [] || var q := CutPoint(taken, lost, p);
                                                  q < |stream| ==> stream[q].rawTime != stream[q - 1].rawTime
    {
      assert PageLoss(stream, taken, lost, p);
    }
  }

  lemma {:induction false} WholeIffNoTieCut(stream: seq<Item>, taken: seq<seq<Item>>, lost: seq<seq<Item>>)
    requires |taken| == |lost| && stream == Woven(taken, lost)
    requires forall p | 0 <= p < |taken| :: PageLoss(stream, taken, lost, p)
    ensures Flat(taken) == stream <==> NoTieCut(stream, taken, lost)
  {
    NothingLostIff(stream, taken, lost);
    WovenCounts(taken, lost);
    FlatNil(lost);
    if Flat(lost) == [] {
      WovenUnlost(taken, lost);
    }
  }

  /** Ties, exactly. Over fixed logs that may repeat timestamps, with any failures, once an
      instance is exhausted its stream is what was served plus what was lost, page by page,
      each entry once; every page's loss is as `PageLoss` says; and so it was served whole
      exactly when no page cut a tie. */
  lemma {:induction false} TieLossExact(u: Setup, logs: LogMap, events: seq<Event>, n: string) returns (lost: seq<seq<Item>>)
    requires u.Valid() && n in u.Selection() && Fixed(events)
    requires Pageable(StreamOf(u, logs, n), u.pageSize)
    requires Lookup(Run(u, logs, events).prev, n).d
    ensures var stream, taken := StreamOf(u, logs, n), TakenFrom(Run(u, logs, events).merged, n);
            && |lost| == |taken|
            && stream == Woven(taken, lost)
            && multiset(stream) == multiset(Flat(taken)) + multiset(Flat(lost))
            && (forall p | 0 <= p < |taken| :: PageLoss(stream, taken, lost, p))
            && (Flat(taken) == stream <==> NoTieCut(stream, taken, lost))
  {
    FixedLogs(u, logs, events);
    var led := EveryRunBalances(u, logs, events, n);
    var s := Run(u, logs, events);
    lost := led.lost;
    TieLossBooked(StreamOf(u, logs, n), TakenFrom(s.merged, n), Lookup(s.prev, n), led);
  }

  lemma {:induction false} TieLossBooked(stream: seq<Item>, taken: seq<seq<Item>>, c: InstanceCursor, led: Ledger)
    requires Accounts(stream, taken, c, led) && led.newer == led.older == []
    ensures |led.lost| == |taken| && stream == Woven(taken, led.lost)
    ensures multiset(stream) == multiset(Flat(taken)) + multiset(Flat(led.lost))
    ensures forall p | 0 <= p < |taken| :: PageLoss(stream, taken, led.lost, p)
    ensures Flat(taken) == stream <==> NoTieCut(stream, taken, led.lost)
  {
    assert stream == Woven(taken, led.lost);
    WovenCounts(taken, led.lost);
    forall p | 0 <= p < |taken| ensures PageLoss(stream, taken, led.lost, p) {
      PageLossHolds(stream, taken, c, led, p);
    }
    WholeIffNoTieCut(stream, taken, led.lost);
  }

  lemma {:induction false} OlderThanCut(stream: seq<Item>, i: nat, o: string)
    requires i <= |stream| && o != ""
    requires forall x | x in stream[..i] :: !Less(x.rawTime, o)
    requires forall x | x in stream[i..] :: Less(x.rawTime, o)
    ensures OlderThan(stream, o) == stream[i..]
  {
    var pre, rest := stream[..i], stream[i..];
    assert stream == pre + rest;
    KeepAppend(pre, rest, OlderItem(o));
    KeepNone(pre, OlderItem(o));
    KeepAll(rest, OlderItem(o));
  }

  lemma {:induction false} TieRunEnds(stream: seq<Item>, k: nat, t: nat)
    requires 0 < k <= |stream| && t == TieRun(stream[k..], stream[k - 1].rawTime)
    ensures k + t <= |stream|
    ensures forall i | k <= i < k + t :: stream[i].rawTime == stream[k - 1].rawTime
    ensures k + t < |stream| ==> stream[k + t].rawTime != stream[k - 1].rawTime
  {
    var rest := stream[k..];
    assert forall i | k <= i < |stream| :: stream[i] == rest[i - k];
  }

  /** A request for what is older than the `k`-th entry resumes after those tied with it. */
  lemma {:induction false} NextRequestSkipsTies(stream: seq<Item>, k: nat, t: nat)
    requires TextDown(stream) && 0 < k <= |stream| && t == TieRun(stream[k..], stream[k - 1].rawTime)
    ensures k + t <= |stream| && OlderThan(stream, stream[k - 1].rawTime) == stream[k + t..]
  {
    TieRunEnds(stream, k, t);
    SplitAtTie(stream, k, t);
    OlderThanCut(stream, k + t, stream[k - 1].rawTime);
  }

  /** One request seen alone: asking for what is older than the `k`-th entry resumes right
      after it exactly when the next entry has another timestamp. */
  lemma {:induction false} NextRequestResumesIff(stream: seq<Item>, k: nat)
    requires TextDown(stream) && 0 < k <= |stream|
    ensures OlderThan(stream, stream[k - 1].rawTime) == stream[k..]
       <==> k == |stream| || stream[k].rawTime != stream[k - 1].rawTime
  {
    var t := TieRun(stream[k..], stream[k - 1].rawTime);
    NextRequestSkipsTies(stream, k, t);
    assert |stream[k + t..]| == |stream[k..]| - t;
    assert k < |stream| ==> stream[k..][0] == stream[k];
  }
}
