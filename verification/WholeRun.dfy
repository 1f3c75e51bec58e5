/** Runs over fixed logs: the page bound, and that failure-free runs page through the one
    globally sorted log. */
module WholeRun {
  import opened Ordering
  import opened Text
  import opened QueryLog
  import opened Merge
  import opened Cursors
  import opened Logs
  import opened Runs
  import opened Safety
  import opened Resume
  import opened Separation

  // ---------------------------------------------------------------- what is left

  /** What an instance has yet to serve. */
  function LeftOf(u: Setup, s: Session, n: string): (r: seq<Item>)
  {
    var c := Lookup(s.prev, n);
    if c.d then [] else OlderThan(StreamOf(u, s.logs, n), c.o)
  }

  function Left(u: Setup, s: Session): (m: map<string, seq<Item>>)
  {
    map n | n in u.Selection() :: LeftOf(u, s, n)
  }

  function Streams(u: Setup, logs: LogMap): (m: map<string, seq<Item>>)
  {
    map n | n in u.Selection() :: StreamOf(u, logs, n)
  }

  function Total(u: Setup, m: map<string, seq<Item>>): (n: nat)
    requires Covers(u.Selection(), m)
  {
    |Flatten(u.Selection(), m)|
  }

  ghost predicate OrderlyLogs(u: Setup, logs: LogMap)
  {
    forall n | n in u.Selection() :: Orderly(StreamOf(u, logs, n))
  }

  ghost predicate TextDownLogs(u: Setup, logs: LogMap)
  {
    forall n | n in u.Selection() :: TextDown(StreamOf(u, logs, n))
  }

  ghost predicate PageableLogs(u: Setup, logs: LogMap)
  {
    forall n | n in u.Selection() :: Pageable(StreamOf(u, logs, n), u.pageSize)
  }

  ghost predicate StrictLogs(u: Setup, logs: LogMap)
  {
    forall n | n in u.Selection() :: Strict(StreamOf(u, logs, n))
  }

  /** The books of instance `n`, after a run over fixed logs. */
  lemma {:induction false} FixedBalance(u: Setup, logs: LogMap, events: seq<Event>, n: string) returns (led: Ledger)
    requires u.Valid() && Fixed(events) && PageableLogs(u, logs) && n in u.Selection()
    ensures var s := Run(u, logs, events);
            && s.logs == logs
            && led.newer == [] && led.older == LeftOf(u, s, n)
            && Accounts(StreamOf(u, logs, n), TakenFrom(s.merged, n), Lookup(s.prev, n), led)
  {
    FixedLogs(u, logs, events);
    led := EveryRunBalances(u, logs, events, n);
    var s := Run(u, logs, events);
    if !Lookup(s.prev, n).d {
      ResumesAt(StreamOf(u, logs, n), TakenFrom(s.merged, n), Lookup(s.prev, n), led);
    }
  }

  // ---------------------------------------------------------------- one page, any cursor

  lemma {:induction false} LeftIsRemains(u: Setup, s: Session, n: string)
    ensures LeftOf(u, s, n) == Remains(StreamOf(u, s.logs, n), Lookup(s.prev, n))
  {
  }

  /** Whatever cursor the client holds, an instance offers the first page of what it has left. */
  lemma {:induction false} OfferOf(u: Setup, s: Session, down: set<string>, n: string)
    requires u.Valid() && n in u.Selection()
    ensures OffersAt(u, s, down)[n]
         == if Lookup(s.prev, n).d || !Network(s.logs, down).Reaches(n) then [] else Take(LeftOf(u, s, n), u.pageSize)
  {
    if !Lookup(s.prev, n).d && Network(s.logs, down).Reaches(n) {
      OfferIsHead(u, s, down, n);
    }
  }

  lemma {:induction false} PageInstances(u: Setup, s: Session, down: set<string>)
    requires u.Valid()
    ensures InstancesIn(MergedAt(u, s, down), u.Selection())
    ensures forall n | n in u.Selection() :: CountOf(MergedAt(u, s, down), n) <= |OffersAt(u, s, down)[n]|
  {
    OffersTaggedAt(u, s, down);
    MergedInstances(u.Selection(), OffersAt(u, s, down), u.pageSize);
    forall n | n in u.Selection() ensures CountOf(MergedAt(u, s, down), n) <= |OffersAt(u, s, down)[n]| {
      TakenWithinOffer(u.Selection(), OffersAt(u, s, down), u.pageSize, n);
    }
  }

  /** A page takes from what an instance has left, and leaves a tail of it, shorter by at
      least what it took, whichever entries the merge took. */
  lemma {:induction false} LoadTakes(u: Setup, s: Session, down: set<string>, n: string)
    requires u.Valid() && s.more && n in u.Selection() && TextDown(StreamOf(u, s.logs, n))
    ensures var s' := Step(u, s, Load(down));
            && |LeftOf(u, s', n)| + CountOf(MergedAt(u, s, down), n) <= |LeftOf(u, s, n)|
            && (forall x | x in LeftOf(u, s', n) :: x in LeftOf(u, s, n))
  {
    var c, reaches := Lookup(s.prev, n), Network(s.logs, down).Reaches(n);
    OfferOf(u, s, down, n);
    PageInstances(u, s, down);
    var t := AdvanceShrinks(StreamOf(u, s.logs, n), c, reaches, OffersAt(u, s, down)[n], CountOf(MergedAt(u, s, down), n), u.pageSize);
    LeftIsRemains(u, s, n);
    LeftIsRemains(u, Step(u, s, Load(down)), n);
  }

  lemma {:induction false} SumLe(names: seq<string>, a: map<string, seq<Item>>, b: map<string, seq<Item>>, c: map<string, seq<Item>>)
    requires Covers(names, a) && Covers(names, b) && Covers(names, c)
    requires forall n | n in names :: |a[n]| + |b[n]| <= |c[n]|
    ensures |Flatten(names, a)| + |Flatten(names, b)| <= |Flatten(names, c)|
  {
    if names != [] {
      SumLe(names[1..], a, b, c);
    }
  }

  function Shares(names: seq<string>, page: seq<Item>): (m: map<string, seq<Item>>)
  {
    map n | n in names :: Keep(page, From(n))
  }

  lemma {:induction false} SharesShrink(names: seq<string>, left': map<string, seq<Item>>, page: seq<Item>, left: map<string, seq<Item>>)
    requires Distinct(names) && InstancesIn(page, names) && Covers(names, left') && Covers(names, left)
    requires forall n | n in names :: |left'[n]| + CountOf(page, n) <= |left[n]|
    ensures |Flatten(names, left')| + |page| <= |Flatten(names, left)|
  {
    var shares := Shares(names, page);
    SharesAddUp(names, shares, page);
    SumLe(names, left', shares, left);
  }

  /** A page's entries leave the total that remains. */
  lemma {:induction false} LoadShrinks(u: Setup, s: Session, down: set<string>)
    requires u.Valid() && s.more && TextDownLogs(u, s.logs)
    ensures Total(u, Left(u, Step(u, s, Load(down)))) + |MergedAt(u, s, down)| <= Total(u, Left(u, s))
  {
    var s', page := Step(u, s, Load(down)), MergedAt(u, s, down);
    KeepDistinct(u.clients, Chosen(u.filter));
    PageInstances(u, s, down);
    forall n | n in u.Selection() ensures |Left(u, s')[n]| + CountOf(page, n) <= |Left(u, s)[n]| {
      LoadTakes(u, s, down, n);
    }
    SharesShrink(u.Selection(), Left(u, s'), page, Left(u, s));
  }

  // ---------------------------------------------------------------- pages that do not fail

  /** Every selected instance still open answers this load. */
  predicate Answered(u: Setup, s: Session, down: set<string>)
  {
    forall n | n in u.Selection() && !Lookup(s.prev, n).d :: n in s.logs && n !in down
  }

  lemma {:induction false} NoFailuresIff(net: Network, names: seq<string>)
    ensures Failures(net, names) == [] <==> forall n | n in names :: net.Reaches(n)
  {
    if names != [] {
      NoFailuresIff(net, names[1..]);
      assert names == [names[0]] + names[1..];
    }
  }

  /** ... which is what the page's error list being empty means. */
  lemma {:induction false} AnsweredIffNoErrors(u: Setup, s: Session, down: set<string>)
    requires s.more
    ensures var s' := Step(u, s, Load(down));
            s'.pages[|s'.pages| - 1].errors == [] <==> Answered(u, s, down)
  {
    var net := Network(s.logs, down);
    NoFailuresIff(net, Keep(u.clients, StillOpen(u.filter, s.prev)));
    forall n | n in u.Selection() && !Lookup(s.prev, n).d ensures n in Keep(u.clients, StillOpen(u.filter, s.prev)) {
      assert StillOpen(u.filter, s.prev)(n);
    }
    forall n | n in Keep(u.clients, StillOpen(u.filter, s.prev)) ensures n in u.Selection() && !Lookup(s.prev, n).d {
      assert StillOpen(u.filter, s.prev)(n) && Chosen(u.filter)(n);
    }
  }

  /** An answered page offers, for every instance, the first page of what is left. */
  lemma {:induction false} AnsweredOffers(u: Setup, s: Session, down: set<string>)
    requires u.Valid() && Answered(u, s, down)
    ensures OffersAt(u, s, down) == Cut(Left(u, s), u.pageSize)
  {
    var left, offers := Left(u, s), OffersAt(u, s, down);
    OffersNames(u, s, down);
    forall n | n in left ensures offers[n] == Take(left[n], u.pageSize) {
      OfferOf(u, s, down, n);
    }
    CutIs(left, offers, u.pageSize);
  }

  lemma {:induction false} OffersNames(u: Setup, s: Session, down: set<string>)
    ensures OffersAt(u, s, down).Keys == Left(u, s).Keys
  {
  }

  lemma {:induction false} CutIs(left: map<string, seq<Item>>, offers: map<string, seq<Item>>, pageSize: nat)
    requires offers.Keys == left.Keys && forall n | n in left :: offers[n] == Take(left[n], pageSize)
    ensures offers == Cut(left, pageSize)
  {
  }

  /** Cutting every instance's remainder to a page leaves a page's worth, or all there is. */
  lemma {:induction false} CutTotal(names: seq<string>, left: map<string, seq<Item>>, pageSize: nat)
    requires Covers(names, left)
    ensures var c, all := |Flatten(names, Cut(left, pageSize))|, |Flatten(names, left)|;
            c <= all && (c == all || pageSize <= c)
  {
    if names != [] {
      CutTotal(names[1..], left, pageSize);
    }
  }

  /** A page that is not full takes everything its instances offer. */
  lemma {:induction false} ShortPageTakesAll(names: seq<string>, offers: map<string, seq<Item>>, pageSize: nat, n: string)
    requires Tagged(names, offers) && n in names && |Flatten(names, offers)| <= pageSize
    ensures CountOf(Merged(names, offers, pageSize), n) == |offers[n]|
  {
    BeforeOrder();
    KeepSort(Flatten(names, offers), From(n), Before);
    FlattenFrom(names, offers, n);
  }

  lemma {:induction false} AnsweredLength(u: Setup, s: Session, down: set<string>)
    requires u.Valid() && Answered(u, s, down)
    ensures var page, left := MergedAt(u, s, down), Total(u, Left(u, s));
            && |page| == (if left < u.pageSize then left else u.pageSize)
            && (left <= u.pageSize ==> |Flatten(u.Selection(), OffersAt(u, s, down))| <= u.pageSize)
  {
    AnsweredOffers(u, s, down);
    CutTotal(u.Selection(), Left(u, s), u.pageSize);
  }

  /** When no more than one page is left, an answered page takes all of it ... */
  lemma {:induction false} LastPageTakesAll(u: Setup, s: Session, down: set<string>, n: string)
    requires u.Valid() && Answered(u, s, down) && n in u.Selection() && Total(u, Left(u, s)) <= u.pageSize
    ensures CountOf(MergedAt(u, s, down), n) == |LeftOf(u, s, n)| <= u.pageSize
  {
    AnsweredLength(u, s, down);
    AnsweredOffers(u, s, down);
    OffersTaggedAt(u, s, down);
    ShortPageTakesAll(u.Selection(), OffersAt(u, s, down), u.pageSize, n);
    PartOfTotal(u.Selection(), Left(u, s), n);
    assert OffersAt(u, s, down)[n] == Take(LeftOf(u, s, n), u.pageSize);
  }

  lemma {:induction false} PartOfTotal(names: seq<string>, m: map<string, seq<Item>>, n: string)
    requires Covers(names, m) && n in names
    ensures |m[n]| <= |Flatten(names, m)|
  {
    if n != names[0] {
      PartOfTotal(names[1..], m, n);
    }
  }

  /** ... and an instance served to its end stays open exactly when it returned a full page. */
  lemma {:induction false} OpenIffFullOffer(u: Setup, s: Session, down: set<string>, n: string)
    requires u.Valid() && Answered(u, s, down) && n in u.Selection()
    requires CountOf(MergedAt(u, s, down), n) == |LeftOf(u, s, n)|
    ensures Lookup(NextAt(u, s, down), n).d <==> |LeftOf(u, s, n)| < u.pageSize
  {
    OfferOf(u, s, down, n);
  }

  /** Whatever the logs hold and whatever cursor the client sends, a page without a failure
      carries min(page size, what is left) merged entries, and one that is not full is the
      last. */
  lemma {:induction false} AnsweredPage(u: Setup, s: Session, down: set<string>)
    requires u.Valid() && s.more && Answered(u, s, down)
    ensures var page, left := MergedAt(u, s, down), Total(u, Left(u, s));
            && |page| == (if left < u.pageSize then left else u.pageSize)
            && (|page| < u.pageSize ==> !Step(u, s, Load(down)).more)
  {
    AnsweredLength(u, s, down);
    AnsweredShort(u, s, down);
  }

  lemma {:induction false} AnsweredShort(u: Setup, s: Session, down: set<string>)
    requires u.Valid() && Answered(u, s, down)
    ensures |MergedAt(u, s, down)| < u.pageSize ==> !AnyOpen(u.Selection(), NextAt(u, s, down))
  {
    AnsweredLength(u, s, down);
    if |MergedAt(u, s, down)| < u.pageSize {
      forall n | n in u.Selection() ensures Lookup(NextAt(u, s, down), n).d {
        LastPageTakesAll(u, s, down, n);
        PartOfTotal(u.Selection(), Left(u, s), n);
        OpenIffFullOffer(u, s, down, n);
      }
    }
  }

  lemma {:induction false} CutAgrees(names: seq<string>, left: map<string, seq<Item>>, n: nat)
    requires Covers(names, left)
    ensures HeadMerge(names, Cut(left, n), n) == HeadMerge(names, left, n)
  {
    forall k | k in names ensures Take(Cut(left, n)[k], n) == Take(left[k], n) {
      assert Take(Take(left[k], n), n) == Take(left[k], n);
    }
    HeadMergeAgrees(names, Cut(left, n), left, n);
  }

  lemma {:induction false} CutSorted(u: Setup, s: Session, n: string)
    requires Pageable(StreamOf(u, s.logs, n), u.pageSize)
    ensures Sorted(Take(LeftOf(u, s, n), u.pageSize), Before)
  {
    if u.pageSize != 1 {
      OrderlySorted(StreamOf(u, s.logs, n), n);
      KeepSorted(StreamOf(u, s.logs, n), OlderItem(Lookup(s.prev, n).o), Before);
      TakeSorted(LeftOf(u, s, n), u.pageSize);
    }
  }

  /** Where text order agrees with the instants, they are the best entries left. */
  lemma {:induction false} AnsweredPageIsBest(u: Setup, s: Session, down: set<string>)
    requires u.Valid() && Answered(u, s, down) && PageableLogs(u, s.logs)
    ensures MergedAt(u, s, down) == HeadMerge(u.Selection(), Left(u, s), u.pageSize)
  {
    var names, left := u.Selection(), Left(u, s);
    AnsweredOffers(u, s, down);
    OffersTaggedAt(u, s, down);
    forall n | n in names ensures Sorted(Cut(left, u.pageSize)[n], Before) {
      CutSorted(u, s, n);
    }
    SortRefinesHeadMerge(names, Cut(left, u.pageSize), u.pageSize);
    CutAgrees(names, left, u.pageSize);
  }

  // ---------------------------------------------------------------- the page bound

  function FailedPages(pages: seq<LogsPage>): (n: nat)
    ensures n <= |pages|
  {
    if pages == [] then 0
    else FailedPages(pages[..|pages| - 1]) + if pages[|pages| - 1].errors == [] then 0 else 1
  }

  /** The number of entries on `q` full pages. */
  function Upto(q: nat, pageSize: nat): (n: nat)
  {
    if q == 0 then 0 else Upto(q - 1, pageSize) + pageSize
  }

  /** How many full pages `n` entries make: floor(n / pageSize). */
  function FullPages(n: nat, pageSize: nat): (q: nat)
    requires 1 <= pageSize
    ensures Upto(q, pageSize) <= n < Upto(q, pageSize) + pageSize
  {
    if n < pageSize then 0 else FullPages(n - pageSize, pageSize) + 1
  }

  lemma {:induction false} UptoGrows(q: nat, r: nat, pageSize: nat)
    requires q <= r
    ensures Upto(q, pageSize) + (if q < r then pageSize else 0) <= Upto(r, pageSize)
  {
    if q < r {
      UptoGrows(q, r - 1, pageSize);
    }
  }

  /** The one number of full pages that fits. */
  lemma {:induction false} FullPagesIs(q: nat, n: nat, pageSize: nat)
    requires 1 <= pageSize && Upto(q, pageSize) <= n
    ensures q <= FullPages(n, pageSize)
    ensures n < Upto(q, pageSize) + pageSize ==> q == FullPages(n, pageSize)
  {
    var f := FullPages(n, pageSize);
    if f < q {
      UptoGrows(f, q, pageSize);
    } else {
      UptoGrows(q, f, pageSize);
    }
  }

  /** Pages without a failure so far. */
  function GoodPages(s: Session): (n: nat)
  {
    |s.pages| - FailedPages(s.pages)
  }

  /** `good` full pages and the `left` entries fit into the `all` there were. */
  predicate Budgeted(pageSize: nat, all: nat, more: bool, good: nat, left: nat)
  {
    && (more ==> Upto(good, pageSize) + left <= all)
    && (!more ==> good >= 1 && Upto(good - 1, pageSize) <= all)
  }

  ghost predicate WithinBudget(u: Setup, logs: LogMap, s: Session)
  {
    Budgeted(u.pageSize, Total(u, Streams(u, logs)), s.more, GoodPages(s), Total(u, Left(u, s)))
  }

  lemma {:induction false} WithinBudgetStep(u: Setup, logs: LogMap, s: Session, s': Session, ok: bool, served: nat)
    requires WithinBudget(u, logs, s) && s.more
    requires Total(u, Left(u, s')) + served <= Total(u, Left(u, s))
    requires ok ==> served == u.pageSize || !s'.more
    requires !ok ==> s'.more
    requires GoodPages(s') == GoodPages(s) + if ok then 1 else 0
    ensures WithinBudget(u, logs, s')
  {
  }

  lemma {:induction false} GoodPagesAppend(s: Session, s': Session, last: LogsPage)
    requires s'.pages == s.pages + [last]
    ensures GoodPages(s') == if last.errors == [] then GoodPages(s) + 1 else GoodPages(s)
  {
    assert s'.pages[..|s.pages|] == s.pages;
  }

  lemma {:induction false} StepCounts(u: Setup, s: Session, down: set<string>)
    requires s.more
    ensures GoodPages(Step(u, s, Load(down))) == GoodPages(s) + if Answered(u, s, down) then 1 else 0
  {
    var s' := Step(u, s, Load(down));
    AnsweredIffNoErrors(u, s, down);
    GoodPagesAppend(s, s', s'.pages[|s.pages|]);
  }

  lemma {:induction false} UnansweredStaysOpen(u: Setup, s: Session, down: set<string>)
    requires s.more && !Answered(u, s, down)
    ensures Step(u, s, Load(down)).more
  {
    var n :| n in u.Selection() && !Lookup(s.prev, n).d && !(n in s.logs && n !in down);
    assert !Lookup(Step(u, s, Load(down)).prev, n).d;
  }

  lemma {:induction false} BudgetStep(u: Setup, logs: LogMap, s: Session, down: set<string>)
    requires u.Valid() && TextDownLogs(u, s.logs) && s.more && WithinBudget(u, logs, s)
    ensures WithinBudget(u, logs, Step(u, s, Load(down)))
  {
    LoadShrinks(u, s, down);
    if Answered(u, s, down) {
      AnsweredPage(u, s, down);
    } else {
      UnansweredStaysOpen(u, s, down);
    }
    StepCounts(u, s, down);
    WithinBudgetStep(u, logs, s, Step(u, s, Load(down)), Answered(u, s, down), |MergedAt(u, s, down)|);
  }

  lemma {:induction false} LeftAtStart(u: Setup, logs: LogMap)
    ensures Left(u, Opening(logs)) == Streams(u, logs)
  {
    forall n | n in u.Selection() ensures LeftOf(u, Opening(logs), n) == StreamOf(u, logs, n) {
      KeepAll(StreamOf(u, logs, n), OlderItem(""));
    }
  }

  lemma {:induction false} PageBudget(u: Setup, logs: LogMap, events: seq<Event>)
    requires u.Valid() && Fixed(events) && TextDownLogs(u, logs)
    ensures var s := Run(u, logs, events);
            && |s.pages| == |s.merged|
            && (s.more ==> |s.pages| == |events|)
            && WithinBudget(u, logs, s)
  {
    if events == [] {
      LeftAtStart(u, logs);
    } else {
      var m := |events| - 1;
      PageBudget(u, logs, events[..m]);
      FixedLogs(u, logs, events[..m]);
      if Run(u, logs, events[..m]).more {
        BudgetStep(u, logs, Run(u, logs, events[..m]), events[m].down);
      }
    }
  }

  /** With N entries to serve, pages of P and F pages on which an instance failed, no run is
      longer than floor(N / P) + 1 + F pages, and one that long has ended. Ties included. */
  lemma {:induction false} PageBound(u: Setup, logs: LogMap, events: seq<Event>)
    requires u.Valid() && Fixed(events) && TextDownLogs(u, logs)
    ensures var s := Run(u, logs, events);
            var bound := FullPages(Total(u, Streams(u, logs)), u.pageSize) + 1 + FailedPages(s.pages);
            && |s.pages| <= bound
            && (|events| >= bound ==> !s.more)
  {
    PageBudget(u, logs, events);
    BudgetBounds(u, logs, Run(u, logs, events));
  }

  lemma {:induction false} BudgetBounds(u: Setup, logs: LogMap, s: Session)
    requires u.Valid() && WithinBudget(u, logs, s)
    ensures |s.pages| - FailedPages(s.pages) + (if s.more then 1 else 0)
         <= FullPages(Total(u, Streams(u, logs)), u.pageSize) + 1
  {
    FullPagesIs(if s.more then GoodPages(s) else GoodPages(s) - 1, Total(u, Streams(u, logs)), u.pageSize);
  }

  // ---------------------------------------------------------------- failure-free runs

  /** Only page loads, and every selected instance answers each of them. */
  ghost predicate Quiet(u: Setup, logs: LogMap, events: seq<Event>)
  {
    && Fixed(events)
    && forall n | n in u.Selection() :: n in logs && forall i | 0 <= i < |events| :: n !in events[i].down
  }

  /** The one globally sorted log of everything the filter would fetch. */
  function GlobalLog(u: Setup, logs: LogMap): (r: seq<Item>)
  {
    SortStable(Flatten(u.Selection(), Streams(u, logs)), Before)
  }

  lemma {:induction false} FlatFrom(merged: seq<seq<Item>>, n: string)
    ensures Flat(TakenFrom(merged, n)) == Keep(Flat(merged), From(n))
  {
    if merged != [] {
      var m := |merged| - 1;
      FlatFrom(merged[..m], n);
      KeepAppend(Flat(merged[..m]), merged[m], From(n));
      assert (TakenFrom(merged[..m], n) + [Keep(merged[m], From(n))])[..m] == TakenFrom(merged[..m], n);
    }
  }

  lemma {:induction false} WholeLedger(stream: seq<Item>, taken: seq<seq<Item>>, c: InstanceCursor, led: Ledger)
    requires Accounts(stream, taken, c, led) && Strict(stream) && led.newer == []
    ensures stream == Flat(taken) + led.older
  {
    StrictLosesNothing(stream, taken, c, led);
  }

  /** Without equal timestamps, an instance's stream is what was served and what is left. */
  lemma {:induction false} ServedAndLeft(u: Setup, logs: LogMap, events: seq<Event>, n: string)
    requires u.Valid() && Fixed(events) && PageableLogs(u, logs) && StrictLogs(u, logs) && n in u.Selection()
    ensures var s := Run(u, logs, events);
            StreamOf(u, logs, n) == Keep(Flat(s.merged), From(n)) + LeftOf(u, s, n)
  {
    var s := Run(u, logs, events);
    var led := FixedBalance(u, logs, events, n);
    WholeLedger(StreamOf(u, logs, n), TakenFrom(s.merged, n), Lookup(s.prev, n), led);
    FlatFrom(s.merged, n);
  }

  // ---------------------------------------------------------------- page boundaries

  /** Entries of one instance with one timestamp, which a cursor cannot tell apart. */
  predicate Tied(a: Item, b: Item)
  {
    a.instance == b.instance && a.rawTime == b.rawTime
  }

  /** No page boundary of the sorted log falls between two tied entries. */
  ghost predicate Untied(log: seq<Item>, pageSize: nat)
  {
    forall q: nat | 0 < Upto(q, pageSize) < |log| :: !Tied(log[Upto(q, pageSize) - 1], log[Upto(q, pageSize)])
  }

  /** The global log holds each instance's stream. */
  lemma {:induction false} GlobalKeeps(u: Setup, logs: LogMap, n: string)
    requires u.Valid() && n in u.Selection()
    ensures Keep(GlobalLog(u, logs), From(n)) == SortStable(StreamOf(u, logs, n), Before)
    ensures Orderly(StreamOf(u, logs, n)) ==> Keep(GlobalLog(u, logs), From(n)) == StreamOf(u, logs, n)
  {
    var all := Flatten(u.Selection(), Streams(u, logs));
    KeepDistinct(u.clients, Chosen(u.filter));
    BeforeOrder();
    KeepSort(all, From(n), Before);
    FlattenFrom(u.Selection(), Streams(u, logs), n);
    if Orderly(StreamOf(u, logs, n)) {
      OrderlySorted(StreamOf(u, logs, n), n);
      StableSortUnique(StreamOf(u, logs, n), StreamOf(u, logs, n), Before);
    }
  }

  /** The global log in order, in the entries' own terms. */
  lemma {:induction false} GlobalOrder(u: Setup, logs: LogMap)
    ensures var log := GlobalLog(u, logs);
            forall i, j | 0 <= i < j < |log| ::
              && log[i].parsedTime >= log[j].parsedTime
              && (log[i].parsedTime == log[j].parsedTime ==> !Less(log[j].instance, log[i].instance))
              && (log[i].parsedTime == log[j].parsedTime && log[i].instance == log[j].instance ==>
                    !Less(log[j].rawTime, log[i].rawTime))
  {
    BeforeOrder();
    SortedByClass(Flatten(u.Selection(), Streams(u, logs)), Before);
    SortedSpelled(GlobalLog(u, logs));
  }

  lemma {:induction false} KeepLast(s: seq<Item>, p: Item -> bool)
    requires Keep(s, p) != []
    ensures Keep(s, p)[|Keep(s, p)| - 1] in s
    ensures p(s[|s| - 1]) ==> Keep(s, p)[|Keep(s, p)| - 1] == s[|s| - 1]
  {
    var n := |s| - 1;
    KeepAppend(s[..n], [s[n]], p);
    assert s == s[..n] + [s[n]];
    if !p(s[n]) {
      KeepLast(s[..n], p);
    }
  }

  /** In a sorted log everything between two entries that tie ties with them. */
  lemma {:induction false} BetweenTies(log: seq<Item>, i: nat, m: nat, j: nat)
    requires Sorted(log, Before) && i <= m <= j < |log|
    requires Tied(log[i], log[j]) && log[i].parsedTime == log[j].parsedTime
    ensures Tied(log[i], log[m])
  {
    var a, x, b := log[i], log[m], log[j];
    LessTotal(a.rawTime, a.rawTime);
    LessTotal(a.instance, a.instance);
    assert !Before(x, a) || i == m;
    assert !Before(b, x) || m == j;
    TiesShareInstance(a, x);
  }

  /** If an instance's entries are cut between equal timestamps, so is the log. */
  lemma {:induction false} CutOfTies(log: seq<Item>, m: nat, n: string)
    requires Sorted(log, Before) && m <= |log|
    requires var k, stream := CountOf(log[..m], n), Keep(log, From(n));
             0 < k < |stream| && stream[k].rawTime == stream[k - 1].rawTime && stream[k].parsedTime == stream[k - 1].parsedTime
    ensures 0 < m < |log| && Tied(log[m - 1], log[m])
  {
    var k, stream := CountOf(log[..m], n), Keep(log, From(n));
    var i, j := CutEnds(log, m, n);
    BetweenTies(log, i, m - 1, j);
    BetweenTies(log, i, m, j);
  }

  /** Where the entries next to the cut stand in the log. */
  lemma {:induction false} CutEnds(log: seq<Item>, m: nat, n: string) returns (i: nat, j: nat)
    requires m <= |log| && 0 < CountOf(log[..m], n) < |Keep(log, From(n))|
    ensures i < m <= j < |log| && log[i].instance == log[j].instance == n
    ensures var k, stream := CountOf(log[..m], n), Keep(log, From(n)); log[i] == stream[k - 1] && log[j] == stream[k]
  {
    var pre, post := log[..m], log[m..];
    var a, b := Keep(pre, From(n)), Keep(post, From(n));
    assert log == pre + post;
    KeepAppend(pre, post, From(n));
    KeepLast(pre, From(n));
    assert b[0] in b && a[|a| - 1] in a;
    i :| 0 <= i < m && log[i] == a[|a| - 1];
    var t: nat :| t < |post| && post[t] == b[0];
    j := m + t;
  }

  /** Without equal timestamps in any instance there is nothing to cut. */
  lemma {:induction false} StrictIsUntied(u: Setup, logs: LogMap)
    requires u.Valid() && OrderlyLogs(u, logs) && StrictLogs(u, logs)
    ensures Untied(GlobalLog(u, logs), u.pageSize)
  {
    var log := GlobalLog(u, logs);
    forall q: nat | 0 < Upto(q, u.pageSize) < |log|
      ensures !Tied(log[Upto(q, u.pageSize) - 1], log[Upto(q, u.pageSize)])
    {
      var m := Upto(q, u.pageSize);
      if Tied(log[m - 1], log[m]) {
        StrictNotTied(u, logs, m);
      }
    }
  }

  lemma {:induction false} MembersSelected(u: Setup, logs: LogMap, it: Item)
    requires u.Valid() && it in GlobalLog(u, logs)
    ensures it.instance in u.Selection()
  {
    KeepDistinct(u.clients, Chosen(u.filter));
    FlattenFrom(u.Selection(), Streams(u, logs), it.instance);
    var all := Flatten(u.Selection(), Streams(u, logs));
    assert it in Keep(all, From(it.instance));
  }

  lemma {:induction false} StrictNotTied(u: Setup, logs: LogMap, m: nat)
    requires u.Valid() && OrderlyLogs(u, logs) && StrictLogs(u, logs) && 0 < m < |GlobalLog(u, logs)|
    ensures !Tied(GlobalLog(u, logs)[m - 1], GlobalLog(u, logs)[m])
  {
    var log := GlobalLog(u, logs);
    var n := log[m].instance;
    assert log[m] in log;
    MembersSelected(u, logs, log[m]);
    GlobalKeeps(u, logs, n);
    NeighboursDiffer(log, m, n);
  }

  lemma {:induction false} NeighboursDiffer(log: seq<Item>, m: nat, n: string)
    requires 0 < m < |log| && log[m].instance == n && Strict(Keep(log, From(n)))
    ensures !Tied(log[m - 1], log[m])
  {
    if log[m - 1].instance == n {
      NeighboursKept(log, m, n);
    }
  }

  lemma {:induction false} NeighboursKept(log: seq<Item>, m: nat, n: string)
    requires 0 < m < |log| && log[m - 1].instance == log[m].instance == n
    ensures var k, stream := CountOf(log[..m], n), Keep(log, From(n));
            0 < k < |stream| && stream[k - 1] == log[m - 1] && stream[k] == log[m]
  {
    KeepEnd(log[..m], From(n));
    KeepHead(log[m..], From(n));
    assert log == log[..m] + log[m..];
    KeepAppend(log[..m], log[m..], From(n));
    AtJoint(Keep(log[..m], From(n)), Keep(log[m..], From(n)), log[m - 1], log[m]);
  }

  lemma {:induction false} KeepEnd(s: seq<Item>, p: Item -> bool)
    requires s != [] && p(s[|s| - 1])
    ensures Keep(s, p) != [] && Keep(s, p)[|Keep(s, p)| - 1] == s[|s| - 1]
  {
    var n := |s| - 1;
    assert s == s[..n] + [s[n]];
    KeepAppend(s[..n], [s[n]], p);
    assert Keep([s[n]], p) == [s[n]];
  }

  lemma {:induction false} KeepHead(s: seq<Item>, p: Item -> bool)
    requires s != [] && p(s[0])
    ensures Keep(s, p) != [] && Keep(s, p)[0] == s[0]
  {
  }

  lemma {:induction false} AtJoint(a: seq<Item>, b: seq<Item>, x: Item, y: Item)
    requires a != [] && b != [] && a[|a| - 1] == x && b[0] == y
    ensures (a + b)[|a| - 1] == x && (a + b)[|a|] == y
  {
  }

  lemma {:induction false} QuietAnswers(u: Setup, logs: LogMap, events: seq<Event>, e: Event)
    requires Quiet(u, logs, events + [e])
    ensures Quiet(u, logs, events) && e.Load? && Answered(u, Run(u, logs, events), e.down)
  {
    var all := events + [e];
    assert all[|events|] == e;
    forall i | 0 <= i < |events| ensures events[i].Load? && forall n | n in u.Selection() :: n !in events[i].down {
      assert all[i] == events[i];
    }
    FixedLogs(u, logs, events);
  }

  // ---------------------------------------------------------------- page by page

  /** Every page boundary of the log splits it: instance by instance, what comes before is
      newer by text than what comes after. */
  ghost predicate Separated(log: seq<Item>, pageSize: nat)
  {
    forall q: nat | Upto(q, pageSize) <= |log| :: SplitsAt(log, Upto(q, pageSize))
  }

  lemma {:induction false} GlobalIsSortOf(u: Setup, logs: LogMap)
    requires u.Valid() && TextDownLogs(u, logs)
    ensures SortOf(GlobalLog(u, logs), u.Selection(), Streams(u, logs))
  {
    KeepDistinct(u.clients, Chosen(u.filter));
  }

  /** Of an instance with `k` entries served, all but the first `k` of its stream are left. */
  ghost predicate LeavesRest(u: Setup, s: Session, n: string)
  {
    var stream, k := StreamOf(u, s.logs, n), CountOf(Flat(s.merged), n);
    k <= |stream| && LeftOf(u, s, n) == stream[k..]
  }

  /** After q pages the first q * P entries of the log have been served, and of every
      instance the rest of its stream is left. */
  ghost predicate InBlocks(u: Setup, log: seq<Item>, s: Session)
  {
    && Flat(s.merged) == Take(log, Upto(|s.merged|, u.pageSize))
    && forall n | n in u.Selection() :: LeavesRest(u, s, n)
  }

  /** Where the next page ends. */
  function BlockEnd(lo: nat, pageSize: nat, all: nat): (hi: nat)
  {
    if lo + pageSize <= all then lo + pageSize else all
  }

  lemma {:induction false} SplitsAtEnds(log: seq<Item>, pageSize: nat, q: nat)
    requires Separated(log, pageSize)
    ensures var m := |Take(log, Upto(q, pageSize))|;
            SplitsAt(log, m) && Take(log, Upto(q, pageSize)) == log[..m] && (m == Upto(q, pageSize) || m == |log|)
  {
    if Upto(q, pageSize) > |log| {
      assert log[|log|..] == [];
    }
  }

  lemma {:induction false} NextEnds(log: seq<Item>, pageSize: nat, q: nat, lo: nat)
    requires Separated(log, pageSize) && lo == |Take(log, Upto(q, pageSize))|
    ensures var hi := BlockEnd(lo, pageSize, |log|);
            lo <= hi <= |log| && SplitsAt(log, hi) && log[..hi] == Take(log, Upto(q + 1, pageSize))
  {
    SplitsAtEnds(log, pageSize, q + 1);
  }

  lemma {:induction false} PageIsBlock(u: Setup, s: Session, down: set<string>, log: seq<Item>, lo: nat, hi: nat)
    requires u.Valid() && Answered(u, s, down) && SortOf(log, u.Selection(), Streams(u, s.logs))
    requires lo <= hi <= |log| && SplitsAt(log, lo) && SplitsAt(log, hi) && hi == BlockEnd(lo, u.pageSize, |log|)
    requires Flat(s.merged) == log[..lo] && forall n | n in u.Selection() :: LeavesRest(u, s, n)
    ensures MergedAt(u, s, down) == log[lo..hi]
  {
    var names, streams, offers := u.Selection(), Streams(u, s.logs), OffersAt(u, s, down);
    AnsweredOffers(u, s, down);
    OffersTaggedAt(u, s, down);
    forall n | n in names
      ensures CountOf(log[..lo], n) <= |streams[n]| && offers[n] == Take(streams[n][CountOf(log[..lo], n)..], u.pageSize)
    {
      assert LeavesRest(u, s, n);
      assert offers[n] == Take(LeftOf(u, s, n), u.pageSize);
    }
    NextBlock(log, names, streams, lo, hi, u.pageSize, offers);
  }

  /** An instance's cursor after a page whose cut is between different timestamps. */
  lemma {:induction false} LeftOfNext(u: Setup, s: Session, down: set<string>, n: string, i: nat, k: nat)
    requires u.Valid() && s.more && Answered(u, s, down) && n in u.Selection() && TextDown(StreamOf(u, s.logs, n))
    requires i <= |StreamOf(u, s.logs, n)| && LeftOf(u, s, n) == StreamOf(u, s.logs, n)[i..]
    requires k == CountOf(MergedAt(u, s, down), n)
    requires var stream := StreamOf(u, s.logs, n); 0 < i + k < |stream| ==> stream[i + k].rawTime != stream[i + k - 1].rawTime
    ensures i + k <= |StreamOf(u, s.logs, n)|
    ensures LeftOf(u, Step(u, s, Load(down)), n) == StreamOf(u, s.logs, n)[i + k..]
  {
    OfferOf(u, s, down, n);
    PageInstances(u, s, down);
    LeftIsRemains(u, s, n);
    LeftIsRemains(u, Step(u, s, Load(down)), n);
    AdvanceExact(StreamOf(u, s.logs, n), Lookup(s.prev, n), OffersAt(u, s, down)[n], i, k, u.pageSize);
  }

  lemma {:induction false} CountNext(merged: seq<seq<Item>>, page: seq<Item>, n: string)
    ensures CountOf(Flat(merged + [page]), n) == CountOf(Flat(merged), n) + CountOf(page, n)
  {
    assert (merged + [page])[..|merged|] == merged;
    KeepAppend(Flat(merged), page, From(n));
  }

  lemma {:induction false} LeavesRestNext(u: Setup, s: Session, down: set<string>, n: string, log: seq<Item>, lo: nat, hi: nat,
                                          page: seq<Item>, s': Session)
    requires u.Valid() && s.more && Answered(u, s, down) && n in u.Selection() && LeavesRest(u, s, n)
    requires SortOf(log, u.Selection(), Streams(u, s.logs)) && lo <= hi <= |log| && SplitsAt(log, hi)
    requires Flat(s.merged) == log[..lo] && page == MergedAt(u, s, down) == log[lo..hi]
    requires s' == Step(u, s, Load(down))
    ensures LeavesRest(u, s', n)
  {
    var i, k := CountOf(Flat(s.merged), n), CountOf(page, n);
    CutDiffers(log, u.Selection(), Streams(u, s.logs), lo, hi, n, Flat(s.merged), page);
    LeftOfNext(u, s, down, n, i, k);
    LeavesRestIs(u, s, s', n, page, i, k);
  }

  lemma {:induction false} LeavesRestIs(u: Setup, s: Session, s': Session, n: string, page: seq<Item>, i: nat, k: nat)
    requires s'.logs == s.logs && s'.merged == s.merged + [page]
    requires i == CountOf(Flat(s.merged), n) && k == CountOf(page, n) && i + k <= |StreamOf(u, s.logs, n)|
    requires LeftOf(u, s', n) == StreamOf(u, s.logs, n)[i + k..]
    ensures LeavesRest(u, s', n)
  {
    CountNext(s.merged, page, n);
  }

  lemma {:induction false} CutDiffers(log: seq<Item>, names: seq<string>, streams: map<string, seq<Item>>, lo: nat, hi: nat, n: string,
                                      served: seq<Item>, page: seq<Item>)
    requires SortOf(log, names, streams) && n in names && lo <= hi <= |log| && SplitsAt(log, hi)
    requires served == log[..lo] && page == log[lo..hi]
    ensures var i, stream := CountOf(served, n) + CountOf(page, n), streams[n];
            0 < i < |stream| ==> stream[i].rawTime != stream[i - 1].rawTime
  {
    KeepBlock(log, lo, hi, n);
    SplitSides(log, names, streams, hi, n);
  }

  lemma {:induction false} FlatNext(merged: seq<seq<Item>>, page: seq<Item>, log: seq<Item>, lo: nat, hi: nat)
    requires lo <= hi <= |log| && Flat(merged) == log[..lo] && page == log[lo..hi]
    ensures Flat(merged + [page]) == log[..hi]
  {
    assert (merged + [page])[..|merged|] == merged;
    assert log[..hi] == log[..lo] + log[lo..hi];
  }

  /** A failure-free page serves the next block and leaves the rest. */
  lemma {:induction false} BlockStep(u: Setup, s: Session, down: set<string>, log: seq<Item>, s': Session)
    requires u.Valid() && s.more && Answered(u, s, down) && s' == Step(u, s, Load(down))
    requires SortOf(log, u.Selection(), Streams(u, s.logs)) && Separated(log, u.pageSize) && InBlocks(u, log, s)
    ensures InBlocks(u, log, s')
  {
    var lo := |Flat(s.merged)|;
    var hi := BlockEnd(lo, u.pageSize, |log|);
    SplitsAtEnds(log, u.pageSize, |s.merged|);
    NextEnds(log, u.pageSize, |s.merged|, lo);
    PageIsBlock(u, s, down, log, lo, hi);
    BlockServed(u, s, down, log, lo, hi, MergedAt(u, s, down), s');
  }

  lemma {:induction false} BlockServed(u: Setup, s: Session, down: set<string>, log: seq<Item>, lo: nat, hi: nat,
                                       page: seq<Item>, s': Session)
    requires u.Valid() && s.more && Answered(u, s, down) && SortOf(log, u.Selection(), Streams(u, s.logs))
    requires lo <= hi <= |log| && SplitsAt(log, hi) && log[..hi] == Take(log, Upto(|s.merged| + 1, u.pageSize))
    requires Flat(s.merged) == log[..lo] && page == MergedAt(u, s, down) == log[lo..hi]
    requires s' == Step(u, s, Load(down)) && forall n | n in u.Selection() :: LeavesRest(u, s, n)
    ensures InBlocks(u, log, s')
  {
    FlatNext(s.merged, page, log, lo, hi);
    assert s'.merged == s.merged + [page];
    forall n | n in u.Selection() ensures LeavesRest(u, s', n) {
      LeavesRestNext(u, s, down, n, log, lo, hi, page, s');
    }
  }

  lemma {:induction false} OpeningLeavesAll(u: Setup, logs: LogMap, n: string)
    ensures LeavesRest(u, Opening(logs), n)
  {
    var stream := StreamOf(u, logs, n);
    KeepAll(stream, OlderItem(""));
    assert stream[0..] == stream && Flat([]) == [];
  }

  lemma {:induction false} OpeningBlocks(u: Setup, logs: LogMap, log: seq<Item>)
    ensures InBlocks(u, log, Opening(logs))
  {
    forall n | n in u.Selection() ensures LeavesRest(u, Opening(logs), n) {
      OpeningLeavesAll(u, logs, n);
    }
    assert Upto(0, u.pageSize) == 0 && Take(log, 0) == [] && Flat([]) == [];
  }

  lemma {:induction false} RunSortOf(u: Setup, logs: LogMap, events: seq<Event>, log: seq<Item>, s: Session)
    requires u.Valid() && Fixed(events) && TextDownLogs(u, logs) && log == GlobalLog(u, logs) && s == Run(u, logs, events)
    ensures SortOf(log, u.Selection(), Streams(u, s.logs))
  {
    FixedLogs(u, logs, events);
    GlobalIsSortOf(u, logs);
  }

  lemma {:induction false} QuietServesBlocks(u: Setup, logs: LogMap, events: seq<Event>, log: seq<Item>, s: Session)
    requires u.Valid() && Quiet(u, logs, events) && TextDownLogs(u, logs)
    requires log == GlobalLog(u, logs) && Separated(log, u.pageSize) && s == Run(u, logs, events)
    ensures InBlocks(u, log, s)
  {
    if events == [] {
      OpeningBlocks(u, logs, log);
    } else {
      var m := |events| - 1;
      var prev, e := Run(u, logs, events[..m]), events[m];
      assert events == events[..m] + [e];
      QuietAnswers(u, logs, events[..m], e);
      QuietServesBlocks(u, logs, events[..m], log, prev);
      if prev.more {
        RunSortOf(u, logs, events[..m], log, prev);
        BlockStep(u, prev, e.down, log, s);
      }
    }
  }

  lemma {:induction false} SharesLeft(u: Setup, s: Session, log: seq<Item>)
    requires u.Valid() && InBlocks(u, log, s) && SortOf(log, u.Selection(), Streams(u, s.logs))
    ensures Total(u, Left(u, s)) + |Flat(s.merged)| == |log|
  {
    var names, shares := u.Selection(), Shares(u.Selection(), Flat(s.merged));
    InstancesOf(log, names, Streams(u, s.logs));
    forall it | it in Flat(s.merged) ensures it.instance in names {
      assert it in log;
    }
    KeepDistinct(u.clients, Chosen(u.filter));
    SharesAddUp(names, shares, Flat(s.merged));
    forall n | n in names ensures |Left(u, s)[n]| + |shares[n]| == |Streams(u, s.logs)[n]| {
      assert LeavesRest(u, s, n);
    }
    SumIs(names, Left(u, s), shares, Streams(u, s.logs));
  }

  lemma {:induction false} SumIs(names: seq<string>, a: map<string, seq<Item>>, b: map<string, seq<Item>>, c: map<string, seq<Item>>)
    requires Covers(names, a) && Covers(names, b) && Covers(names, c)
    requires forall n | n in names :: |a[n]| + |b[n]| == |c[n]|
    ensures |Flatten(names, a)| + |Flatten(names, b)| == |Flatten(names, c)|
  {
    if names != [] {
      SumIs(names[1..], a, b, c);
    }
  }

  lemma {:induction false} NothingLeft(u: Setup, s: Session)
    requires forall n | n in u.Selection() :: Lookup(s.prev, n).d
    ensures Total(u, Left(u, s)) == 0
  {
    FlattenNil(u.Selection(), Left(u, s));
  }

  /** Where every page boundary splits the log, the pages of a failure-free run, put together,
      are the first |pages| * P entries of the globally sorted log, and all of it once there is
      no next page. */
  lemma {:induction false} PagesAreTheSortedLog(u: Setup, logs: LogMap, events: seq<Event>)
    requires u.Valid() && Quiet(u, logs, events) && TextDownLogs(u, logs) && Separated(GlobalLog(u, logs), u.pageSize)
    ensures var s := Run(u, logs, events);
            && Flat(s.merged) == Take(GlobalLog(u, logs), Upto(|s.merged|, u.pageSize))
            && (!s.more ==> Flat(s.merged) == GlobalLog(u, logs))
  {
    var s, log := Run(u, logs, events), GlobalLog(u, logs);
    QuietServesBlocks(u, logs, events, log, s);
    if !s.more {
      forall n | n in u.Selection() ensures Lookup(s.prev, n).d {
        ExhaustedWhenOver(u, logs, events, n);
      }
      FixedLogs(u, logs, events);
      GlobalIsSortOf(u, logs);
      NothingLeft(u, s);
      SharesLeft(u, s, log);
    }
  }

  lemma {:induction false} ExhaustedWhenOver(u: Setup, logs: LogMap, events: seq<Event>, n: string)
    requires !Run(u, logs, events).more && n in u.Selection()
    ensures Lookup(Run(u, logs, events).prev, n).d
  {
    var m := |events| - 1;
    if !Run(u, logs, events[..m]).more {
      ExhaustedWhenOver(u, logs, events[..m], n);
    }
  }
}
