/** What a client that keeps asking for the next page sees: how many pages, which entries,
    in which order; and that the order of the clients does not matter. */
module Paginate {
  import opened Ordering
  import opened QueryLog
  import opened Text
  import opened Separation
  import opened Glob
  import opened Merge
  import opened Cursors
  import opened Logs
  import opened Runs
  import opened Safety
  import opened WholeRun

  // ---------------------------------------------------------------- how many pages

  predicate OneInstance(s: seq<Item>)
  {
    forall i | 0 <= i < |s| :: s[i].instance == s[0].instance
  }

  /** The last entries of a log, one page of them. */
  function LastPage(log: seq<Item>, pageSize: nat): (r: seq<Item>)
  {
    if pageSize < |log| then log[|log| - pageSize..] else log
  }

  lemma {:induction false} OneInstanceIff(names: seq<string>, left: map<string, seq<Item>>, page: seq<Item>)
    requires page != [] && Covers(names, left) && InstancesIn(page, names)
    requires forall n | n in names :: CountOf(page, n) == |left[n]|
    ensures OneInstance(page) <==> exists n | n in names :: |left[n]| == |page|
  {
    forall n | n in names && |left[n]| == |page| ensures OneInstance(page) {
      KeepFull(page, From(n));
      assert forall i | 0 <= i < |page| :: page[i] in page;
    }
    if OneInstance(page) {
      var n := page[0].instance;
      assert page[0] in page;
      forall it | it in page ensures From(n)(it) {}
      KeepAll(page, From(n));
    }
  }

  /** When exactly one page is left, an extra empty page follows exactly when all of it comes
      from one instance, which then returned a full page. */
  lemma {:induction false} ExtraPageIff(u: Setup, s: Session, down: set<string>)
    requires u.Valid() && Answered(u, s, down) && Total(u, Left(u, s)) == u.pageSize
    ensures AnyOpen(u.Selection(), NextAt(u, s, down)) <==> OneInstance(MergedAt(u, s, down))
  {
    var names, left, page := u.Selection(), Left(u, s), MergedAt(u, s, down);
    AnsweredLength(u, s, down);
    PageInstances(u, s, down);
    forall n | n in names
      ensures CountOf(page, n) == |left[n]| && (!Lookup(NextAt(u, s, down), n).d <==> |left[n]| == |page|)
    {
      LastPageTakesAll(u, s, down, n);
      OpenIffFullOffer(u, s, down, n);
    }
    OneInstanceIff(names, left, page);
  }

  lemma {:induction false} KeepFull(s: seq<Item>, p: Item -> bool)
    requires |Keep(s, p)| == |s|
    ensures forall it | it in s :: p(it)
  {
    if s != [] {
      KeepFull(s[1..], p);
      assert s == [s[0]] + s[1..];
    }
  }

  /** The pages it takes to read a log to its end: one more than the full ones, unless the
      full ones exhaust it and the last of them mixes instances. */
  function PagesFor(log: seq<Item>, pageSize: nat): (q: nat)
    requires 1 <= pageSize
  {
    var full := FullPages(|log|, pageSize);
    if full > 0 && Upto(full, pageSize) == |log| && !OneInstance(LastPage(log, pageSize)) then full else full + 1
  }

  lemma {:induction false} PageIsLast(log: seq<Item>, before: seq<Item>, page: seq<Item>)
    requires before + page == log
    ensures page == LastPage(log, |page|)
  {
  }

  /** Page `q + 1` of a log that takes `count` pages. */
  lemma {:induction false} CountStep(log: seq<Item>, pageSize: nat, q: nat, lo: nat, count: nat, served: seq<Item>, page: seq<Item>,
                                     more: bool, one: bool)
    requires 1 <= pageSize && count == PagesFor(log, pageSize) && q < count && lo == Upto(q, pageSize)
    requires served == Take(log, lo) && served + page == Take(log, lo + pageSize)
    requires (!more ==> served + page == log) && (|page| < pageSize ==> !more)
    requires one == OneInstance(page) && (|served| + pageSize == |log| ==> more == one)
    ensures if more then q + 1 < count else q + 1 == count
  {
    var full := FullPages(|log|, pageSize);
    UptoGrows(q, full, pageSize);
    assert Upto(q + 1, pageSize) == lo + pageSize;
    if lo + pageSize <= |log| {
      FullPagesIs(q + 1, |log|, pageSize);
    } else {
      FullPagesIs(q, |log|, pageSize);
    }
    if lo + pageSize == |log| {
      PageIsLast(log, served, page);
    }
  }

  /** A page short of a full one is the last; after one that ends the log, more follows
      exactly if it is of one instance. */
  predicate Ends(all: nat, lo: nat, pageSize: nat, page: seq<Item>, more: bool)
  {
    (|page| < pageSize ==> !more) && (lo + pageSize == all ==> more == OneInstance(page))
  }

  lemma {:induction false} PageEnds(u: Setup, s: Session, down: set<string>, all: nat, lo: nat, page: seq<Item>, more: bool)
    requires u.Valid() && Answered(u, s, down) && page == MergedAt(u, s, down) && more == AnyOpen(u.Selection(), NextAt(u, s, down))
    requires Total(u, Left(u, s)) == all - lo && lo <= all
    ensures Ends(all, lo, u.pageSize, page, more)
  {
    AnsweredShort(u, s, down);
    if lo + u.pageSize == all {
      ExtraPageIff(u, s, down);
    }
  }

  /** What a run has served: the first blocks of the log, all of it when no more follows. */
  predicate Served(log: seq<Item>, pageSize: nat, s: Session)
  {
    Flat(s.merged) == Take(log, Upto(|s.merged|, pageSize)) && (!s.more ==> Flat(s.merged) == log)
  }

  lemma {:induction false} QuietServed(u: Setup, logs: LogMap, events: seq<Event>, s: Session, log: seq<Item>)
    requires u.Valid() && Quiet(u, logs, events) && TextDownLogs(u, logs) && log == GlobalLog(u, logs) && Separated(log, u.pageSize)
    requires s == Run(u, logs, events)
    ensures Served(log, u.pageSize, s)
    ensures Total(u, Left(u, s)) == |log| - |Flat(s.merged)|
  {
    FixedLogs(u, logs, events);
    QuietServesBlocks(u, logs, events, log, s);
    GlobalIsSortOf(u, logs);
    SharesLeft(u, s, log);
    PagesAreTheSortedLog(u, logs, events);
  }

  /** Page `q + 1`, after what is served, is the next block of the log; it ends the log if
      no more follows. */
  predicate Continues(log: seq<Item>, pageSize: nat, q: nat, q': nat, served: seq<Item>, page: seq<Item>, more: bool)
  {
    var lo := Upto(q, pageSize);
    && q' == q + 1 && served == Take(log, lo) && served + page == Take(log, lo + pageSize)
    && (!more ==> served + page == log)
  }

  lemma {:induction false} ServedNext(log: seq<Item>, pageSize: nat, s: Session, s': Session, page: seq<Item>)
    requires Served(log, pageSize, s) && Served(log, pageSize, s') && s'.merged == s.merged + [page]
    ensures Continues(log, pageSize, |s.merged|, |s'.merged|, Flat(s.merged), page, s'.more)
  {
    FlatAppend(s.merged, page);
    assert Upto(|s'.merged|, pageSize) == Upto(|s.merged|, pageSize) + pageSize;
  }

  /** One more page of a failure-free run. */
  lemma {:induction false} QuietPage(u: Setup, logs: LogMap, events: seq<Event>, e: Event, prev: Session, s: Session, log: seq<Item>)
    returns (served: seq<Item>, page: seq<Item>)
    requires u.Valid() && Quiet(u, logs, events + [e]) && TextDownLogs(u, logs) && log == GlobalLog(u, logs) && Separated(log, u.pageSize)
    requires prev == Run(u, logs, events) && s == Run(u, logs, events + [e]) && prev.more
    ensures Continues(log, u.pageSize, |prev.merged|, |s.merged|, served, page, s.more)
    ensures Ends(|log|, |served|, u.pageSize, page, s.more)
  {
    QuietAnswers(u, logs, events, e);
    assert (events + [e])[..|events|] == events;
    QuietServed(u, logs, events, prev, log);
    QuietServed(u, logs, events + [e], s, log);
    served, page := Flat(prev.merged), MergedAt(u, prev, e.down);
    ServedNext(log, u.pageSize, prev, s, page);
    PageEnds(u, prev, e.down, |log|, |served|, page, s.more);
  }

  lemma {:induction false} PageCounted(log: seq<Item>, pageSize: nat, q: nat, q': nat, served: seq<Item>, page: seq<Item>, more: bool, count: nat)
    requires 1 <= pageSize && q < count == PagesFor(log, pageSize)
    requires Continues(log, pageSize, q, q', served, page, more) && Ends(|log|, |served|, pageSize, page, more)
    ensures if more then q' < count else q' == count
  {
    CountStep(log, pageSize, q, Upto(q, pageSize), count, served, page, more, OneInstance(page));
  }

  /** If the run before the last page was counted right, the whole run is. */
  lemma {:induction false} QuietStepCounted(u: Setup, logs: LogMap, events: seq<Event>, e: Event, prev: Session, s: Session,
                                            log: seq<Item>, count: nat)
    requires u.Valid() && Quiet(u, logs, events + [e]) && TextDownLogs(u, logs) && log == GlobalLog(u, logs) && Separated(log, u.pageSize)
    requires prev == Run(u, logs, events) && s == Run(u, logs, events + [e]) && prev.more
    requires |prev.merged| < count == PagesFor(log, u.pageSize)
    ensures if s.more then |s.merged| < count else |s.merged| == count
  {
    var served, page := QuietPage(u, logs, events, e, prev, s, log);
    PageCounted(log, u.pageSize, |prev.merged|, |s.merged|, served, page, s.more, count);
  }

  lemma {:induction false} QuietCounted(u: Setup, logs: LogMap, events: seq<Event>, s: Session, log: seq<Item>, count: nat)
    requires u.Valid() && Quiet(u, logs, events) && TextDownLogs(u, logs) && log == GlobalLog(u, logs) && Separated(log, u.pageSize)
    requires s == Run(u, logs, events) && count == PagesFor(log, u.pageSize)
    ensures if s.more then |s.merged| < count else |s.merged| == count
  {
    if events != [] {
      var h, e := events[..|events| - 1], events[|events| - 1];
      var prev := Run(u, logs, h);
      assert events == h + [e];
      QuietAnswers(u, logs, h, e);
      QuietCounted(u, logs, h, prev, log, count);
      if prev.more {
        QuietStepCounted(u, logs, h, e, prev, s, log, count);
      }
    }
  }

  /** A failure-free run over fixed logs whose page boundaries split the log ends after
      exactly `PagesFor` pages. */
  lemma {:induction false} PageCountExact(u: Setup, logs: LogMap, events: seq<Event>)
    requires u.Valid() && Quiet(u, logs, events) && TextDownLogs(u, logs) && Separated(GlobalLog(u, logs), u.pageSize)
    ensures var s, count := Run(u, logs, events), PagesFor(GlobalLog(u, logs), u.pageSize);
            if s.more then |s.merged| < count else |s.merged| == count
  {
    QuietCounted(u, logs, events, Run(u, logs, events), GlobalLog(u, logs), PagesFor(GlobalLog(u, logs), u.pageSize));
  }

  // ---------------------------------------------------------------- what is displayed

  function Displayed(pages: seq<LogsPage>): (r: seq<Item>)
  {
    if pages == [] then [] else Displayed(pages[..|pages| - 1]) + pages[|pages| - 1].entries
  }

  lemma {:induction false} DisplayedIsKept(u: Setup, logs: LogMap, events: seq<Event>)
    ensures var s := Run(u, logs, events); Displayed(s.pages) == Keep(Flat(s.merged), Shows(u.rt, u.filter.search))
  {
    if events != [] {
      var m := |events| - 1;
      var s, s' := Run(u, logs, events[..m]), Run(u, logs, events);
      DisplayedIsKept(u, logs, events[..m]);
      if s.more && events[m].Load? {
        var page := MergedAt(u, s, events[m].down);
        CursorOnTheWire(u, s, events[m].down);
        assert s'.pages[..|s.pages|] == s.pages && s'.merged[..|s.merged|] == s.merged;
        assert s'.merged[|s'.merged| - 1] == page;
        KeepAppend(Flat(s.merged), page, Shows(u.rt, u.filter.search));
      }
    }
  }

  /** What a search is asking an instance for, straight from its log. */
  ghost function WantedFrom(u: Setup, logs: LogMap, n: string): (r: seq<Item>)
  {
    if n in logs then EnrichAll(u.rt, n, Keep(logs[n], Wanted(u.rt, u.filter.search, u.filter.status))) else []
  }

  ghost function WantedStreams(u: Setup, logs: LogMap): (m: map<string, seq<Item>>)
  {
    map n | n in u.Selection() :: WantedFrom(u, logs, n)
  }

  /** All matching entries of all selected instances, in merge order. */
  ghost function WantedLog(u: Setup, logs: LogMap): (r: seq<Item>)
  {
    SortStable(Flatten(u.Selection(), WantedStreams(u, logs)), Before)
  }

  lemma {:induction false} FlattenKeep(names: seq<string>, m: map<string, seq<Item>>, w: map<string, seq<Item>>, p: Item -> bool)
    requires Covers(names, m) && Covers(names, w)
    requires forall n | n in names :: Keep(m[n], p) == w[n]
    ensures Keep(Flatten(names, m), p) == Flatten(names, w)
  {
    if names != [] {
      KeepAppend(m[names[0]], Flatten(names[1..], m), p);
      FlattenKeep(names[1..], m, w, p);
    }
  }

  lemma {:induction false} GlobalShowsWanted(u: Setup, logs: LogMap)
    requires StarStable(u.rt.lower)
    ensures Keep(GlobalLog(u, logs), Shows(u.rt, u.filter.search)) == WantedLog(u, logs)
  {
    var names, p := u.Selection(), Shows(u.rt, u.filter.search);
    BeforeOrder();
    KeepSort(Flatten(names, Streams(u, logs)), p, Before);
    forall n | n in names ensures Keep(Streams(u, logs)[n], p) == WantedStreams(u, logs)[n] {
      if n in logs {
        StreamShows(u.rt, n, logs[n], u.filter.search, u.filter.status);
      }
    }
    FlattenKeep(names, Streams(u, logs), WantedStreams(u, logs), p);
  }

  /** Entry `e` of instance `n` is asked for by the filter, and `it` shows it: its own fields,
      its parsed time, its instance. */
  ghost predicate AskedFor(u: Setup, n: string, e: Entry, it: Item)
  {
    && n in u.clients && (u.filter.instances == [] || n in u.filter.instances)
    && (u.filter.status == "blocked" || u.filter.status == "filtered" ==> e.blocked)
    && (u.filter.status == "rewritten" ==> e.rewrite)
    && (u.filter.status == "processed" ==> !e.blocked)
    && (u.filter.search == ""
        || Matches(u.rt.lower, u.filter.search, e.domain)
        || Matches(u.rt.lower, u.filter.search, e.client)
        || (e.clientName != "" && Matches(u.rt.lower, u.filter.search, e.clientName)))
    && it == Item(e.time, match u.rt.parseTime(e.time) case Some(t) => t case None => ZERO_TIME, e.client,
                  if e.clientName == "" then None else Some(e.clientName), e.domain, e.elapsed, n)
  }

  lemma {:induction false} AskedForIff(u: Setup, n: string, e: Entry, it: Item)
    ensures AskedFor(u, n, e, it)
       <==> n in u.Selection() && Wanted(u.rt, u.filter.search, u.filter.status)(e) && it == Enrich(u.rt, n, e)
  {
  }

  lemma {:induction false} WantedSource(u: Setup, logs: LogMap, it: Item) returns (n: string, e: Entry)
    requires it in WantedLog(u, logs)
    ensures n in logs && e in logs[n]
    ensures n in u.Selection() && Wanted(u.rt, u.filter.search, u.filter.status)(e) && it == Enrich(u.rt, n, e)
  {
    n := FlattenMember(u.Selection(), WantedStreams(u, logs), it);
    var kept := Keep(logs[n], Wanted(u.rt, u.filter.search, u.filter.status));
    var i :| 0 <= i < |kept| && EnrichAll(u.rt, n, kept)[i] == it;
    e := kept[i];
    assert e in kept;
  }

  /** The wanted log holds exactly what the filter asks for, of the instances it names or of all. */
  lemma {:induction false} WantedLogHolds(u: Setup, logs: LogMap, it: Item)
    ensures it in WantedLog(u, logs) <==> exists n, e | n in logs && e in logs[n] :: AskedFor(u, n, e, it)
  {
    if it in WantedLog(u, logs) {
      var n, e := WantedSource(u, logs, it);
      AskedForIff(u, n, e, it);
    }
    if n, e :| n in logs && e in logs[n] && AskedFor(u, n, e, it) {
      AskedForIff(u, n, e, it);
      WantedMember(u, logs, n, e);
    }
  }

  lemma {:induction false} WantedMember(u: Setup, logs: LogMap, n: string, e: Entry)
    requires n in logs && e in logs[n] && n in u.Selection() && Wanted(u.rt, u.filter.search, u.filter.status)(e)
    ensures Enrich(u.rt, n, e) in WantedLog(u, logs)
  {
    var kept := Keep(logs[n], Wanted(u.rt, u.filter.search, u.filter.status));
    assert e in kept;
    var i :| 0 <= i < |kept| && kept[i] == e;
    assert EnrichAll(u.rt, n, kept)[i] == Enrich(u.rt, n, e);
    FlattenContains(u.Selection(), WantedStreams(u, logs), n, Enrich(u.rt, n, e));
  }

  lemma {:induction false} FlattenContains(names: seq<string>, m: map<string, seq<Item>>, n: string, it: Item)
    requires Covers(names, m) && n in names && it in m[n]
    ensures it in Flatten(names, m)
  {
    if n != names[0] {
      FlattenContains(names[1..], m, n, it);
    }
  }

  /** ... newest first, equal instants by instance name, those of one instance by raw time. */
  lemma {:induction false} WantedLogInOrder(u: Setup, logs: LogMap)
    ensures var log := WantedLog(u, logs);
            forall i, j | 0 <= i < j < |log| ::
              && log[i].parsedTime >= log[j].parsedTime
              && (log[i].parsedTime == log[j].parsedTime ==> !Less(log[j].instance, log[i].instance))
              && (log[i].parsedTime == log[j].parsedTime && log[i].instance == log[j].instance ==>
                    !Less(log[j].rawTime, log[i].rawTime))
  {
    BeforeOrder();
    SortedByClass(Flatten(u.Selection(), WantedStreams(u, logs)), Before);
    SortedSpelled(WantedLog(u, logs));
  }

  /** A completed failure-free run displays exactly the entries whose domain, client or client
      name match the pattern and whose status is asked for, of all selected instances, each
      once and in merge order: neither the coarse upstream search, nor advancing over hidden
      rows, nor the page boundaries lose or add anything. */
  lemma {:induction false} SearchIsExact(u: Setup, logs: LogMap, events: seq<Event>)
    requires u.Valid() && StarStable(u.rt.lower)
    requires Quiet(u, logs, events) && TextDownLogs(u, logs) && Separated(GlobalLog(u, logs), u.pageSize)
    requires !Run(u, logs, events).more
    ensures Displayed(Run(u, logs, events).pages) == WantedLog(u, logs)
  {
    DisplayedIsKept(u, logs, events);
    PagesAreTheSortedLog(u, logs, events);
    GlobalShowsWanted(u, logs);
  }

  // ---------------------------------------------------------------- the client's loop

  /** The client's loop is in step with a failure-free run of page loads. */
  ghost predicate InStep(u: Setup, logs: LogMap, events: seq<Event>, cursor: Option<Cursor>, shown: seq<Item>, pages: nat)
  {
    var s := Run(u, logs, events);
    && Quiet(u, logs, events) && s.logs == logs && s.more
    && (if cursor.Some? then cursor.value.i else map[]) == s.prev
    && shown == Displayed(s.pages) && pages == |s.merged|
  }

  lemma {:induction false} StaysInStep(u: Setup, logs: LogMap, events: seq<Event>, cursor: Option<Cursor>, shown: seq<Item>, pages: nat, page: LogsPage)
    requires u.Valid() && InStep(u, logs, events, cursor, shown, pages)
    requires page == PageOf(u.rt, Network(logs, {}), u.clients, u.filter, Run(u, logs, events).prev, u.pageSize)
    ensures var s' := Run(u, logs, events + [Load({})]);
            && Quiet(u, logs, events + [Load({})])
            && s'.more == page.hasMore
            && pages + 1 == |s'.merged| && shown + page.entries == Displayed(s'.pages)
            && (s'.more ==> InStep(u, logs, events + [Load({})], DecodeCursor(page.nextCursor), shown + page.entries, pages + 1))
  {
    var s := Run(u, logs, events);
    RunStep(u, logs, events, Load({}));
    CursorOnTheWire(u, s, {});
    assert (s.pages + [page])[..|s.pages|] == s.pages;
  }

  /** Load pages until there is no next one, handing each page's cursor to the next load. */
  method PaginateAll(u: Setup, logs: LogMap) returns (shown: seq<Item>, pages: nat)
    requires u.Valid() && StarStable(u.rt.lower)
    requires TextDownLogs(u, logs) && Separated(GlobalLog(u, logs), u.pageSize) && forall n | n in u.Selection() :: n in logs
    ensures shown == WantedLog(u, logs)
    ensures pages == PagesFor(GlobalLog(u, logs), u.pageSize)
  {
    shown, pages := [], 0;
    var cursor: Option<Cursor> := None;
    ghost var events: seq<Event> := [];
    while true
      invariant InStep(u, logs, events, cursor, shown, pages)
      decreases PagesFor(GlobalLog(u, logs), u.pageSize) - pages
    {
      var page := FetchLogs(u.rt, Network(logs, {}), u.clients, u.filter, cursor, u.pageSize);
      PageCountExact(u, logs, events);
      StaysInStep(u, logs, events, cursor, shown, pages, page);
      events := events + [Load({})];
      pages := pages + 1;
      shown := shown + page.entries;
      if !page.hasMore {
        PageCountExact(u, logs, events);
        SearchIsExact(u, logs, events);
        return;
      }
      cursor := DecodeCursor(page.nextCursor);
    }
  }

  // ---------------------------------------------------------------- client order

  /** Listing the clients in another order changes neither the entries of a page, nor whether
      there is a next one, nor the cursor for it. */
  lemma {:induction false} ClientOrderIrrelevant(rt: Runtime, net: Network, clients: seq<string>, clients': seq<string>, f: Filter,
                              prev: CursorMap, pageSize: nat)
    requires Distinct(clients) && Distinct(clients')
    requires forall n :: n in clients <==> n in clients'
    ensures var page, page' := PageOf(rt, net, clients, f, prev, pageSize), PageOf(rt, net, clients', f, prev, pageSize);
            page.entries == page'.entries && page.hasMore == page'.hasMore && page.nextCursor == page'.nextCursor
  {
    var names, names' := Names(clients, f), Names(clients', f);
    KeepDistinct(clients, Chosen(f));
    KeepDistinct(clients', Chosen(f));
    assert forall n :: n in names <==> n in names';
    var offers, offers' := Offers(rt, net, f, prev, pageSize, names), Offers(rt, net, f, prev, pageSize, names');
    assert offers == offers';
    OffersTagged(rt, net, f, prev, pageSize, names);
    SortedFlattenUnordered(names, names', offers);
    var page := Merged(names, offers, pageSize);
    assert Next(net, prev, offers, page, pageSize, names) == Next(net, prev, offers, page, pageSize, names');
  }
}
