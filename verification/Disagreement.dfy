/** Why pagination needs text order to agree with the parsed instants: where it does not, a
    page consumes entries that are not the first its instance returned, and the cursor taken
    from the first ones serves an entry twice and skips another. Timestamps as RFC3339Nano
    writes them are enough. */
module Disagreement {
  import opened Ordering
  import opened Text
  import opened QueryLog
  import opened Merge
  import opened Cursors
  import opened Logs
  import opened Runs
  import opened Timestamps
  import WholeRun
  import Exact

  const CLIENTS := ["a", "b"]

  const EVERYTHING := Filter("", "", [])

  function TwoLogs(ex: Entry, ey: Entry, ez: Entry): (m: LogMap)
  {
    map["a" := [ex, ey], "b" := [ez]]
  }

  lemma {:induction false} AnswerAll(rt: Runtime, log: seq<Entry>, o: string, limit: nat)
    requires limit > 0
    ensures Answer(rt, log, Request(EVERYTHING, o, limit)) == Take(Keep(log, OlderEntry(o)), limit)
  {
    var q := Request(EVERYTHING, o, limit);
    AdmitsSplits(rt, log, q);
    KeepAll(log, Passing(rt, q.search, q.responseStatus));
  }

  lemma {:induction false} SelectAll(u: Setup)
    requires u.clients == CLIENTS && u.filter == EVERYTHING
    ensures u.Selection() == CLIENTS
  {
    KeepAll(u.clients, Chosen(u.filter));
  }

  /** x is newer than y by text and older by instant; z, of another instance, is the newest. */
  ghost predicate Crossed(rt: Runtime, ex: Entry, ey: Entry, ez: Entry)
  {
    && Less(ey.time, ex.time) && ex.time != ""
    && Enrich(rt, "a", ex).parsedTime < Enrich(rt, "a", ey).parsedTime < Enrich(rt, "b", ez).parsedTime
  }

  lemma {:induction false} FirstOffers(u: Setup, ex: Entry, ey: Entry, ez: Entry)
    requires u.clients == CLIENTS && u.filter == EVERYTHING && u.pageSize == 2
    ensures var offers := OffersAt(u, Opening(TwoLogs(ex, ey, ez)), {});
            && u.Selection() == CLIENTS
            && offers == map["a" := [Enrich(u.rt, "a", ex), Enrich(u.rt, "a", ey)], "b" := [Enrich(u.rt, "b", ez)]]
  {
    SelectAll(u);
    AnswerAll(u.rt, [ex, ey], "", 2);
    AnswerAll(u.rt, [ez], "", 2);
    KeepAll([ex, ey], OlderEntry(""));
    KeepAll([ez], OlderEntry(""));
    assert EnrichAll(u.rt, "a", [ex, ey]) == [Enrich(u.rt, "a", ex), Enrich(u.rt, "a", ey)];
    assert EnrichAll(u.rt, "b", [ez]) == [Enrich(u.rt, "b", ez)];
    assert CLIENTS[0] == "a" && CLIENTS[1] == "b";
  }

  lemma {:induction false} FlattenTwo(a: seq<Item>, b: seq<Item>)
    ensures Flatten(CLIENTS, map["a" := a, "b" := b]) == a + b
  {
    var m := map["a" := a, "b" := b];
    assert CLIENTS[1..] == ["b"] && CLIENTS[0] == "a";
    assert Flatten(["b"], m) == b + Flatten([], m) == b;
  }

  lemma {:induction false} FirstPage(u: Setup, ex: Entry, ey: Entry, ez: Entry)
    requires u.clients == CLIENTS && u.filter == EVERYTHING && u.pageSize == 2 && Crossed(u.rt, ex, ey, ez)
    ensures MergedAt(u, Opening(TwoLogs(ex, ey, ez)), {}) == [Enrich(u.rt, "b", ez), Enrich(u.rt, "a", ey)]
  {
    var x, y, z := Enrich(u.rt, "a", ex), Enrich(u.rt, "a", ey), Enrich(u.rt, "b", ez);
    FirstOffers(u, ex, ey, ez);
    MergeThree(x, y, z);
  }

  lemma {:induction false} MergeThree(x: Item, y: Item, z: Item)
    requires x.parsedTime < y.parsedTime < z.parsedTime
    ensures Merged(CLIENTS, map["a" := [x, y], "b" := [z]], 2) == [z, y]
  {
    FlattenTwo([x, y], [z]);
    assert [x, y] + [z] == [x, y, z];
    SortThree(x, y, z);
  }

  lemma {:induction false} FirstCursors(u: Setup, ex: Entry, ey: Entry, ez: Entry)
    requires u.clients == CLIENTS && u.filter == EVERYTHING && u.pageSize == 2 && Crossed(u.rt, ex, ey, ez)
    ensures var next := NextAt(u, Opening(TwoLogs(ex, ey, ez)), {});
            Lookup(next, "a") == InstanceCursor(ex.time, false) && Lookup(next, "b").d
  {
    FirstPage(u, ex, ey, ez);
    FirstOffers(u, ex, ey, ez);
    CountTwo(Enrich(u.rt, "b", ez), Enrich(u.rt, "a", ey));
    assert CLIENTS[0] == "a" && CLIENTS[1] == "b";
  }

  lemma {:induction false} SortThree(x: Item, y: Item, z: Item)
    requires x.parsedTime < y.parsedTime < z.parsedTime
    ensures SortStable([x, y, z], Before) == [z, y, x]
  {
    assert [x, y, z][1..] == [y, z] && [y, z][1..] == [z];
    assert SortStable([z], Before) == [z];
    assert Insert(y, [z], Before) == [z] + Insert(y, [z][1..], Before) == [z, y];
    assert [z, y][1..] == [y] && Insert(x, [y], Before) == [y] + Insert(x, [y][1..], Before) == [y, x];
  }

  lemma {:induction false} CountTwo(z: Item, y: Item)
    requires y.instance == "a" && z.instance == "b"
    ensures CountOf([z, y], "a") == 1 && CountOf([z, y], "b") == 1
  {
    assert [z, y][1..] == [y];
    assert Keep([y], From("a")) == [y] && Keep([y], From("b")) == [];
  }

  lemma {:induction false} SecondOffers(u: Setup, s: Session, ex: Entry, ey: Entry, ez: Entry)
    requires u.clients == CLIENTS && u.filter == EVERYTHING && u.pageSize == 2 && Crossed(u.rt, ex, ey, ez)
    requires s.logs == TwoLogs(ex, ey, ez)
    requires Lookup(s.prev, "a") == InstanceCursor(ex.time, false) && Lookup(s.prev, "b").d
    ensures u.Selection() == CLIENTS && OffersAt(u, s, {}) == map["a" := [Enrich(u.rt, "a", ey)], "b" := []]
  {
    SelectAll(u);
    AnswerAll(u.rt, [ex, ey], ex.time, 2);
    LessTotal(ex.time, ex.time);
    assert [ex, ey][1..] == [ey];
    assert Keep([ex, ey], OlderEntry(ex.time)) == [ey];
    assert CLIENTS[0] == "a" && CLIENTS[1] == "b";
    assert EnrichAll(u.rt, "a", [ey]) == [Enrich(u.rt, "a", ey)];
  }

  lemma {:induction false} SecondPage(u: Setup, s: Session, ex: Entry, ey: Entry, ez: Entry)
    requires u.clients == CLIENTS && u.filter == EVERYTHING && u.pageSize == 2 && Crossed(u.rt, ex, ey, ez)
    requires s.logs == TwoLogs(ex, ey, ez)
    requires Lookup(s.prev, "a") == InstanceCursor(ex.time, false) && Lookup(s.prev, "b").d
    ensures MergedAt(u, s, {}) == [Enrich(u.rt, "a", ey)]
    ensures !AnyOpen(u.Selection(), NextAt(u, s, {}))
  {
    var y := Enrich(u.rt, "a", ey);
    SecondOffers(u, s, ex, ey, ez);
    FlattenTwo([y], []);
    assert [y] + [] == [y];
    assert SortStable([y], Before) == [y];
    assert Keep([y], From("a")) == [y];
  }

  lemma {:induction false} TwoLoads(u: Setup, logs: LogMap)
    ensures Run(u, logs, [Load({}), Load({})]) == Step(u, Step(u, Opening(logs), Load({})), Load({}))
  {
    var none: seq<Event>, e := [], Load({});
    RunStep(u, logs, none, e);
    RunStep(u, logs, none + [e], e);
    assert none + [e] + [e] == [e, e];
  }

  lemma {:induction false} AfterFirst(u: Setup, ex: Entry, ey: Entry, ez: Entry)
    requires u.clients == CLIENTS && u.filter == EVERYTHING && u.pageSize == 2 && Crossed(u.rt, ex, ey, ez)
    ensures var s := Step(u, Opening(TwoLogs(ex, ey, ez)), Load({}));
            && s.logs == TwoLogs(ex, ey, ez) && s.more
            && s.merged == [[Enrich(u.rt, "b", ez), Enrich(u.rt, "a", ey)]]
            && Lookup(s.prev, "a") == InstanceCursor(ex.time, false) && Lookup(s.prev, "b").d
  {
    FirstPage(u, ex, ey, ez);
    FirstCursors(u, ex, ey, ez);
    FirstStaysOpen(u, ex, ey, ez);
  }

  lemma {:induction false} FirstStaysOpen(u: Setup, ex: Entry, ey: Entry, ez: Entry)
    requires u.clients == CLIENTS && u.filter == EVERYTHING && u.pageSize == 2 && Crossed(u.rt, ex, ey, ez)
    ensures AnyOpen(u.Selection(), NextAt(u, Opening(TwoLogs(ex, ey, ez)), {}))
  {
    FirstCursors(u, ex, ey, ez);
    SelectAll(u);
    assert CLIENTS[0] == "a";
  }

  lemma {:induction false} AfterSecond(u: Setup, s: Session, ex: Entry, ey: Entry, ez: Entry)
    requires u.clients == CLIENTS && u.filter == EVERYTHING && u.pageSize == 2 && Crossed(u.rt, ex, ey, ez)
    requires s.logs == TwoLogs(ex, ey, ez) && s.more
    requires Lookup(s.prev, "a") == InstanceCursor(ex.time, false) && Lookup(s.prev, "b").d
    ensures var s' := Step(u, s, Load({})); !s'.more && s'.merged == s.merged + [[Enrich(u.rt, "a", ey)]]
  {
    SecondPage(u, s, ex, ey, ez);
  }

  /** Two failure-free pages read these logs to their end, serving y twice and x never. */
  lemma {:induction false} CrossedMispages(u: Setup, ex: Entry, ey: Entry, ez: Entry)
    requires u.clients == CLIENTS && u.filter == EVERYTHING && u.pageSize == 2 && Crossed(u.rt, ex, ey, ez)
    ensures var s := Run(u, TwoLogs(ex, ey, ez), [Load({}), Load({})]);
            !s.more && s.merged == [[Enrich(u.rt, "b", ez), Enrich(u.rt, "a", ey)]] + [[Enrich(u.rt, "a", ey)]]
  {
    TwoLoads(u, TwoLogs(ex, ey, ez));
    AfterFirst(u, ex, ey, ez);
    AfterSecond(u, Step(u, Opening(TwoLogs(ex, ey, ez)), Load({})), ex, ey, ez);
  }

  lemma {:induction false} CrossedStreams(u: Setup, ex: Entry, ey: Entry, ez: Entry)
    requires u.clients == CLIENTS && u.filter == EVERYTHING && Crossed(u.rt, ex, ey, ez) && ey.time != "" && ez.time != ""
    ensures StreamOf(u, TwoLogs(ex, ey, ez), "a") == [Enrich(u.rt, "a", ex), Enrich(u.rt, "a", ey)]
    ensures StreamOf(u, TwoLogs(ex, ey, ez), "b") == [Enrich(u.rt, "b", ez)]
    ensures WholeRun.TextDownLogs(u, TwoLogs(ex, ey, ez))
  {
    SelectAll(u);
    KeepAll([ex, ey], Passing(u.rt, "", ""));
    KeepAll([ez], Passing(u.rt, "", ""));
    LessTotal(ex.time, ey.time);
    assert EnrichAll(u.rt, "a", [ex, ey]) == [Enrich(u.rt, "a", ex), Enrich(u.rt, "a", ey)];
    assert EnrichAll(u.rt, "b", [ez]) == [Enrich(u.rt, "b", ez)];
  }

  lemma {:induction false} XInLog(u: Setup, ex: Entry, ey: Entry, ez: Entry)
    requires u.clients == CLIENTS && u.filter == EVERYTHING && Crossed(u.rt, ex, ey, ez) && ey.time != "" && ez.time != ""
    ensures Enrich(u.rt, "a", ex) in WholeRun.GlobalLog(u, TwoLogs(ex, ey, ez))
  {
    SelectAll(u);
    CrossedStreams(u, ex, ey, ez);
    var m := WholeRun.Streams(u, TwoLogs(ex, ey, ez));
    assert u.Selection()[0] == "a" && Enrich(u.rt, "a", ex) in m["a"];
    assert Flatten(u.Selection(), m) == m["a"] + Flatten(u.Selection()[1..], m);
  }

  /** The condition these logs fail: the end of the first page does not split the sorted log. */
  lemma {:induction false} CrossedNotSeparated(u: Setup, ex: Entry, ey: Entry, ez: Entry, s: Session)
    requires u.clients == CLIENTS && u.filter == EVERYTHING && u.pageSize == 2 && Crossed(u.rt, ex, ey, ez)
    requires ey.time != "" && ez.time != "" && s == Run(u, TwoLogs(ex, ey, ez), [Load({}), Load({})])
    ensures WholeRun.TextDownLogs(u, TwoLogs(ex, ey, ez))
    ensures !WholeRun.Separated(WholeRun.GlobalLog(u, TwoLogs(ex, ey, ez)), 2)
  {
    CrossedStreams(u, ex, ey, ez);
    XUnserved(u, ex, ey, ez, s);
    XInLog(u, ex, ey, ez);
    TwoLoadsQuiet(u, ex, ey, ez);
    Exact.ServesLogIffSeparated(u, TwoLogs(ex, ey, ez), [Load({}), Load({})]);
  }

  lemma {:induction false} XUnserved(u: Setup, ex: Entry, ey: Entry, ez: Entry, s: Session)
    requires u.clients == CLIENTS && u.filter == EVERYTHING && u.pageSize == 2 && Crossed(u.rt, ex, ey, ez)
    requires s == Run(u, TwoLogs(ex, ey, ez), [Load({}), Load({})])
    ensures !s.more && Enrich(u.rt, "a", ex) !in Flat(s.merged)
  {
    CrossedMispages(u, ex, ey, ez);
    FlatThree(Enrich(u.rt, "b", ez), Enrich(u.rt, "a", ey));
    YTwice(Enrich(u.rt, "a", ex), Enrich(u.rt, "a", ey), Enrich(u.rt, "b", ez));
  }

  lemma {:induction false} TwoLoadsQuiet(u: Setup, ex: Entry, ey: Entry, ez: Entry)
    requires u.clients == CLIENTS && u.filter == EVERYTHING
    ensures WholeRun.Quiet(u, TwoLogs(ex, ey, ez), [Load({}), Load({})])
  {
    SelectAll(u);
  }

  function TimedEntry(time: string): (e: Entry)
  {
    Entry(time, "", "", "", false, false, "")
  }

  lemma {:induction false} StampParsed(rt: Runtime, name: string, s: Stamp)
    requires ParsesStamps(rt) && s.Valid()
    ensures Enrich(rt, name, TimedEntry(StampText(s))).parsedTime == Instant(s)
  {
  }

  lemma {:induction false} NextSecond(a: Stamp, b: Stamp)
    requires a.Valid() && b.Valid() && a.second < b.second && b == a.(second := b.second, frac := [])
    ensures Instant(a) < Instant(b)
  {
    InstantOrder(a, b);
  }

  /** A whole second, the half second after it, and the next second. */
  lemma {:induction false} CrossedStamps(rt: Runtime) returns (ex: Entry, ey: Entry, ez: Entry)
    requires ParsesStamps(rt)
    ensures Crossed(rt, ex, ey, ez)
  {
    var whole, half, later := Stamp(2026, 7, 10, 0, 0, 0, []), Stamp(2026, 7, 10, 0, 0, 0, [5]), Stamp(2026, 7, 10, 0, 0, 1, []);
    HalfSecondDisagrees(whole, half);
    NextSecond(half, later);
    StampTextNonempty(whole);
    StampParsed(rt, "a", whole);
    StampParsed(rt, "a", half);
    StampParsed(rt, "b", later);
    ex, ey, ez := TimedEntry(StampText(whole)), TimedEntry(StampText(half)), TimedEntry(StampText(later));
  }

  /** It takes no more than a whole second next to the half second after it. */
  lemma {:induction false} NanoTextMispages(rt: Runtime) returns (ex: Entry, ey: Entry, ez: Entry)
    requires ParsesStamps(rt)
    ensures var u := Setup(rt, CLIENTS, EVERYTHING, 2);
            var s := Run(u, TwoLogs(ex, ey, ez), [Load({}), Load({})]);
            && !s.more
            && Enrich(rt, "a", ex) !in Flat(s.merged)
            && multiset(Flat(s.merged))[Enrich(rt, "a", ey)] == 2
  {
    ex, ey, ez := CrossedStamps(rt);
    CrossedMispages(Setup(rt, CLIENTS, EVERYTHING, 2), ex, ey, ez);
    FlatThree(Enrich(rt, "b", ez), Enrich(rt, "a", ey));
    YTwice(Enrich(rt, "a", ex), Enrich(rt, "a", ey), Enrich(rt, "b", ez));
  }

  lemma {:induction false} YTwice(x: Item, y: Item, z: Item)
    requires x != y && x != z && y != z
    ensures x !in [z, y, y] && multiset([z, y, y])[y] == 2
  {
  }

  lemma {:induction false} FlatThree(z: Item, y: Item)
    ensures Flat([[z, y]] + [[y]]) == [z, y, y]
  {
    assert ([[z, y]] + [[y]])[..1] == [[z, y]] && [[z, y]][..0] == [];
    assert Flat([[z, y]]) == Flat([]) + [z, y];
  }
}
