/** Loading one page of merged query log entries: FetchLogs and its cursor bookkeeping. */
module Logs {
  import opened Ordering
  import opened QueryLog
  import opened Text
  import opened Glob
  import opened Merge
  import opened Cursors
  import FanOut

  datatype Filter = Filter(search: string, status: string, instances: seq<string>)

  datatype InstanceError = InstanceError(instance: string, error: string)

  datatype LogsPage = LogsPage(entries: seq<Item>, nextCursor: Wire, hasMore: bool, errors: seq<InstanceError>)

  // ---------------------------------------------------------------- what a page is

  predicate Selected(f: Filter, name: string)
  {
    f.instances == [] || name in f.instances
  }

  function Chosen(f: Filter): string -> bool
  {
    (name: string) => Selected(f, name)
  }

  /** The instances a filter selects, in client order. */
  function Names(clients: seq<string>, f: Filter): (r: seq<string>)
  {
    Keep(clients, Chosen(f))
  }

  function StillOpen(f: Filter, prev: CursorMap): string -> bool
  {
    (name: string) => Selected(f, name) && !Lookup(prev, name).d
  }

  function Request(f: Filter, o: string, pageSize: int): (q: QueryLogParams)
  {
    QueryLogParams(o, pageSize, SearchTerm(f.search), f.status)
  }

  /** What an instance contributes to a page: nothing when it is exhausted or fails. */
  function Offer(rt: Runtime, net: Network, f: Filter, prev: CursorMap, pageSize: int, name: string): (r: seq<Item>)
    ensures forall it | it in r :: it.instance == name
  {
    var c := Lookup(prev, name);
    if c.d || !net.Reaches(name) then []
    else EnrichAll(rt, name, Answer(rt, net.logs[name], Request(f, c.o, pageSize)))
  }

  function Offers(rt: Runtime, net: Network, f: Filter, prev: CursorMap, pageSize: int, names: seq<string>)
    : (m: map<string, seq<Item>>)
  {
    map n | n in names :: Offer(rt, net, f, prev, pageSize, n)
  }

  /** The merged entries of a page, before the search pattern hides any. */
  function Merged(names: seq<string>, offers: map<string, seq<Item>>, pageSize: nat): (r: seq<Item>)
    requires Covers(names, offers)
  {
    Take(SortStable(Flatten(names, offers), Before), pageSize)
  }

  /** One instance's cursor after `taken` of its `offer` went into the page. */
  function Advance(c: InstanceCursor, reaches: bool, offer: seq<Item>, taken: nat, pageSize: int): (r: InstanceCursor)
  {
    if c.d || !reaches then c
    else InstanceCursor(
      if 0 < taken <= |offer| then offer[taken - 1].rawTime else c.o,
      |offer| < pageSize && taken == |offer|)
  }

  function Next(net: Network, prev: CursorMap, offers: map<string, seq<Item>>, page: seq<Item>, pageSize: int,
                names: seq<string>): (r: CursorMap)
    requires Covers(names, offers)
  {
    map n | n in names :: Advance(Lookup(prev, n), net.Reaches(n), offers[n], CountOf(page, n), pageSize)
  }

  predicate AnyOpen(names: seq<string>, next: CursorMap)
  {
    exists n | n in names :: !Lookup(next, n).d
  }

  function Failures(net: Network, names: seq<string>): (r: seq<InstanceError>)
  {
    if names == [] then []
    else (if net.Reaches(names[0]) then [] else [InstanceError(names[0], "unreachable")]) + Failures(net, names[1..])
  }

  ghost function PageOf(rt: Runtime, net: Network, clients: seq<string>, f: Filter, prev: CursorMap, pageSize: nat)
    : (page: LogsPage)
  {
    var names := Names(clients, f);
    var offers := Offers(rt, net, f, prev, pageSize, names);
    var merged := Merged(names, offers, pageSize);
    var next := Next(net, prev, offers, merged, pageSize, names);
    LogsPage(Keep(merged, Shows(rt, f.search)),
             if AnyOpen(names, next) then Encode(Cursor(CURSOR_VERSION, next)) else Nothing,
             AnyOpen(names, next),
             Failures(net, Keep(clients, StillOpen(f, prev))))
  }

  // ---------------------------------------------------------------- facts about a page

  lemma {:induction false} KeepDistinct(names: seq<string>, p: string -> bool)
    requires Distinct(names)
    ensures Distinct(Keep(names, p))
  {
    if names != [] {
      KeepDistinct(names[1..], p);
    }
  }

  lemma {:induction false} OffersTagged(rt: Runtime, net: Network, f: Filter, prev: CursorMap, pageSize: int, names: seq<string>)
    requires Distinct(names)
    ensures Tagged(names, Offers(rt, net, f, prev, pageSize, names))
  {
  }

  /** No instance has more entries on the page than it offered. */
  lemma {:induction false} TakenWithinOffer(names: seq<string>, offers: map<string, seq<Item>>, pageSize: nat, n: string)
    requires Tagged(names, offers) && n in names
    ensures CountOf(Merged(names, offers, pageSize), n) <= |offers[n]|
  {
    var all := SortStable(Flatten(names, offers), Before);
    BeforeOrder();
    KeepSort(Flatten(names, offers), From(n), Before);
    FlattenFrom(names, offers, n);
    if pageSize < |all| {
      KeepAppend(all[..pageSize], all[pageSize..], From(n));
      assert all == all[..pageSize] + all[pageSize..];
    }
  }

  lemma {:induction false} TakenWithinAll(rt: Runtime, net: Network, clients: seq<string>, f: Filter, prev: CursorMap, pageSize: nat)
    requires Distinct(clients)
    ensures var names := Names(clients, f);
            var offers := Offers(rt, net, f, prev, pageSize, names);
            forall n | n in clients && StillOpen(f, prev)(n) :: CountOf(Merged(names, offers, pageSize), n) <= |offers[n]|
  {
    var names := Names(clients, f);
    var offers := Offers(rt, net, f, prev, pageSize, names);
    KeepDistinct(clients, Chosen(f));
    OffersTagged(rt, net, f, prev, pageSize, names);
    forall n | n in clients && StillOpen(f, prev)(n) ensures CountOf(Merged(names, offers, pageSize), n) <= |offers[n]| {
      TakenWithinOffer(names, offers, pageSize, n);
    }
  }

  /** Instances that offer nothing may be left out of the concatenation. */
  lemma {:induction false} FlattenSkip(clients: seq<string>, f: Filter, prev: CursorMap, offers: map<string, seq<Item>>)
    requires Covers(Names(clients, f), offers)
    requires forall n | n in offers && Lookup(prev, n).d :: offers[n] == []
    ensures Covers(Keep(clients, StillOpen(f, prev)), offers)
    ensures Flatten(Keep(clients, StillOpen(f, prev)), offers) == Flatten(Names(clients, f), offers)
  {
    if clients != [] {
      var n, p, q := clients[0], StillOpen(f, prev), Chosen(f);
      forall k | k in Names(clients[1..], f) ensures k in offers {
        assert k in Names(clients, f);
      }
      FlattenSkip(clients[1..], f, prev, offers);
      if q(n) {
        assert Keep(clients, q)[1..] == Keep(clients[1..], q);
      }
      if p(n) {
        assert Keep(clients, p)[1..] == Keep(clients[1..], p);
      }
    }
  }

  lemma {:induction false} FailuresAppend(net: Network, a: seq<string>, b: seq<string>)
    ensures Failures(net, a + b) == Failures(net, a) + Failures(net, b)
  {
    if a == [] {
      assert a + b == b;
    } else {
      assert (a + b)[1..] == a[1..] + b;
      FailuresAppend(net, a[1..], b);
    }
  }

  lemma {:induction false} MergedInstances(names: seq<string>, offers: map<string, seq<Item>>, pageSize: nat)
    requires Tagged(names, offers)
    ensures InstancesIn(Merged(names, offers, pageSize), names)
  {
    var all := Flatten(names, offers);
    forall it | it in Merged(names, offers, pageSize) ensures it.instance in names {
      assert it in all;
      FlattenFrom(names, offers, it.instance);
      assert it in Keep(all, From(it.instance));
    }
  }

  /** Which instances a page shows, and in which order. */
  lemma {:induction false} PageEntries(rt: Runtime, net: Network, clients: seq<string>, f: Filter, prev: CursorMap, pageSize: nat, page: LogsPage)
    requires Distinct(clients) && page == PageOf(rt, net, clients, f, prev, pageSize)
    ensures forall it | it in page.entries :: it.instance in clients && (f.instances == [] || it.instance in f.instances)
    ensures forall i, j | 0 <= i < j < |page.entries| ::
              && page.entries[i].parsedTime >= page.entries[j].parsedTime
              && (page.entries[i].parsedTime == page.entries[j].parsedTime ==>
                    !Less(page.entries[j].instance, page.entries[i].instance))
              && (page.entries[i].parsedTime == page.entries[j].parsedTime && page.entries[i].instance == page.entries[j].instance ==>
                    !Less(page.entries[j].rawTime, page.entries[i].rawTime))
  {
    var names := Names(clients, f);
    var offers := Offers(rt, net, f, prev, pageSize, names);
    KeepDistinct(clients, Chosen(f));
    OffersTagged(rt, net, f, prev, pageSize, names);
    MergedInstances(names, offers, pageSize);
    MergedSorted(names, offers, pageSize);
    KeepSorted(Merged(names, offers, pageSize), Shows(rt, f.search), Before);
    SortedSpelled(page.entries);
  }

  lemma {:induction false} MergedSorted(names: seq<string>, offers: map<string, seq<Item>>, pageSize: nat)
    requires Covers(names, offers)
    ensures Sorted(Merged(names, offers, pageSize), Before)
  {
    BeforeOrder();
    SortedByClass(Flatten(names, offers), Before);
    TakeSorted(SortStable(Flatten(names, offers), Before), pageSize);
  }

  /** Which instances the next cursor is for. */
  lemma {:induction false} PageCursor(rt: Runtime, net: Network, clients: seq<string>, f: Filter, prev: CursorMap, pageSize: nat, page: LogsPage)
    requires page == PageOf(rt, net, clients, f, prev, pageSize)
    ensures page.hasMore ==>
              && page.nextCursor.Decoded? && page.nextCursor.v == 1 && page.nextCursor.i.Some?
              && page.nextCursor.i.value.Keys == set n | n in clients && (f.instances == [] || n in f.instances)
    ensures !page.hasMore ==> page.nextCursor == Nothing
  {
    assert forall n :: n in Names(clients, f) <==> n in clients && (f.instances == [] || n in f.instances);
  }

  function Unreached(net: Network): string -> bool
  {
    (n: string) => !(n in net.logs && n !in net.down)
  }

  /** The failures are those of the names that cannot be reached, in their order. */
  lemma {:induction false} FailuresAre(net: Network, names: seq<string>)
    ensures |Failures(net, names)| == |Keep(names, Unreached(net))|
    ensures forall k | 0 <= k < |Failures(net, names)| ::
              Failures(net, names)[k] == InstanceError(Keep(names, Unreached(net))[k], "unreachable")
  {
    if names != [] {
      FailuresAre(net, names[1..]);
    }
  }

  lemma {:induction false} FailureIff(net: Network, names: seq<string>, n: string)
    ensures InstanceError(n, "unreachable") in Failures(net, names) <==> n in names && !(n in net.logs && n !in net.down)
  {
    var errs, kept := Failures(net, names), Keep(names, Unreached(net));
    FailuresAre(net, names);
    assert n in kept <==> n in names && Unreached(net)(n);
    if n in kept {
      var k :| 0 <= k < |kept| && kept[k] == n;
      assert errs[k] == InstanceError(n, "unreachable");
    }
    if InstanceError(n, "unreachable") in errs {
      var k :| 0 <= k < |errs| && errs[k] == InstanceError(n, "unreachable");
      assert kept[k] == n;
    }
  }

  lemma {:induction false} FailuresInOrder(net: Network, clients: seq<string>, p: string -> bool, i: nat, j: nat) returns (a: nat, b: nat)
    requires i < j < |Failures(net, Keep(clients, p))|
    ensures a < b < |clients|
    ensures clients[a] == Failures(net, Keep(clients, p))[i].instance && clients[b] == Failures(net, Keep(clients, p))[j].instance
  {
    FailuresAre(net, Keep(clients, p));
    var c, d := KeepInOrder(Keep(clients, p), Unreached(net), i, j);
    a, b := KeepInOrder(clients, p, c, d);
  }

  /** Which instances a page reports as failed, and in which order. */
  lemma {:induction false} PageErrors(net: Network, clients: seq<string>, f: Filter, prev: CursorMap, errors: seq<InstanceError>)
    requires errors == Failures(net, Keep(clients, StillOpen(f, prev)))
    ensures forall n :: InstanceError(n, "unreachable") in errors <==>
              && n in clients && (f.instances == [] || n in f.instances)
              && !(n in prev && prev[n].d)
              && !(n in net.logs && n !in net.down)
    ensures forall e | e in errors :: e.error == "unreachable"
    ensures forall i, j | 0 <= i < j < |errors| ::
              exists a, b | 0 <= a < b < |clients| :: clients[a] == errors[i].instance && clients[b] == errors[j].instance
  {
    var open := Keep(clients, StillOpen(f, prev));
    FailuresAre(net, open);
    forall n
      ensures InstanceError(n, "unreachable") in errors <==>
                && n in clients && (f.instances == [] || n in f.instances)
                && !(n in prev && prev[n].d)
                && !(n in net.logs && n !in net.down)
    {
      FailureIff(net, open, n);
      assert n in open <==> n in clients && StillOpen(f, prev)(n);
    }
    forall i: nat, j: nat | i < j < |errors|
      ensures exists a, b | 0 <= a < b < |clients| :: clients[a] == errors[i].instance && clients[b] == errors[j].instance
    {
      var a, b := FailuresInOrder(net, clients, StillOpen(f, prev), i, j);
    }
  }

  // ---------------------------------------------------------------- the code

  method ComputeSelected(f: Filter, name: string) returns (b: bool)
    ensures b <==> Selected(f, name)
    ensures b <==> |f.instances| == 0 || exists k | 0 <= k < |f.instances| :: f.instances[k] == name
  {
    if |f.instances| == 0 {
      return true;
    }
    for i := 0 to |f.instances|
      invariant name !in f.instances[..i]
    {
      if f.instances[i] == name {
        return true;
      }
    }
    return false;
  }

  /** A Go map read: absent names have no entries. */
  function ItemsOf(m: map<string, seq<Item>>, name: string): (r: seq<Item>)
  {
    if name in m then m[name] else []
  }

  method BuildNextCursor(
      prev: CursorMap, f: Filter, clients: seq<string>, byInstance: map<string, seq<Item>>,
      failed: set<string>, consumed: map<string, nat>, pageSize: nat) returns (next: CursorMap)
    requires forall n | n in clients && StillOpen(f, prev)(n) && n !in failed ::
               CountFor(consumed, n) <= |ItemsOf(byInstance, n)|
    ensures next.Keys == set n | n in clients && (f.instances == [] || n in f.instances)
    ensures forall n | n in next ::
              var c := Lookup(prev, n);
              next[n] == if c.d || n in failed then c
                         else Advance(c, true, ItemsOf(byInstance, n), CountFor(consumed, n), pageSize)
    ensures forall n | n in next && !Lookup(prev, n).d && n !in failed ::
              var returned, c := ItemsOf(byInstance, n), CountFor(consumed, n);
              && next[n].o == (if 0 < c <= |returned| then returned[c - 1].rawTime else Lookup(prev, n).o)
              && (next[n].d <==> |returned| < pageSize && c == |returned|)
  {
    next := map[];
    for i := 0 to |clients|
      invariant next.Keys == set n | n in clients[..i] && Selected(f, n)
      invariant forall n | n in next ::
              var c := Lookup(prev, n);
              next[n] == if c.d || n in failed then c
                         else Advance(c, true, ItemsOf(byInstance, n), CountFor(consumed, n), pageSize)
    {
      var name := clients[i];
      assert clients[..i + 1] == clients[..i] + [name];
      var selected := ComputeSelected(f, name);
      if !selected {
        continue;
      }
      if Lookup(prev, name).d {
        next := next[name := InstanceCursor(Lookup(prev, name).o, true)];
        continue;
      }
      if name in failed {
        next := next[name := Lookup(prev, name)];
        continue;
      }
      assert StillOpen(f, prev)(name);
      var returned := ItemsOf(byInstance, name);
      var c := CountFor(consumed, name);
      var newO := Lookup(prev, name).o;
      if c > 0 {
        newO := returned[c - 1].rawTime;
      }
      var done := |returned| < pageSize && c == |returned|;
      next := next[name := InstanceCursor(newO, done)];
    }
    assert clients[..|clients|] == clients;
  }

  method AnyNotDone(next: CursorMap, f: Filter, clients: seq<string>) returns (b: bool)
    ensures b <==> AnyOpen(Names(clients, f), next)
  {
    for i := 0 to |clients|
      invariant forall n | n in clients[..i] && Selected(f, n) :: Lookup(next, n).d
    {
      assert clients[..i + 1] == clients[..i] + [clients[i]];
      var selected := ComputeSelected(f, clients[i]);
      if !selected {
        continue;
      }
      if !Lookup(next, clients[i]).d {
        assert clients[i] in Names(clients, f);
        return true;
      }
    }
    assert clients[..|clients|] == clients;
    return false;
  }

  /** The clients to query for this page: selected and not exhausted. */
  method Partition(clients: seq<string>, f: Filter, prev: CursorMap) returns (active: seq<string>)
    ensures active == Keep(clients, StillOpen(f, prev))
  {
    active := [];
    for i := 0 to |clients|
      invariant active + Keep(clients[i..], StillOpen(f, prev)) == Keep(clients, StillOpen(f, prev))
    {
      KeepStep(active, clients, i, StillOpen(f, prev));
      var selected := ComputeSelected(f, clients[i]);
      if !selected {
        continue;
      }
      if Lookup(prev, clients[i]).d {
        continue;
      }
      active := active + [clients[i]];
    }
  }

  /** Sort the results into answers and failures. */
  method Collect(net: Network, active: seq<string>, results: seq<FanOut.Result<seq<Item>>>, ghost offers: map<string, seq<Item>>)
    returns (byInstance: map<string, seq<Item>>, groups: seq<TaggedEntries>, errs: seq<InstanceError>, failed: set<string>)
    requires |results| == |active| && Covers(active, offers)
    requires forall j | 0 <= j < |active| ::
               results[j] == FanOut.Result(active[j], if net.Reaches(active[j]) then Ok(offers[active[j]]) else Err("unreachable"))
    requires forall n | n in active && !net.Reaches(n) :: offers[n] == []
    ensures forall n :: n in failed <==> n in active && !net.Reaches(n)
    ensures forall n | n in active && net.Reaches(n) :: ItemsOf(byInstance, n) == offers[n]
    ensures errs == Failures(net, active)
    ensures Concat(groups) == Flatten(active, offers)
  {
    byInstance, groups, errs, failed := map[], [], [], {};
    for j := 0 to |results|
      invariant forall n :: n in failed <==> n in active[..j] && !net.Reaches(n)
      invariant forall n | n in active[..j] && net.Reaches(n) :: ItemsOf(byInstance, n) == offers[n]
      invariant errs == Failures(net, active[..j])
      invariant Concat(groups) == Flatten(active[..j], offers)
    {
      var r := results[j];
      assert active[..j + 1] == active[..j] + [active[j]];
      FailuresAppend(net, active[..j], [active[j]]);
      FlattenAppend(active[..j], [active[j]], offers);
      if r.outcome.Err? {
        errs := errs + [InstanceError(r.instance, r.outcome.error)];
        failed := failed + {r.instance};
        continue;
      }
      byInstance := byInstance[r.instance := r.outcome.value];
      ConcatAppend(groups, [TaggedEntries(r.instance, r.outcome.value)]);
      groups := groups + [TaggedEntries(r.instance, r.outcome.value)];
    }
    assert active[..|active|] == active;
  }

  lemma {:induction false} NextMatches(
      net: Network, prev: CursorMap, offers: map<string, seq<Item>>, page: seq<Item>, pageSize: int, names: seq<string>,
      next: CursorMap, byInstance: map<string, seq<Item>>, failed: set<string>, consumed: map<string, nat>)
    requires Covers(names, offers)
    requires forall n :: n in next <==> n in names
    requires forall n | n in next ::
               var c := Lookup(prev, n);
               next[n] == if c.d || n in failed then c
                          else Advance(c, true, ItemsOf(byInstance, n), CountFor(consumed, n), pageSize)
    requires forall n | n in names && !Lookup(prev, n).d ::
               (n in failed <==> !net.Reaches(n)) && (net.Reaches(n) ==> ItemsOf(byInstance, n) == offers[n])
    requires forall n :: CountFor(consumed, n) == CountOf(page, n)
    ensures next == Next(net, prev, offers, page, pageSize, names)
  {
    forall n | n in names
      ensures next[n] == Advance(Lookup(prev, n), net.Reaches(n), offers[n], CountOf(page, n), pageSize)
    {
      assert n in next;
    }
  }

  /** The page load itself. */
  method LoadPage(
      rt: Runtime, net: Network, clients: seq<string>, f: Filter, cursor: Option<Cursor>, pageSize: nat)
      returns (page: LogsPage)
    requires Distinct(clients) && 1 <= pageSize
    ensures page == PageOf(rt, net, clients, f, if cursor.Some? then cursor.value.i else map[], pageSize)
  {
    var prev: CursorMap := if cursor.Some? then cursor.value.i else map[];
    ghost var names := Names(clients, f);
    ghost var offers := Offers(rt, net, f, prev, pageSize, names);

    var active := Partition(clients, f, prev);
    var term := AdguardSearchTerm(f.search);
    var fetch := (name: string) =>
      FetchLog(rt, net, name, QueryLogParams(Lookup(prev, name).o, pageSize, term, f.status));
    var results := FanOut.FanOut(active, fetch);

    FlattenSkip(clients, f, prev, offers);
    forall j | 0 <= j < |active|
      ensures results[j] == FanOut.Result(active[j], if net.Reaches(active[j]) then Ok(offers[active[j]]) else Err("unreachable"))
    {
      assert active[j] in active && StillOpen(f, prev)(active[j]);
    }
    var byInstance, groups, errs, failed := Collect(net, active, results, offers);
    var merged, consumed := MergeDescending(groups, pageSize);

    TakenWithinAll(rt, net, clients, f, prev, pageSize);
    var next := BuildNextCursor(prev, f, clients, byInstance, failed, consumed, pageSize);
    forall n | n in names && !Lookup(prev, n).d ensures n in active {
      assert StillOpen(f, prev)(n);
    }
    NextMatches(net, prev, offers, merged, pageSize, names, next, byInstance, failed, consumed);
    var hasMore := AnyNotDone(next, f, clients);
    var entries := FilterEntries(rt, f.search, merged);
    page := LogsPage(entries, if hasMore then Encode(Cursor(CURSOR_VERSION, next)) else Nothing, hasMore, errs);
  }

  method FetchLogs(
      rt: Runtime, net: Network, clients: seq<string>, f: Filter, cursor: Option<Cursor>, pageSize: nat)
      returns (page: LogsPage)
    requires Distinct(clients) && 1 <= pageSize
    ensures page == PageOf(rt, net, clients, f, if cursor.Some? then cursor.value.i else map[], pageSize)
    ensures forall it | it in page.entries :: it.instance in clients && (f.instances == [] || it.instance in f.instances)
    ensures page.hasMore ==>
              && page.nextCursor.Decoded? && page.nextCursor.v == 1 && page.nextCursor.i.Some?
              && page.nextCursor.i.value.Keys == set n | n in clients && (f.instances == [] || n in f.instances)
    ensures !page.hasMore ==> page.nextCursor == Nothing
    ensures forall n :: InstanceError(n, "unreachable") in page.errors <==>
              && n in clients && (f.instances == [] || n in f.instances)
              && !(cursor.Some? && n in cursor.value.i && cursor.value.i[n].d)
              && !(n in net.logs && n !in net.down)
    ensures forall e | e in page.errors :: e.error == "unreachable"
    ensures forall i, j | 0 <= i < j < |page.entries| ::
              && page.entries[i].parsedTime >= page.entries[j].parsedTime
              && (page.entries[i].parsedTime == page.entries[j].parsedTime ==>
                    !Less(page.entries[j].instance, page.entries[i].instance))
              && (page.entries[i].parsedTime == page.entries[j].parsedTime && page.entries[i].instance == page.entries[j].instance ==>
                    !Less(page.entries[j].rawTime, page.entries[i].rawTime))
  {
    page := LoadPage(rt, net, clients, f, cursor, pageSize);
    ghost var prev: CursorMap := if cursor.Some? then cursor.value.i else map[];
    PageEntries(rt, net, clients, f, prev, pageSize, page);
    PageCursor(rt, net, clients, f, prev, pageSize, page);
    PageErrors(net, clients, f, prev, page.errors);
  }
}
