/** Merging the instances' statistics, against the statistics of the merged log. Averages and
    percentages are over the reals. */
module Stats {
  import opened Ordering
  import opened QueryLog
  import opened Ranking
  import FanOut

  /** strconv.ParseFloat of a finite number; None is an error. */
  type FloatParser = string -> Option<real>

  /** The rows of a top list. */
  const TOP_N := 10

  datatype InstanceReport = InstanceReport(
    numDNSQueries: int, numBlockedFiltering: int, avgProcessingTime: real,
    topQueriedDomains: seq<TopEntry>, topBlockedDomains: seq<TopEntry>, topClients: seq<TopEntry>)

  datatype InstanceStats = InstanceStats(
    instance: string, numDNSQueries: int, numBlockedFiltering: int, blockedPercent: real, avgProcessingTime: real)

  datatype MergedStats = MergedStats(
    numDNSQueries: int, numBlockedFiltering: int, blockedPercent: real, avgProcessingTime: real,
    perInstance: seq<InstanceStats>,
    topQueriedDomains: seq<MergedTopEntry>, topBlockedDomains: seq<MergedTopEntry>, topClients: seq<MergedTopEntry>,
    errors: seq<string>)

  // ---------------------------------------------------------------- counting a log

  /** The three things counted: queried domains, blocked domains, clients. */
  datatype Column = Queried | Blocked | ByClient

  /** What an entry contributes to a column. */
  function KeyOf(e: Entry, c: Column): (r: seq<string>)
  {
    match c
    case Queried => [e.domain]
    case Blocked => if e.blocked then [e.domain] else []
    case ByClient => [e.client]
  }

  function Keys(entries: seq<Entry>, c: Column): (r: seq<string>)
  {
    if entries == [] then [] else Keys(entries[..|entries| - 1], c) + KeyOf(entries[|entries| - 1], c)
  }

  function CountsOf(keys: seq<string>): (m: Counts)
  {
    map k | k in keys :: multiset(keys)[k]
  }

  function ElapsedSum(entries: seq<Entry>, parse: FloatParser): (s: real)
  {
    if entries == [] then 0.0
    else
      var e := entries[|entries| - 1];
      ElapsedSum(entries[..|entries| - 1], parse) + (if parse(e.elapsed).Some? then parse(e.elapsed).value else 0.0)
  }

  function ElapsedCount(entries: seq<Entry>, parse: FloatParser): (n: nat)
    ensures n <= |entries|
  {
    if entries == [] then 0
    else ElapsedCount(entries[..|entries| - 1], parse) + (if parse(entries[|entries| - 1].elapsed).Some? then 1 else 0)
  }

  /** Milliseconds in the log, seconds in the report. */
  function Average(sum: real, count: nat): (avg: real)
  {
    if count > 0 then sum / count as real / 1000.0 else 0.0
  }

  function ListOf(r: InstanceReport, c: Column): (l: seq<TopEntry>)
  {
    match c case Queried => r.topQueriedDomains case Blocked => r.topBlockedDomains case ByClient => r.topClients
  }

  /** The report is the statistics of the log. */
  ghost predicate Reports(r: InstanceReport, entries: seq<Entry>, parse: FloatParser)
  {
    && r.numDNSQueries == |entries|
    && r.numBlockedFiltering == |Keys(entries, Blocked)|
    && r.avgProcessingTime == Average(ElapsedSum(entries, parse), ElapsedCount(entries, parse))
    && TopOf(r.topQueriedDomains, CountsOf(Keys(entries, Queried)), TOP_N)
    && TopOf(r.topBlockedDomains, CountsOf(Keys(entries, Blocked)), TOP_N)
    && TopOf(r.topClients, CountsOf(Keys(entries, ByClient)), TOP_N)
  }

  lemma {:induction false} ReportsColumn(r: InstanceReport, entries: seq<Entry>, parse: FloatParser, c: Column)
    requires Reports(r, entries, parse)
    ensures TopOf(ListOf(r, c), CountsOf(Keys(entries, c)), TOP_N)
  {
  }

  /** counts[key]++ on a map. */
  function Bump(m: Counts, key: string): (r: Counts)
  {
    m[key := (if key in m then m[key] else 0) + 1]
  }

  lemma {:induction false} BumpCounts(keys: seq<string>, key: string)
    ensures CountsOf(keys + [key]) == Bump(CountsOf(keys), key)
  {
    assert multiset(keys + [key]) == multiset(keys) + multiset{key};
    forall k ensures k in CountsOf(keys + [key]) <==> k in Bump(CountsOf(keys), key) {}
  }

  /** The counting loop's variables. */
  datatype Counters = Counters(
    queried: Counts, blocked: Counts, clients: Counts, numBlocked: nat, elapsedSum: real, elapsedCount: nat)
  {
    function Count(e: Entry, ms: Option<real>): (r: Counters)
    {
      Counters(Bump(queried, e.domain), if e.blocked then Bump(blocked, e.domain) else blocked, Bump(clients, e.client),
               if e.blocked then numBlocked + 1 else numBlocked,
               if ms.Some? then elapsedSum + ms.value else elapsedSum,
               if ms.Some? then elapsedCount + 1 else elapsedCount)
    }
  }

  function Counted(entries: seq<Entry>, parse: FloatParser): (r: Counters)
  {
    if entries == [] then Counters(map[], map[], map[], 0, 0.0, 0)
    else
      var e := entries[|entries| - 1];
      Counted(entries[..|entries| - 1], parse).Count(e, parse(e.elapsed))
  }

  lemma {:induction false} CountedColumn(entries: seq<Entry>, parse: FloatParser, c: Column)
    ensures CountsOf(Keys(entries, c))
         == match c
            case Queried => Counted(entries, parse).queried
            case Blocked => Counted(entries, parse).blocked
            case ByClient => Counted(entries, parse).clients
  {
    if entries != [] {
      var n := |entries| - 1;
      CountedColumn(entries[..n], parse, c);
      var keys, k := Keys(entries[..n], c), KeyOf(entries[n], c);
      if k == [] {
        assert keys + k == keys;
      } else {
        BumpCounts(keys, k[0]);
      }
    }
  }

  lemma {:induction false} CountedScalars(entries: seq<Entry>, parse: FloatParser)
    ensures var r := Counted(entries, parse);
            && r.numBlocked == |Keys(entries, Blocked)|
            && r.elapsedSum == ElapsedSum(entries, parse) && r.elapsedCount == ElapsedCount(entries, parse)
  {
    if entries != [] {
      CountedScalars(entries[..|entries| - 1], parse);
    }
  }

  lemma {:induction false} CountedReports(entries: seq<Entry>, parse: FloatParser, s: Counters, r: InstanceReport)
    requires s == Counted(entries, parse)
    requires r.numDNSQueries == |entries| && r.numBlockedFiltering == s.numBlocked
    requires r.avgProcessingTime == Average(s.elapsedSum, s.elapsedCount)
    requires TopOf(r.topQueriedDomains, s.queried, TOP_N)
    requires TopOf(r.topBlockedDomains, s.blocked, TOP_N)
    requires TopOf(r.topClients, s.clients, TOP_N)
    ensures Reports(r, entries, parse)
  {
    CountedColumn(entries, parse, Queried);
    CountedColumn(entries, parse, Blocked);
    CountedColumn(entries, parse, ByClient);
    CountedScalars(entries, parse);
  }

  function Positions(s: seq<Entry>, p: Entry -> bool): (r: set<int>)
  {
    set i | 0 <= i < |s| && p(s[i])
  }

  lemma {:induction false} PositionsLast(s: seq<Entry>, p: Entry -> bool)
    requires s != []
    ensures var n := |s| - 1; Positions(s, p) == if p(s[n]) then Positions(s[..n], p) + {n} else Positions(s[..n], p)
    ensures |s| - 1 !in Positions(s[..|s| - 1], p)
  {
    var n := |s| - 1;
    assert forall i | 0 <= i < n :: s[..n][i] == s[i];
  }

  lemma {:induction false} PositionsKept(s: seq<Entry>, p: Entry -> bool)
    ensures |Keep(s, p)| == |Positions(s, p)|
  {
    if s != [] {
      var n := |s| - 1;
      PositionsKept(s[..n], p);
      PositionsLast(s, p);
      KeptLast(s, p);
    }
  }

  lemma {:induction false} KeptLast(s: seq<Entry>, p: Entry -> bool)
    requires s != []
    ensures |Keep(s, p)| == |Keep(s[..|s| - 1], p)| + if p(s[|s| - 1]) then 1 else 0
  {
    var n := |s| - 1;
    assert s == s[..n] + [s[n]];
    KeepAppend(s[..n], [s[n]], p);
    assert |Keep([s[n]], p)| == if p(s[n]) then 1 else 0;
  }

  function KeyIs(c: Column, name: string): Entry -> bool
  {
    (e: Entry) => KeyOf(e, c) == [name]
  }

  lemma {:induction false} KeysKept(entries: seq<Entry>, c: Column, name: string)
    ensures multiset(Keys(entries, c))[name] == |Keep(entries, KeyIs(c, name))|
  {
    if entries != [] {
      var n := |entries| - 1;
      KeysKept(entries[..n], c, name);
      KeptLast(entries, KeyIs(c, name));
      assert multiset(KeyOf(entries[n], c))[name] == if KeyOf(entries[n], c) == [name] then 1 else 0;
    }
  }

  function IsBlocked(): Entry -> bool
  {
    (e: Entry) => e.blocked
  }

  lemma {:induction false} BlockedKept(entries: seq<Entry>)
    ensures |Keys(entries, Blocked)| == |Keep(entries, IsBlocked())|
  {
    if entries != [] {
      BlockedKept(entries[..|entries| - 1]);
      KeptLast(entries, IsBlocked());
    }
  }

  lemma {:induction false} BlockedSpelled(entries: seq<Entry>)
    ensures |Keys(entries, Blocked)| == |set i | 0 <= i < |entries| && entries[i].blocked|
  {
    var p := IsBlocked();
    BlockedKept(entries);
    PositionsKept(entries, p);
    assert Positions(entries, p) == set i | 0 <= i < |entries| && entries[i].blocked;
  }

  lemma {:induction false} QueriedCount(entries: seq<Entry>, name: string)
    ensures multiset(Keys(entries, Queried))[name] == |set i | 0 <= i < |entries| && entries[i].domain == name|
  {
    var p := KeyIs(Queried, name);
    KeysKept(entries, Queried, name);
    PositionsKept(entries, p);
    assert Positions(entries, p) == set i | 0 <= i < |entries| && entries[i].domain == name;
  }

  lemma {:induction false} BlockedCount(entries: seq<Entry>, name: string)
    ensures multiset(Keys(entries, Blocked))[name] == |set i | 0 <= i < |entries| && entries[i].blocked && entries[i].domain == name|
  {
    var p := KeyIs(Blocked, name);
    KeysKept(entries, Blocked, name);
    PositionsKept(entries, p);
    assert Positions(entries, p) == set i | 0 <= i < |entries| && entries[i].blocked && entries[i].domain == name;
  }

  lemma {:induction false} ClientCount(entries: seq<Entry>, name: string)
    ensures multiset(Keys(entries, ByClient))[name] == |set i | 0 <= i < |entries| && entries[i].client == name|
  {
    var p := KeyIs(ByClient, name);
    KeysKept(entries, ByClient, name);
    PositionsKept(entries, p);
    assert Positions(entries, p) == set i | 0 <= i < |entries| && entries[i].client == name;
  }

  lemma {:induction false} CountedRow(rows: seq<TopEntry>, keys: seq<string>, r: TopEntry)
    requires TopOf(rows, CountsOf(keys), TOP_N) && r in rows
    ensures r.count == multiset(keys)[r.name]
  {
    var i :| 0 <= i < |rows| && rows[i] == r;
  }

  /** What a report says of a log, entry by entry. */
  lemma {:induction false} ReportSpelled(entries: seq<Entry>, parse: FloatParser, r: InstanceReport)
    requires Reports(r, entries, parse)
    ensures r.numBlockedFiltering == |set i | 0 <= i < |entries| && entries[i].blocked|
    ensures forall row | row in r.topQueriedDomains :: row.count == |set i | 0 <= i < |entries| && entries[i].domain == row.name|
    ensures forall row | row in r.topBlockedDomains ::
              row.count == |set i | 0 <= i < |entries| && entries[i].blocked && entries[i].domain == row.name|
    ensures forall row | row in r.topClients :: row.count == |set i | 0 <= i < |entries| && entries[i].client == row.name|
  {
    BlockedSpelled(entries);
    forall row | row in r.topQueriedDomains ensures row.count == |set i | 0 <= i < |entries| && entries[i].domain == row.name| {
      CountedRow(r.topQueriedDomains, Keys(entries, Queried), row);
      QueriedCount(entries, row.name);
    }
    forall row | row in r.topBlockedDomains
      ensures row.count == |set i | 0 <= i < |entries| && entries[i].blocked && entries[i].domain == row.name|
    {
      CountedRow(r.topBlockedDomains, Keys(entries, Blocked), row);
      BlockedCount(entries, row.name);
    }
    forall row | row in r.topClients ensures row.count == |set i | 0 <= i < |entries| && entries[i].client == row.name| {
      CountedRow(r.topClients, Keys(entries, ByClient), row);
      ClientCount(entries, row.name);
    }
  }

  /** The elapsed times of a log of one entry; `ElapsedAppend` gives the rest. */
  lemma {:induction false} ElapsedOne(e: Entry, parse: FloatParser)
    ensures ElapsedSum([e], parse) == (if parse(e.elapsed).Some? then parse(e.elapsed).value else 0.0)
    ensures ElapsedCount([e], parse) == if parse(e.elapsed).Some? then 1 else 0
  {
    assert [e][..0] == [];
  }

  /** Count the log. */
  method CountLog(entries: seq<Entry>, parse: FloatParser) returns (r: InstanceReport)
    ensures Reports(r, entries, parse)
  {
    var queried: Counts, blocked: Counts, clients: Counts := map[], map[], map[];
    var numBlocked, elapsedCount := 0, 0;
    var elapsedSum := 0.0;
    for i := 0 to |entries|
      invariant Counters(queried, blocked, clients, numBlocked, elapsedSum, elapsedCount) == Counted(entries[..i], parse)
    {
      var e := entries[i];
      assert entries[..i + 1][..i] == entries[..i];
      queried := Bump(queried, e.domain);
      clients := Bump(clients, e.client);
      if e.blocked {
        numBlocked := numBlocked + 1;
        blocked := Bump(blocked, e.domain);
      }
      var ms := parse(e.elapsed);
      if ms.Some? {
        elapsedSum := elapsedSum + ms.value;
        elapsedCount := elapsedCount + 1;
      }
    }
    assert entries[..|entries|] == entries;
    var avg := 0.0;
    if elapsedCount > 0 {
      avg := elapsedSum / elapsedCount as real / 1000.0;
    }
    var topQueried := TopN(queried, TOP_N);
    var topBlocked := TopN(blocked, TOP_N);
    var topClients := TopN(clients, TOP_N);
    r := InstanceReport(|entries|, numBlocked, avg, topQueried, topBlocked, topClients);
    CountedReports(entries, parse, Counters(queried, blocked, clients, numBlocked, elapsedSum, elapsedCount), r);
  }

  method DeriveStats(entries: seq<Entry>, parse: FloatParser) returns (r: InstanceReport)
    ensures Reports(r, entries, parse)
    ensures r.numDNSQueries == |entries|
    ensures r.numBlockedFiltering == |set i | 0 <= i < |entries| && entries[i].blocked|
    ensures forall row | row in r.topQueriedDomains :: row.count == |set i | 0 <= i < |entries| && entries[i].domain == row.name|
    ensures forall row | row in r.topBlockedDomains ::
              row.count == |set i | 0 <= i < |entries| && entries[i].blocked && entries[i].domain == row.name|
    ensures forall row | row in r.topClients :: row.count == |set i | 0 <= i < |entries| && entries[i].client == row.name|
  {
    r := CountLog(entries, parse);
    ReportSpelled(entries, parse, r);
  }

  // ---------------------------------------------------------------- merging reports

  /** The instances that answered, with their reports, in client order. */
  function Reported(names: seq<string>, fetch: string -> Outcome<InstanceReport>): (r: seq<(string, InstanceReport)>)
  {
    if names == [] then []
    else
      var n := names[|names| - 1];
      Reported(names[..|names| - 1], fetch) + (match fetch(n) case Ok(v) => [(n, v)] case Err(_) => [])
  }

  function Failed(names: seq<string>, fetch: string -> Outcome<InstanceReport>): (r: seq<string>)
  {
    if names == [] then []
    else
      var n := names[|names| - 1];
      Failed(names[..|names| - 1], fetch) + (if fetch(n).Err? then [n] else [])
  }

  function SumQueries(rs: seq<(string, InstanceReport)>): (n: int)
  {
    if rs == [] then 0 else SumQueries(rs[..|rs| - 1]) + rs[|rs| - 1].1.numDNSQueries
  }

  function SumBlocked(rs: seq<(string, InstanceReport)>): (n: int)
  {
    if rs == [] then 0 else SumBlocked(rs[..|rs| - 1]) + rs[|rs| - 1].1.numBlockedFiltering
  }

  function Weight(r: InstanceReport): (w: real)
  {
    r.avgProcessingTime * r.numDNSQueries as real
  }

  function WeightedSum(rs: seq<(string, InstanceReport)>): (s: real)
  {
    if rs == [] then 0.0 else WeightedSum(rs[..|rs| - 1]) + Weight(rs[|rs| - 1].1)
  }

  function MergedTally(rs: seq<(string, InstanceReport)>, c: Column): (t: Tally)
  {
    if rs == [] then Tally(map[], map[], [])
    else AddAll(MergedTally(rs[..|rs| - 1], c), rs[|rs| - 1].0, ListOf(rs[|rs| - 1].1, c))
  }

  function Share(part: int, whole: int): (p: real)
  {
    if whole > 0 then part as real / whole as real * 100.0 else 0.0
  }

  function Projected(instance: string, r: InstanceReport): (s: InstanceStats)
  {
    InstanceStats(instance, r.numDNSQueries, r.numBlockedFiltering, Share(r.numBlockedFiltering, r.numDNSQueries), r.avgProcessingTime)
  }

  function PerInstance(rs: seq<(string, InstanceReport)>): (r: seq<InstanceStats>)
  {
    if rs == [] then [] else PerInstance(rs[..|rs| - 1]) + [Projected(rs[|rs| - 1].0, rs[|rs| - 1].1)]
  }

  function MergedList(m: MergedStats, c: Column): (l: seq<MergedTopEntry>)
  {
    match c case Queried => m.topQueriedDomains case Blocked => m.topBlockedDomains case ByClient => m.topClients
  }

  lemma {:induction false} MergedTallyConsistent(rs: seq<(string, InstanceReport)>, c: Column)
    ensures MergedTally(rs, c).Consistent()
  {
    if rs != [] {
      var n := |rs| - 1;
      MergedTallyConsistent(rs[..n], c);
      AddAllConsistent(MergedTally(rs[..n], c), rs[n].0, ListOf(rs[n].1, c));
    }
  }

  function PerQuery(sum: real, queries: int): (avg: real)
  {
    if queries > 0 then sum / queries as real else 0.0
  }

  /** Every row carries the merger's breakdown of its name. */
  ghost predicate BrokenDown(rows: seq<MergedTopEntry>, t: Tally)
  {
    forall r | r in rows :: r.name in t.perInstance && r.perInstance == t.perInstance[r.name]
  }

  /** The rows of a list for one name, tagged with the instance. */
  function PartsIn(instance: string, entries: seq<TopEntry>, name: string): (r: seq<InstanceCount>)
  {
    if entries == [] then []
    else
      var e := entries[|entries| - 1];
      PartsIn(instance, entries[..|entries| - 1], name) + (if e.name == name then [InstanceCount(instance, e.count)] else [])
  }

  /** Who reported a name, and how often, in client order. */
  function Breakdown(rs: seq<(string, InstanceReport)>, c: Column, name: string): (r: seq<InstanceCount>)
  {
    if rs == [] then []
    else
      var last := rs[|rs| - 1];
      Breakdown(rs[..|rs| - 1], c, name) + PartsIn(last.0, ListOf(last.1, c), name)
  }

  lemma {:induction false} AddAllParts(t: Tally, instance: string, entries: seq<TopEntry>, name: string)
    ensures AddAll(t, instance, entries).Parts(name) == t.Parts(name) + PartsIn(instance, entries, name)
  {
    if entries != [] {
      AddAllParts(t, instance, entries[..|entries| - 1], name);
    }
  }

  /** A merged name's breakdown is what the instances reported of it. */
  lemma {:induction false} MergedBreakdown(rs: seq<(string, InstanceReport)>, c: Column, name: string)
    ensures MergedTally(rs, c).Parts(name) == Breakdown(rs, c, name)
  {
    if rs != [] {
      var n := |rs| - 1;
      MergedBreakdown(rs[..n], c, name);
      AddAllParts(MergedTally(rs[..n], c), rs[n].0, ListOf(rs[n].1, c), name);
    }
  }

  /** The merged statistics are those of the reports `rs`. */
  ghost predicate Merges(m: MergedStats, rs: seq<(string, InstanceReport)>)
  {
    && m.numDNSQueries == SumQueries(rs) && m.numBlockedFiltering == SumBlocked(rs)
    && m.avgProcessingTime == PerQuery(WeightedSum(rs), SumQueries(rs))
    && m.blockedPercent == Share(SumBlocked(rs), SumQueries(rs))
    && m.perInstance == PerInstance(rs)
    && TopOf(Plain(m.topQueriedDomains), MergedTally(rs, Queried).totals, TOP_N)
    && TopOf(Plain(m.topBlockedDomains), MergedTally(rs, Blocked).totals, TOP_N)
    && TopOf(Plain(m.topClients), MergedTally(rs, ByClient).totals, TOP_N)
    && BrokenDown(m.topQueriedDomains, MergedTally(rs, Queried))
    && BrokenDown(m.topBlockedDomains, MergedTally(rs, Blocked))
    && BrokenDown(m.topClients, MergedTally(rs, ByClient))
  }

  /** Every row of a merged list names the instances that reported it, each with its count. */
  lemma {:induction false} RowBreakdown(m: MergedStats, rs: seq<(string, InstanceReport)>, c: Column, r: MergedTopEntry)
    requires Merges(m, rs) && r in MergedList(m, c)
    ensures r.perInstance == Breakdown(rs, c, r.name)
  {
    MergedBreakdown(rs, c, r.name);
  }

  lemma {:induction false} MergesColumn(m: MergedStats, rs: seq<(string, InstanceReport)>, c: Column)
    requires Merges(m, rs)
    ensures TopOf(Plain(MergedList(m, c)), MergedTally(rs, c).totals, TOP_N)
  {
  }

  lemma {:induction false} SumsAppend(rs: seq<(string, InstanceReport)>, x: (string, InstanceReport))
    ensures SumQueries(rs + [x]) == SumQueries(rs) + x.1.numDNSQueries
    ensures SumBlocked(rs + [x]) == SumBlocked(rs) + x.1.numBlockedFiltering
    ensures WeightedSum(rs + [x]) == WeightedSum(rs) + Weight(x.1)
    ensures PerInstance(rs + [x]) == PerInstance(rs) + [Projected(x.0, x.1)]
  {
    assert (rs + [x])[..|rs|] == rs;
  }

  lemma {:induction false} TalliesAppend(rs: seq<(string, InstanceReport)>, x: (string, InstanceReport))
    ensures MergedTally(rs + [x], Queried) == AddAll(MergedTally(rs, Queried), x.0, x.1.topQueriedDomains)
    ensures MergedTally(rs + [x], Blocked) == AddAll(MergedTally(rs, Blocked), x.0, x.1.topBlockedDomains)
    ensures MergedTally(rs + [x], ByClient) == AddAll(MergedTally(rs, ByClient), x.0, x.1.topClients)
  {
    assert (rs + [x])[..|rs|] == rs;
  }

  ghost predicate Summed(numQueries: int, numBlocked: int, weightedSum: real, perInstance: seq<InstanceStats>,
                         rs: seq<(string, InstanceReport)>)
  {
    && numQueries == SumQueries(rs) && numBlocked == SumBlocked(rs) && weightedSum == WeightedSum(rs)
    && perInstance == PerInstance(rs)
  }

  lemma {:induction false} ReportedStep(names: seq<string>, fetch: string -> Outcome<InstanceReport>, i: nat)
    requires i < |names|
    ensures Reported(names[..i + 1], fetch)
         == if fetch(names[i]).Ok? then Reported(names[..i], fetch) + [(names[i], fetch(names[i]).value)] else Reported(names[..i], fetch)
    ensures Failed(names[..i + 1], fetch)
         == if fetch(names[i]).Ok? then Failed(names[..i], fetch) else Failed(names[..i], fetch) + [names[i]]
  {
    assert names[..i + 1][..i] == names[..i];
  }

  /** Hand one report's lists to the three mergers. */
  method AddReport(queried: TopMerger, blocked: TopMerger, clients: TopMerger, instance: string, r: InstanceReport)
    requires queried != blocked && queried != clients && blocked != clients
    modifies queried, blocked, clients
    ensures queried.Value() == AddAll(old(queried.Value()), instance, r.topQueriedDomains)
    ensures blocked.Value() == AddAll(old(blocked.Value()), instance, r.topBlockedDomains)
    ensures clients.Value() == AddAll(old(clients.Value()), instance, r.topClients)
  {
    queried.Add(instance, r.topQueriedDomains);
    blocked.Add(instance, r.topBlockedDomains);
    clients.Add(instance, r.topClients);
  }

  /** What the three mergers hold of the reports `rs`, ranked. */
  method TopLists(queried: TopMerger, blocked: TopMerger, clients: TopMerger, ghost rs: seq<(string, InstanceReport)>)
    returns (q: seq<MergedTopEntry>, b: seq<MergedTopEntry>, c: seq<MergedTopEntry>)
    requires queried.Value() == MergedTally(rs, Queried)
    requires blocked.Value() == MergedTally(rs, Blocked)
    requires clients.Value() == MergedTally(rs, ByClient)
    ensures TopOf(Plain(q), MergedTally(rs, Queried).totals, TOP_N)
    ensures TopOf(Plain(b), MergedTally(rs, Blocked).totals, TOP_N)
    ensures TopOf(Plain(c), MergedTally(rs, ByClient).totals, TOP_N)
    ensures BrokenDown(q, MergedTally(rs, Queried)) && BrokenDown(b, MergedTally(rs, Blocked))
    ensures BrokenDown(c, MergedTally(rs, ByClient))
  {
    MergedTallyConsistent(rs, Queried);
    MergedTallyConsistent(rs, Blocked);
    MergedTallyConsistent(rs, ByClient);
    q := queried.Top(TOP_N);
    b := blocked.Top(TOP_N);
    c := clients.Top(TOP_N);
  }

  /** Add one report to the sums so far. */
  method AddSums(numQueries: int, numBlocked: int, weightedSum: real, perInstance: seq<InstanceStats>,
                 instance: string, r: InstanceReport, ghost rs: seq<(string, InstanceReport)>)
    returns (numQueries': int, numBlocked': int, weightedSum': real, perInstance': seq<InstanceStats>)
    requires Summed(numQueries, numBlocked, weightedSum, perInstance, rs)
    ensures Summed(numQueries', numBlocked', weightedSum', perInstance', rs + [(instance, r)])
  {
    SumsAppend(rs, (instance, r));
    numQueries' := numQueries + r.numDNSQueries;
    numBlocked' := numBlocked + r.numBlockedFiltering;
    weightedSum' := weightedSum + r.avgProcessingTime * r.numDNSQueries as real;
    perInstance' := perInstance + [Projected(instance, r)];
  }

  /** A share is a percentage. */
  lemma {:induction false} ShareIs(p: real, part: int, whole: int)
    requires p == Share(part, whole)
    ensures whole > 0 ==> p * whole as real == 100.0 * part as real
    ensures whole <= 0 ==> p == 0.0
  {
    if whole > 0 {
      var x, w := part as real, whole as real;
      assert x / w * w == x;
      assert x / w * 100.0 * w == 100.0 * (x / w * w);
    }
  }

  lemma {:induction false} PerQueryIs(avg: real, sum: real, queries: int)
    requires avg == PerQuery(sum, queries)
    ensures queries > 0 ==> avg * queries as real == sum
    ensures queries <= 0 ==> avg == 0.0
  {
    if queries > 0 {
      assert sum / queries as real * queries as real == sum;
    }
  }

  /** One instance's row: its name, its numbers, its own percentage. */
  lemma {:induction false} ProjectedIs(instance: string, r: InstanceReport)
    ensures var row := Projected(instance, r);
            && row == InstanceStats(instance, r.numDNSQueries, r.numBlockedFiltering, row.blockedPercent, r.avgProcessingTime)
            && (r.numDNSQueries > 0 ==> row.blockedPercent * r.numDNSQueries as real == 100.0 * r.numBlockedFiltering as real)
            && (r.numDNSQueries <= 0 ==> row.blockedPercent == 0.0)
  {
    ShareIs(Projected(instance, r).blockedPercent, r.numBlockedFiltering, r.numDNSQueries);
  }

  method Averages(numQueries: int, numBlocked: int, weightedSum: real) returns (avg: real, percent: real)
    ensures avg == PerQuery(weightedSum, numQueries) && percent == Share(numBlocked, numQueries)
    ensures numQueries > 0 ==> avg * numQueries as real == weightedSum
    ensures numQueries > 0 ==> percent * numQueries as real == 100.0 * numBlocked as real
    ensures numQueries <= 0 ==> avg == 0.0 && percent == 0.0
  {
    avg, percent := 0.0, 0.0;
    if numQueries > 0 {
      avg := weightedSum / numQueries as real;
      percent := numBlocked as real / numQueries as real * 100.0;
    }
    PerQueryIs(avg, weightedSum, numQueries);
    ShareIs(percent, numBlocked, numQueries);
  }

  function Works(fetch: string -> Outcome<InstanceReport>): string -> bool
  {
    (n: string) => fetch(n).Ok?
  }

  function Fails(fetch: string -> Outcome<InstanceReport>): string -> bool
  {
    (n: string) => fetch(n).Err?
  }

  /** The answers and the failures, both in client order. */
  lemma {:induction false} AnswersInOrder(names: seq<string>, fetch: string -> Outcome<InstanceReport>)
    ensures Failed(names, fetch) == Keep(names, Fails(fetch))
    ensures var rs, kept := Reported(names, fetch), Keep(names, Works(fetch));
            |rs| == |kept| && forall i | 0 <= i < |rs| :: rs[i].0 == kept[i] && fetch(kept[i]) == Ok(rs[i].1)
  {
    if names != [] {
      var m := |names| - 1;
      AnswersInOrder(names[..m], fetch);
      assert names == names[..m] + [names[m]];
      KeepAppend(names[..m], [names[m]], Fails(fetch));
      KeepAppend(names[..m], [names[m]], Works(fetch));
      assert Keep([names[m]], Works(fetch)) == if fetch(names[m]).Ok? then [names[m]] else [];
      assert Keep([names[m]], Fails(fetch)) == if fetch(names[m]).Err? then [names[m]] else [];
    }
  }

  lemma {:induction false} RowsSpelled(rs: seq<(string, InstanceReport)>)
    ensures |PerInstance(rs)| == |rs|
    ensures forall i | 0 <= i < |rs| :: PerInstance(rs)[i] == Projected(rs[i].0, rs[i].1)
  {
    if rs != [] {
      RowsSpelled(rs[..|rs| - 1]);
    }
  }

  /** What the merged statistics show of every answer: one row each, in client order, with the
      instance's name and numbers, and the failed instances apart. */
  lemma {:induction false} StatsSpelled(names: seq<string>, fetch: string -> Outcome<InstanceReport>, rows: seq<InstanceStats>, errors: seq<string>)
    requires rows == PerInstance(Reported(names, fetch)) && errors == Failed(names, fetch)
    ensures |rows| == |Keep(names, Works(fetch))|
    ensures forall i | 0 <= i < |rows| ::
              && rows[i].instance == Keep(names, Works(fetch))[i] && fetch(rows[i].instance).Ok?
              && rows[i].numDNSQueries == fetch(rows[i].instance).value.numDNSQueries
              && rows[i].numBlockedFiltering == fetch(rows[i].instance).value.numBlockedFiltering
              && rows[i].avgProcessingTime == fetch(rows[i].instance).value.avgProcessingTime
              && rows[i].blockedPercent == Share(rows[i].numBlockedFiltering, rows[i].numDNSQueries)
    ensures forall n :: n in errors <==> n in names && fetch(n).Err?
  {
    AnswersInOrder(names, fetch);
    RowsSpelled(Reported(names, fetch));
    forall n ensures n in errors <==> n in names && fetch(n).Err? {
      assert n in Keep(names, Fails(fetch)) <==> n in names && Fails(fetch)(n);
    }
  }

  lemma {:induction false} RowPercents(rows: seq<InstanceStats>)
    requires forall i | 0 <= i < |rows| :: rows[i].blockedPercent == Share(rows[i].numBlockedFiltering, rows[i].numDNSQueries)
    ensures forall i | 0 <= i < |rows| ::
              && (rows[i].numDNSQueries > 0 ==>
                    rows[i].blockedPercent * rows[i].numDNSQueries as real == 100.0 * rows[i].numBlockedFiltering as real)
              && (rows[i].numDNSQueries <= 0 ==> rows[i].blockedPercent == 0.0)
  {
    forall i | 0 <= i < |rows|
      ensures rows[i].numDNSQueries > 0 ==>
                rows[i].blockedPercent * rows[i].numDNSQueries as real == 100.0 * rows[i].numBlockedFiltering as real
      ensures rows[i].numDNSQueries <= 0 ==> rows[i].blockedPercent == 0.0
    {
      ShareIs(rows[i].blockedPercent, rows[i].numBlockedFiltering, rows[i].numDNSQueries);
    }
  }

  lemma {:induction false} PercentShown(m: MergedStats)
    requires m.blockedPercent == Share(m.numBlockedFiltering, m.numDNSQueries)
    ensures m.numDNSQueries > 0 ==> m.blockedPercent * m.numDNSQueries as real == 100.0 * m.numBlockedFiltering as real
    ensures m.numDNSQueries <= 0 ==> m.blockedPercent == 0.0
  {
    ShareIs(m.blockedPercent, m.numBlockedFiltering, m.numDNSQueries);
  }

  /** Every answer's row, in the answers' own numbers. */
  lemma {:induction false} RowsShown(names: seq<string>, fetch: string -> Outcome<InstanceReport>, m: MergedStats)
    requires |m.perInstance| == |Keep(names, Works(fetch))|
    requires forall i | 0 <= i < |m.perInstance| ::
              && m.perInstance[i].instance == Keep(names, Works(fetch))[i] && fetch(m.perInstance[i].instance).Ok?
              && m.perInstance[i].numDNSQueries == fetch(m.perInstance[i].instance).value.numDNSQueries
              && m.perInstance[i].numBlockedFiltering == fetch(m.perInstance[i].instance).value.numBlockedFiltering
              && m.perInstance[i].avgProcessingTime == fetch(m.perInstance[i].instance).value.avgProcessingTime
    requires forall i | 0 <= i < |m.perInstance| ::
              m.perInstance[i].blockedPercent == Share(m.perInstance[i].numBlockedFiltering, m.perInstance[i].numDNSQueries)
    ensures |m.perInstance| == |Keep(names, Works(fetch))|
    ensures forall i | 0 <= i < |m.perInstance| ::
              var row, name := m.perInstance[i], Keep(names, Works(fetch))[i];
              && row.instance == name && fetch(name).Ok?
              && row.numDNSQueries == fetch(name).value.numDNSQueries
              && row.numBlockedFiltering == fetch(name).value.numBlockedFiltering
              && row.avgProcessingTime == fetch(name).value.avgProcessingTime
              && (row.numDNSQueries > 0 ==> row.blockedPercent * row.numDNSQueries as real == 100.0 * row.numBlockedFiltering as real)
              && (row.numDNSQueries <= 0 ==> row.blockedPercent == 0.0)
  {
    RowPercents(m.perInstance);
  }

  method LoadStats(names: seq<string>, fetch: string -> Outcome<InstanceReport>) returns (m: MergedStats)
    ensures forall rs | rs == Reported(names, fetch) :: Merges(m, rs)
    ensures m.errors == Failed(names, fetch)
    ensures |m.perInstance| == |Keep(names, Works(fetch))|
    ensures forall i | 0 <= i < |m.perInstance| ::
              && m.perInstance[i].instance == Keep(names, Works(fetch))[i] && fetch(m.perInstance[i].instance).Ok?
              && m.perInstance[i].numDNSQueries == fetch(m.perInstance[i].instance).value.numDNSQueries
              && m.perInstance[i].numBlockedFiltering == fetch(m.perInstance[i].instance).value.numBlockedFiltering
              && m.perInstance[i].avgProcessingTime == fetch(m.perInstance[i].instance).value.avgProcessingTime
    ensures m.blockedPercent == Share(m.numBlockedFiltering, m.numDNSQueries)
    ensures forall i | 0 <= i < |m.perInstance| ::
              m.perInstance[i].blockedPercent == Share(m.perInstance[i].numBlockedFiltering, m.perInstance[i].numDNSQueries)
    ensures forall n :: n in m.errors <==> n in names && fetch(n).Err?
  {
    var results := FanOut.FanOut(names, fetch);
    var numQueries, numBlocked := 0, 0;
    var weightedSum := 0.0;
    var perInstance: seq<InstanceStats> := [];
    var errors: seq<string> := [];
    var queried := new TopMerger();
    var blocked := new TopMerger();
    var clients := new TopMerger();
    ghost var rs: seq<(string, InstanceReport)> := [];
    for i := 0 to |results|
      invariant rs == Reported(names[..i], fetch) && errors == Failed(names[..i], fetch)
      invariant Summed(numQueries, numBlocked, weightedSum, perInstance, rs)
      invariant fresh(queried) && fresh(blocked) && fresh(clients)
      invariant queried != blocked && queried != clients && blocked != clients
      invariant queried.Value() == MergedTally(rs, Queried)
      invariant blocked.Value() == MergedTally(rs, Blocked)
      invariant clients.Value() == MergedTally(rs, ByClient)
    {
      var r := results[i];
      ReportedStep(names, fetch, i);
      if r.outcome.Err? {
        errors := errors + [r.instance];
        continue;
      }
      var s := r.outcome.value;
      numQueries, numBlocked, weightedSum, perInstance :=
        AddSums(numQueries, numBlocked, weightedSum, perInstance, r.instance, s, rs);
      TalliesAppend(rs, (r.instance, s));
      rs := rs + [(r.instance, s)];
      AddReport(queried, blocked, clients, r.instance, s);
    }
    assert names[..|names|] == names;
    var avg, percent := Averages(numQueries, numBlocked, weightedSum);
    var topQueried, topBlocked, topClients := TopLists(queried, blocked, clients, rs);
    m := MergedStats(numQueries, numBlocked, percent, avg, perInstance, topQueried, topBlocked, topClients, errors);
    StatsSpelled(names, fetch, m.perInstance, m.errors);
  }

  /** The merged statistics: one row for each client that answered, the others named as failed. */
  method FetchStats(names: seq<string>, fetch: string -> Outcome<InstanceReport>) returns (m: MergedStats)
    ensures forall rs | rs == Reported(names, fetch) :: Merges(m, rs)
    ensures m.errors == Failed(names, fetch)
    ensures m.numDNSQueries > 0 ==> m.blockedPercent * m.numDNSQueries as real == 100.0 * m.numBlockedFiltering as real
    ensures m.numDNSQueries <= 0 ==> m.blockedPercent == 0.0
    ensures |m.perInstance| == |Keep(names, Works(fetch))|
    ensures forall i | 0 <= i < |m.perInstance| ::
              var row, name := m.perInstance[i], Keep(names, Works(fetch))[i];
              && row.instance == name && fetch(name).Ok?
              && row.numDNSQueries == fetch(name).value.numDNSQueries
              && row.numBlockedFiltering == fetch(name).value.numBlockedFiltering
              && row.avgProcessingTime == fetch(name).value.avgProcessingTime
              && (row.numDNSQueries > 0 ==> row.blockedPercent * row.numDNSQueries as real == 100.0 * row.numBlockedFiltering as real)
              && (row.numDNSQueries <= 0 ==> row.blockedPercent == 0.0)
    ensures forall n :: n in m.errors <==> n in names && fetch(n).Err?
  {
    m := LoadStats(names, fetch);
    PercentShown(m);
    RowsShown(names, fetch, m);
  }

  // ---------------------------------------------------------------- the homomorphism

  /** One log after the other. */
  function AllEntries(logs: seq<seq<Entry>>): (r: seq<Entry>)
  {
    if logs == [] then [] else AllEntries(logs[..|logs| - 1]) + logs[|logs| - 1]
  }

  /** Every answer reports its instance's log. */
  ghost predicate AllReport(rs: seq<(string, InstanceReport)>, logs: seq<seq<Entry>>, parse: FloatParser)
  {
    |rs| == |logs| && forall i | 0 <= i < |rs| :: ReportsAt(rs, logs, parse, i)
  }

  ghost predicate ReportsAt(rs: seq<(string, InstanceReport)>, logs: seq<seq<Entry>>, parse: FloatParser, i: nat)
    requires i < |rs| == |logs|
  {
    Reports(rs[i].1, logs[i], parse)
  }

  lemma {:induction false} AllButLast(rs: seq<(string, InstanceReport)>, logs: seq<seq<Entry>>, parse: FloatParser)
    requires AllReport(rs, logs, parse) && rs != []
    ensures AllReport(rs[..|rs| - 1], logs[..|rs| - 1], parse)
  {
    var n := |rs| - 1;
    forall i | 0 <= i < n ensures ReportsAt(rs[..n], logs[..n], parse, i) {
      assert ReportsAt(rs, logs, parse, i);
    }
  }

  lemma {:induction false} ReportScalars(r: InstanceReport, entries: seq<Entry>, parse: FloatParser)
    requires Reports(r, entries, parse)
    ensures r.numDNSQueries == |entries| && r.numBlockedFiltering == |Keys(entries, Blocked)|
    ensures AllParse(entries, parse) ==> r.avgProcessingTime == Average(ElapsedSum(entries, parse), |entries|)
  {
    if AllParse(entries, parse) {
      CountWhenAllParse(entries, parse);
    }
  }

  lemma {:induction false} ReportWeight(r: InstanceReport, sum: real, count: nat)
    requires r.numDNSQueries == count && r.avgProcessingTime == Average(sum, count) && (count == 0 ==> sum == 0.0)
    ensures Weight(r) == sum / 1000.0
  {
    AverageTimesCount(sum, count);
  }

  lemma {:induction false} LastNumbers(rs: seq<(string, InstanceReport)>, logs: seq<seq<Entry>>, parse: FloatParser)
    requires AllReport(rs, logs, parse) && rs != []
    ensures var r, log := rs[|rs| - 1].1, logs[|rs| - 1];
            r.numDNSQueries == |log| && r.numBlockedFiltering == |Keys(log, Blocked)|
  {
    assert ReportsAt(rs, logs, parse, |rs| - 1);
    ReportScalars(rs[|rs| - 1].1, logs[|rs| - 1], parse);
  }

  lemma {:induction false} LastWeight(rs: seq<(string, InstanceReport)>, logs: seq<seq<Entry>>, parse: FloatParser)
    requires AllReport(rs, logs, parse) && rs != [] && AllParse(logs[|rs| - 1], parse)
    ensures Weight(rs[|rs| - 1].1) == ElapsedSum(logs[|rs| - 1], parse) / 1000.0
  {
    assert ReportsAt(rs, logs, parse, |rs| - 1);
    ReportScalars(rs[|rs| - 1].1, logs[|rs| - 1], parse);
    ReportWeight(rs[|rs| - 1].1, ElapsedSum(logs[|rs| - 1], parse), |logs[|rs| - 1]|);
  }

  /** No instance's list had to leave a key out. */
  ghost predicate Untruncated(logs: seq<seq<Entry>>, c: Column)
  {
    forall i | 0 <= i < |logs| :: |CountsOf(Keys(logs[i], c))| <= TOP_N
  }

  lemma {:induction false} KeysAppend(a: seq<Entry>, b: seq<Entry>, c: Column)
    ensures Keys(a + b, c) == Keys(a, c) + Keys(b, c)
  {
    if b == [] {
      assert a + b == a && Keys(a, c) + [] == Keys(a, c);
    } else {
      var n := |b| - 1;
      var last := KeyOf(b[n], c);
      KeysAppend(a, b[..n], c);
      assert (a + b)[..|a| + n] == a + b[..n] && (a + b)[|a| + n] == b[n];
      assert Keys(a + b, c) == Keys(a + b[..n], c) + last;
      KeysJoin(Keys(a, c), Keys(b[..n], c), last);
    }
  }

  lemma {:induction false} KeysJoin(a: seq<string>, b: seq<string>, c: seq<string>)
    ensures a + b + c == a + (b + c)
  {
  }

  /** What a top list counts for a name: its count, if listed. */
  lemma {:induction false} CountInTop(out: seq<TopEntry>, k: string)
    requires forall i, j | 0 <= i < j < |out| :: Outranks(out[i], out[j])
    requires forall i, j | 0 <= i < j < |out| :: out[i].name != out[j].name
    ensures NameIn(out, k) <==> exists i :: 0 <= i < |out| && out[i].name == k
    ensures forall i | 0 <= i < |out| && out[i].name == k :: CountIn(out, k) == out[i].count
    ensures !NameIn(out, k) ==> CountIn(out, k) == 0
  {
    if out != [] {
      CountInTop(out[..|out| - 1], k);
    }
  }

  lemma {:induction false} TopNamesDistinct(out: seq<TopEntry>, counts: Counts, n: nat, i: nat, j: nat)
    requires TopOf(out, counts, n) && i < j < |out|
    ensures out[i].name != out[j].name
  {
    OutranksOrder();
    assert Outranks(out[i], out[j]);
  }

  /** A top list counts no more than there is, and with room for every key exactly that. */
  lemma {:induction false} TopCounts(out: seq<TopEntry>, counts: Counts, n: nat, k: string)
    requires TopOf(out, counts, n) && forall j | j in counts :: counts[j] >= 0
    ensures CountIn(out, k) <= if k in counts then counts[k] else 0
    ensures NameIn(out, k) ==> k in counts
    ensures |counts| <= n ==> CountIn(out, k) == (if k in counts then counts[k] else 0) && (NameIn(out, k) <==> k in counts)
  {
    forall i, j | 0 <= i < j < |out| ensures out[i].name != out[j].name {
      TopNamesDistinct(out, counts, n, i, j);
    }
    CountInTop(out, k);
    if |counts| <= n && k in counts {
      if TopEntry(k, counts[k]) !in out {
        NamesFit(out, counts, k);
      }
      var i :| 0 <= i < |out| && out[i] == TopEntry(k, counts[k]);
    }
  }

  lemma {:induction false} NamesSet(out: seq<TopEntry>)
    requires forall i, j | 0 <= i < j < |out| :: out[i].name != out[j].name
    ensures |set i | 0 <= i < |out| :: out[i].name| == |out|
  {
    if out != [] {
      var n := |out| - 1;
      NamesSet(out[..n]);
      var s := set i | 0 <= i < n :: out[..n][i].name;
      assert (set i | 0 <= i < |out| :: out[i].name) == s + {out[n].name};
    }
  }

  /** A list of distinct keys that misses one is shorter than the map. */
  lemma {:induction false} NamesFit(out: seq<TopEntry>, counts: Counts, k: string)
    requires forall i, j | 0 <= i < j < |out| :: out[i].name != out[j].name
    requires forall i | 0 <= i < |out| :: out[i].name in counts && out[i].count == counts[out[i].name]
    requires k in counts && TopEntry(k, counts[k]) !in out
    ensures |out| < |counts|
  {
    var s := set i | 0 <= i < |out| :: out[i].name;
    NamesSet(out);
    assert s <= counts.Keys - {k};
    SubsetSize(s, counts.Keys - {k});
    assert |counts.Keys - {k}| == |counts| - 1;
  }

  lemma {:induction false} SubsetSize(a: set<string>, b: set<string>)
    requires a <= b
    ensures |a| <= |b|
    decreases a
  {
    if a != {} {
      var x :| x in a;
      SubsetSize(a - {x}, b - {x});
    }
  }

  lemma {:induction false} KeysMultiset(logs: seq<seq<Entry>>, c: Column)
    requires logs != []
    ensures var n := |logs| - 1;
            multiset(Keys(AllEntries(logs), c)) == multiset(Keys(AllEntries(logs[..n]), c)) + multiset(Keys(logs[n], c))
  {
    KeysAppend(AllEntries(logs[..|logs| - 1]), logs[|logs| - 1], c);
  }

  /** What the last instance's list counts for a name. */
  lemma {:induction false} LastCounts(rs: seq<(string, InstanceReport)>, logs: seq<seq<Entry>>, parse: FloatParser, c: Column, k: string)
    requires AllReport(rs, logs, parse) && rs != []
    ensures var list, keys := ListOf(rs[|rs| - 1].1, c), multiset(Keys(logs[|rs| - 1], c));
            && CountIn(list, k) <= keys[k] && (NameIn(list, k) ==> k in keys)
            && (|CountsOf(Keys(logs[|rs| - 1], c))| <= TOP_N ==> CountIn(list, k) == keys[k] && (NameIn(list, k) <==> k in keys))
  {
    var n := |rs| - 1;
    assert ReportsAt(rs, logs, parse, n);
    ReportsColumn(rs[n].1, logs[n], parse, c);
    TopCounts(ListOf(rs[n].1, c), CountsOf(Keys(logs[n], c)), TOP_N, k);
  }

  lemma {:induction false} LastAdded(rs: seq<(string, InstanceReport)>, c: Column, k: string)
    requires rs != []
    ensures var before, after, list := MergedTally(rs[..|rs| - 1], c), MergedTally(rs, c), ListOf(rs[|rs| - 1].1, c);
            && after.Total(k) == before.Total(k) + CountIn(list, k)
            && (k in after.totals <==> k in before.totals || NameIn(list, k))
  {
    var n := |rs| - 1;
    AddAllTotal(MergedTally(rs[..n], c), rs[n].0, ListOf(rs[n].1, c), k);
  }

  lemma {:induction false} CountsStep(before: Tally, after: Tally, list: seq<TopEntry>,
                                      seen: multiset<string>, last: multiset<string>, k: string, whole: bool)
    requires after.Total(k) == before.Total(k) + CountIn(list, k)
    requires k in after.totals <==> k in before.totals || NameIn(list, k)
    requires before.Total(k) <= seen[k] && (k in before.totals ==> k in seen)
    requires CountIn(list, k) <= last[k] && (NameIn(list, k) ==> k in last)
    requires whole ==> before.Total(k) == seen[k] && (k in before.totals <==> k in seen)
    requires whole ==> CountIn(list, k) == last[k] && (NameIn(list, k) <==> k in last)
    ensures after.Total(k) <= (seen + last)[k]
    ensures k in after.totals ==> k in seen + last
    ensures whole ==> after.Total(k) == (seen + last)[k] && (k in after.totals <==> k in seen + last)
  {
  }

  /** Merged counts never exceed the true counts, and without truncation equal them. */
  lemma {:induction false} MergedCounts(rs: seq<(string, InstanceReport)>, logs: seq<seq<Entry>>, parse: FloatParser, c: Column, k: string)
    requires AllReport(rs, logs, parse)
    ensures var t, truth := MergedTally(rs, c), multiset(Keys(AllEntries(logs), c));
            && t.Total(k) <= truth[k]
            && (k in t.totals ==> k in truth)
            && (Untruncated(logs, c) ==> t.Total(k) == truth[k] && (k in t.totals <==> k in truth))
  {
    if rs != [] {
      var n := |rs| - 1;
      AllButLast(rs, logs, parse);
      MergedCounts(rs[..n], logs[..n], parse, c, k);
      LastAdded(rs, c, k);
      LastCounts(rs, logs, parse, c, k);
      KeysMultiset(logs, c);
      assert Untruncated(logs, c) ==> Untruncated(logs[..n], c) && |CountsOf(Keys(logs[n], c))| <= TOP_N;
      CountsStep(MergedTally(rs[..n], c), MergedTally(rs, c), ListOf(rs[n].1, c),
                 multiset(Keys(AllEntries(logs[..n]), c)), multiset(Keys(logs[n], c)), k, Untruncated(logs, c));
    }
  }

  lemma {:induction false} CountsAt(keys: seq<string>, k: string)
    ensures k in CountsOf(keys) <==> k in multiset(keys)
    ensures k in CountsOf(keys) ==> CountsOf(keys)[k] == multiset(keys)[k]
  {
  }

  lemma {:induction false} TotalIsCount(rs: seq<(string, InstanceReport)>, logs: seq<seq<Entry>>, parse: FloatParser, c: Column, k: string)
    requires AllReport(rs, logs, parse) && Untruncated(logs, c)
    ensures var t, counts := MergedTally(rs, c), CountsOf(Keys(AllEntries(logs), c));
            && (k in t.totals <==> k in counts)
            && (k in t.totals ==> t.totals[k] == counts[k])
  {
    MergedCounts(rs, logs, parse, c, k);
    CountsAt(Keys(AllEntries(logs), c), k);
  }

  lemma {:induction false} TotalsAreCounts(rs: seq<(string, InstanceReport)>, logs: seq<seq<Entry>>, parse: FloatParser, c: Column)
    requires AllReport(rs, logs, parse) && Untruncated(logs, c)
    ensures MergedTally(rs, c).totals == CountsOf(Keys(AllEntries(logs), c))
  {
    var totals, counts := MergedTally(rs, c).totals, CountsOf(Keys(AllEntries(logs), c));
    forall k: string
      ensures k in totals <==> k in counts
      ensures k in totals ==> totals[k] == counts[k]
    {
      TotalIsCount(rs, logs, parse, c, k);
    }
  }

  /** Merging the instances' top lists gives the top list of the concatenated logs, unless an
      instance's list was truncated. */
  lemma {:induction false} MergedTopIsTopOfAll(rs: seq<(string, InstanceReport)>, logs: seq<seq<Entry>>, parse: FloatParser, c: Column,
                            merged: seq<MergedTopEntry>, all: seq<TopEntry>)
    requires AllReport(rs, logs, parse) && Untruncated(logs, c)
    requires TopOf(Plain(merged), MergedTally(rs, c).totals, TOP_N)
    requires TopOf(all, CountsOf(Keys(AllEntries(logs), c)), TOP_N)
    ensures Plain(merged) == all
  {
    TotalsAreCounts(rs, logs, parse, c);
    TopUnique(Plain(merged), all, CountsOf(Keys(AllEntries(logs), c)), TOP_N);
  }

  // ---------------------------------------------------------------- scalars and averages

  ghost predicate AllParse(entries: seq<Entry>, parse: FloatParser)
  {
    forall e | e in entries :: parse(e.elapsed).Some?
  }

  lemma {:induction false} CountWhenAllParse(entries: seq<Entry>, parse: FloatParser)
    requires AllParse(entries, parse)
    ensures ElapsedCount(entries, parse) == |entries|
  {
    if entries != [] {
      CountWhenAllParse(entries[..|entries| - 1], parse);
    }
  }

  lemma {:induction false} ElapsedAppend(a: seq<Entry>, b: seq<Entry>, parse: FloatParser)
    ensures ElapsedSum(a + b, parse) == ElapsedSum(a, parse) + ElapsedSum(b, parse)
    ensures ElapsedCount(a + b, parse) == ElapsedCount(a, parse) + ElapsedCount(b, parse)
  {
    if b == [] {
      assert a + b == a;
    } else {
      var n := |b| - 1;
      assert (a + b)[..|a + b| - 1] == a + b[..n];
      ElapsedAppend(a, b[..n], parse);
    }
  }

  lemma {:induction false} AverageTimesCount(sum: real, count: nat)
    requires count == 0 ==> sum == 0.0
    ensures Average(sum, count) * count as real == sum / 1000.0
  {
    if count > 0 {
      var c := count as real;
      assert sum / c * c == sum;
      assert sum / c / 1000.0 * c == sum / c * c / 1000.0;
    }
  }

  lemma {:induction false} MergedSums(rs: seq<(string, InstanceReport)>, logs: seq<seq<Entry>>, parse: FloatParser)
    requires AllReport(rs, logs, parse)
    ensures SumQueries(rs) == |AllEntries(logs)|
    ensures SumBlocked(rs) == |Keys(AllEntries(logs), Blocked)|
  {
    if rs != [] {
      var n := |rs| - 1;
      AllButLast(rs, logs, parse);
      MergedSums(rs[..n], logs[..n], parse);
      LastNumbers(rs, logs, parse);
      KeysAppend(AllEntries(logs[..n]), logs[n], Blocked);
    }
  }

  lemma {:induction false} MergedWeights(rs: seq<(string, InstanceReport)>, logs: seq<seq<Entry>>, parse: FloatParser)
    requires AllReport(rs, logs, parse) && forall i | 0 <= i < |logs| :: AllParse(logs[i], parse)
    ensures WeightedSum(rs) == ElapsedSum(AllEntries(logs), parse) / 1000.0
  {
    if rs != [] {
      var n := |rs| - 1;
      AllButLast(rs, logs, parse);
      MergedWeights(rs[..n], logs[..n], parse);
      LastWeight(rs, logs, parse);
      ElapsedAppend(AllEntries(logs[..n]), logs[n], parse);
    }
  }

  lemma {:induction false} AllEntriesParse(logs: seq<seq<Entry>>, parse: FloatParser)
    requires forall i | 0 <= i < |logs| :: AllParse(logs[i], parse)
    ensures AllParse(AllEntries(logs), parse)
  {
    if logs != [] {
      AllEntriesParse(logs[..|logs| - 1], parse);
      assert AllParse(logs[|logs| - 1], parse);
    }
  }

  lemma {:induction false} AverageOfAll(sum: real, count: nat)
    ensures Average(sum, count) == PerQuery(sum / 1000.0, count)
  {
    if count > 0 {
      var c := count as real;
      assert sum / c * c == sum;
      assert sum / c / 1000.0 * c == sum / c * c / 1000.0 == sum / 1000.0;
    }
  }

  lemma {:induction false} SameAverage(merged: real, weighted: real, queries: int, all: real, sum: real, count: nat)
    requires merged == PerQuery(weighted, queries) && weighted == sum / 1000.0 && queries == count
    requires all == Average(sum, count)
    ensures merged == all
  {
    AverageOfAll(sum, count);
  }

  lemma {:induction false} MergedAverage(m: MergedStats, all: InstanceReport, rs: seq<(string, InstanceReport)>, logs: seq<seq<Entry>>, parse: FloatParser)
    requires AllReport(rs, logs, parse) && Reports(all, AllEntries(logs), parse) && Merges(m, rs)
    requires forall i | 0 <= i < |logs| :: AllParse(logs[i], parse)
    ensures m.avgProcessingTime == all.avgProcessingTime
  {
    MergedSums(rs, logs, parse);
    MergedWeights(rs, logs, parse);
    AllEntriesParse(logs, parse);
    ReportScalars(all, AllEntries(logs), parse);
    SameAverage(m.avgProcessingTime, WeightedSum(rs), SumQueries(rs),
                all.avgProcessingTime, ElapsedSum(AllEntries(logs), parse), |AllEntries(logs)|);
  }

  lemma {:induction false} PercentOfAll(m: MergedStats, all: InstanceReport)
    requires m.numDNSQueries == all.numDNSQueries && m.numBlockedFiltering == all.numBlockedFiltering
    requires m.blockedPercent == Share(m.numBlockedFiltering, m.numDNSQueries)
    ensures all.numDNSQueries > 0 ==> m.blockedPercent * all.numDNSQueries as real == 100.0 * all.numBlockedFiltering as real
    ensures all.numDNSQueries <= 0 ==> m.blockedPercent == 0.0
  {
    ShareIs(m.blockedPercent, all.numBlockedFiltering, all.numDNSQueries);
  }

  lemma {:induction false} MergedNumbers(rs: seq<(string, InstanceReport)>, logs: seq<seq<Entry>>, parse: FloatParser,
                                         m: MergedStats, all: InstanceReport)
    requires AllReport(rs, logs, parse) && Reports(all, AllEntries(logs), parse) && Merges(m, rs)
    ensures m.numDNSQueries == all.numDNSQueries && m.numBlockedFiltering == all.numBlockedFiltering
    ensures m.blockedPercent == Share(m.numBlockedFiltering, m.numDNSQueries)
  {
    MergedSums(rs, logs, parse);
  }

  lemma {:induction false} MergedLists(rs: seq<(string, InstanceReport)>, logs: seq<seq<Entry>>, parse: FloatParser,
                                       m: MergedStats, all: InstanceReport)
    requires AllReport(rs, logs, parse) && Reports(all, AllEntries(logs), parse) && Merges(m, rs)
    ensures (forall i | 0 <= i < |logs| :: AllParse(logs[i], parse)) ==> m.avgProcessingTime == all.avgProcessingTime
    ensures forall c: Column | Untruncated(logs, c) :: Plain(MergedList(m, c)) == ListOf(all, c)
    ensures forall c: Column, r | r in MergedList(m, c) :: r.count <= multiset(Keys(AllEntries(logs), c))[r.name]
  {
    if forall i | 0 <= i < |logs| :: AllParse(logs[i], parse) {
      MergedAverage(m, all, rs, logs, parse);
    }
    forall c: Column | Untruncated(logs, c) ensures Plain(MergedList(m, c)) == ListOf(all, c) {
      MergesColumn(m, rs, c);
      ReportsColumn(all, AllEntries(logs), parse, c);
      MergedTopIsTopOfAll(rs, logs, parse, c, MergedList(m, c), ListOf(all, c));
    }
    forall c: Column, r | r in MergedList(m, c) ensures r.count <= multiset(Keys(AllEntries(logs), c))[r.name] {
      MergesColumn(m, rs, c);
      MergedRowBound(rs, logs, parse, c, MergedList(m, c), r);
    }
  }

  /** The merged statistics of the instances' reports are the statistics of one instance that
      holds all their logs: counts and blocked share always, the average when every elapsed
      time parses, each top list when no instance had to truncate it; and a truncated list
      never shows a count above the true one. */
  lemma {:induction false} MergeIsHomomorphic(rs: seq<(string, InstanceReport)>, logs: seq<seq<Entry>>, parse: FloatParser,
                                              m: MergedStats, all: InstanceReport)
    requires AllReport(rs, logs, parse) && Reports(all, AllEntries(logs), parse) && Merges(m, rs)
    ensures m.numDNSQueries == all.numDNSQueries && m.numBlockedFiltering == all.numBlockedFiltering
    ensures all.numDNSQueries > 0 ==> m.blockedPercent * all.numDNSQueries as real == 100.0 * all.numBlockedFiltering as real
    ensures all.numDNSQueries <= 0 ==> m.blockedPercent == 0.0
    ensures (forall i | 0 <= i < |logs| :: AllParse(logs[i], parse)) ==> m.avgProcessingTime == all.avgProcessingTime
    ensures forall c: Column | Untruncated(logs, c) :: Plain(MergedList(m, c)) == ListOf(all, c)
    ensures forall c: Column, r | r in MergedList(m, c) :: r.count <= multiset(Keys(AllEntries(logs), c))[r.name]
  {
    MergedNumbers(rs, logs, parse, m, all);
    PercentOfAll(m, all);
    MergedLists(rs, logs, parse, m, all);
  }

  lemma {:induction false} MergedRowBound(rs: seq<(string, InstanceReport)>, logs: seq<seq<Entry>>, parse: FloatParser, c: Column,
                       merged: seq<MergedTopEntry>, r: MergedTopEntry)
    requires AllReport(rs, logs, parse) && r in merged && TopOf(Plain(merged), MergedTally(rs, c).totals, TOP_N)
    ensures r.count <= multiset(Keys(AllEntries(logs), c))[r.name]
  {
    var i :| 0 <= i < |merged| && merged[i] == r;
    assert Plain(merged)[i] == TopEntry(r.name, r.count);
    MergedCounts(rs, logs, parse, c, r.name);
  }
}
