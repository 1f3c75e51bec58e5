/** One AdGuard instance's query log: the entries it stores, the answer it gives to a
    /querylog request, and the client that tags the answer for merging. */
module QueryLog {
  import opened Ordering
  import opened Text

  /** A stored entry. The wire fields that nothing here reads are not modelled. */
  datatype Entry = Entry(
    time: string, client: string, clientName: string, domain: string,
    blocked: bool, rewrite: bool, elapsed: string)

  /** An entry as the aggregator sees it. `rawTime` is the wire text, never reformatted. */
  datatype Item = Item(
    rawTime: string, parsedTime: int, client: string, clientInfo: Option<string>,
    domain: string, elapsed: string, instance: string)

  /** The library functions the code calls: time.Parse with RFC3339Nano (an instant as a
      number of nanoseconds, None for an error) and unicode.ToLower. */
  datatype Runtime = Runtime(parseTime: string -> Option<int>, lower: char -> char)

  /** The zero time.Time, left in place when the text does not parse: 1 January of year 1,
      counted from the beginning of year 0, a leap year. */
  const ZERO_TIME := 366 * 24 * 3600 * 1_000_000_000

  datatype QueryLogParams = QueryLogParams(olderThan: string, limit: int, search: string, responseStatus: string)

  // ---------------------------------------------------------------- the instance

  predicate MatchesStatus(e: Entry, status: string)
  {
    if status == "" || status == "all" then true
    else if status == "blocked" || status == "filtered" then e.blocked
    else if status == "rewritten" then e.rewrite
    else if status == "processed" then !e.blocked
    else true
  }

  /** The coarse substring search and the status filter; `search` is already lower case. */
  predicate Passes(rt: Runtime, e: Entry, search: string, status: string)
  {
    && (search == ""
        || Contains(Lower(rt.lower, e.domain), search)
        || Contains(Lower(rt.lower, e.client), search)
        || Contains(Lower(rt.lower, e.clientName), search))
    && MatchesStatus(e, status)
  }

  function Passing(rt: Runtime, search: string, status: string): Entry -> bool
  {
    (e: Entry) => Passes(rt, e, Lower(rt.lower, search), status)
  }

  function OlderEntry(o: string): Entry -> bool
  {
    (e: Entry) => o == "" || Less(e.time, o)
  }

  /** The entries a request admits, before its limit. */
  function Admits(rt: Runtime, q: QueryLogParams): Entry -> bool
  {
    (e: Entry) =>
      && (q.olderThan == "" || Less(e.time, q.olderThan))
      && Passes(rt, e, Lower(rt.lower, q.search), q.responseStatus)
  }

  /** What a /querylog request is answered with. */
  function Answer(rt: Runtime, log: seq<Entry>, q: QueryLogParams): (r: seq<Entry>)
  {
    var found := Keep(log, Admits(rt, q));
    if q.limit > 0 then Take(found, q.limit) else found
  }

  /** The status values one by one; any other value asks for everything. */
  lemma {:induction false} StatusSpelled(e: Entry, status: string)
    ensures MatchesStatus(e, status) <==>
              && (status == "blocked" || status == "filtered" ==> e.blocked)
              && (status == "rewritten" ==> e.rewrite)
              && (status == "processed" ==> !e.blocked)
  {
    assert "all"[0] == 'a' && "blocked"[0] == 'b' && "filtered"[0] == 'f' && "rewritten"[0] == 'r' && "processed"[0] == 'p';
  }

  lemma {:induction false} AdmitsSpelled(rt: Runtime, q: QueryLogParams, e: Entry)
    ensures Admits(rt, q)(e) <==>
              && (q.olderThan == "" || Less(e.time, q.olderThan))
              && (q.search == ""
                  || Contains(Lower(rt.lower, e.domain), Lower(rt.lower, q.search))
                  || Contains(Lower(rt.lower, e.client), Lower(rt.lower, q.search))
                  || Contains(Lower(rt.lower, e.clientName), Lower(rt.lower, q.search)))
              && (q.responseStatus == "blocked" || q.responseStatus == "filtered" ==> e.blocked)
              && (q.responseStatus == "rewritten" ==> e.rewrite)
              && (q.responseStatus == "processed" ==> !e.blocked)
  {
    StatusSpelled(e, q.responseStatus);
    assert |Lower(rt.lower, q.search)| == |q.search|;
  }

  lemma {:induction false} AnswerMembers(rt: Runtime, log: seq<Entry>, q: QueryLogParams)
    ensures forall e | e in Answer(rt, log, q) :: e in log && Admits(rt, q)(e)
    ensures q.limit > 0 ==> |Answer(rt, log, q)| <= q.limit
    ensures q.limit <= 0 || |Answer(rt, log, q)| < q.limit ==> forall e | e in log && Admits(rt, q)(e) :: e in Answer(rt, log, q)
  {
    var found := Keep(log, Admits(rt, q));
    forall e | e in Answer(rt, log, q) ensures e in found {}
  }

  /** Which entries an answer holds, in the entries' own terms. */
  lemma {:induction false} AnswerSpelled(rt: Runtime, log: seq<Entry>, q: QueryLogParams, data: seq<Entry>)
    requires data == Answer(rt, log, q)
    ensures forall e | e in data ::
              && e in log
              && (q.olderThan == "" || Less(e.time, q.olderThan))
              && (q.search == ""
                  || Contains(Lower(rt.lower, e.domain), Lower(rt.lower, q.search))
                  || Contains(Lower(rt.lower, e.client), Lower(rt.lower, q.search))
                  || Contains(Lower(rt.lower, e.clientName), Lower(rt.lower, q.search)))
              && (q.responseStatus == "blocked" || q.responseStatus == "filtered" ==> e.blocked)
              && (q.responseStatus == "rewritten" ==> e.rewrite)
              && (q.responseStatus == "processed" ==> !e.blocked)
    ensures q.limit > 0 ==> |data| <= q.limit
    ensures q.limit <= 0 || |data| < q.limit ==>
              forall e | e in log
                         && (q.olderThan == "" || Less(e.time, q.olderThan))
                         && (q.search == ""
                             || Contains(Lower(rt.lower, e.domain), Lower(rt.lower, q.search))
                             || Contains(Lower(rt.lower, e.client), Lower(rt.lower, q.search))
                             || Contains(Lower(rt.lower, e.clientName), Lower(rt.lower, q.search)))
                         && (q.responseStatus == "blocked" || q.responseStatus == "filtered" ==> e.blocked)
                         && (q.responseStatus == "rewritten" ==> e.rewrite)
                         && (q.responseStatus == "processed" ==> !e.blocked) ::
                e in data
  {
    AnswerMembers(rt, log, q);
    forall e: Entry
      ensures Admits(rt, q)(e) <==>
                && (q.olderThan == "" || Less(e.time, q.olderThan))
                && (q.search == ""
                    || Contains(Lower(rt.lower, e.domain), Lower(rt.lower, q.search))
                    || Contains(Lower(rt.lower, e.client), Lower(rt.lower, q.search))
                    || Contains(Lower(rt.lower, e.clientName), Lower(rt.lower, q.search)))
                && (q.responseStatus == "blocked" || q.responseStatus == "filtered" ==> e.blocked)
                && (q.responseStatus == "rewritten" ==> e.rewrite)
                && (q.responseStatus == "processed" ==> !e.blocked)
    {
      AdmitsSpelled(rt, q, e);
    }
  }

  method HandleQueryLog(rt: Runtime, log: seq<Entry>, q: QueryLogParams) returns (data: seq<Entry>)
    ensures data == Answer(rt, log, q)
    ensures forall e | e in data ::
              && e in log
              && (q.olderThan == "" || Less(e.time, q.olderThan))
              && (q.search == ""
                  || Contains(Lower(rt.lower, e.domain), Lower(rt.lower, q.search))
                  || Contains(Lower(rt.lower, e.client), Lower(rt.lower, q.search))
                  || Contains(Lower(rt.lower, e.clientName), Lower(rt.lower, q.search)))
              && (q.responseStatus == "blocked" || q.responseStatus == "filtered" ==> e.blocked)
              && (q.responseStatus == "rewritten" ==> e.rewrite)
              && (q.responseStatus == "processed" ==> !e.blocked)
    ensures q.limit > 0 ==> |data| <= q.limit
    ensures q.limit <= 0 || |data| < q.limit ==>
              forall e | e in log
                         && (q.olderThan == "" || Less(e.time, q.olderThan))
                         && (q.search == ""
                             || Contains(Lower(rt.lower, e.domain), Lower(rt.lower, q.search))
                             || Contains(Lower(rt.lower, e.client), Lower(rt.lower, q.search))
                             || Contains(Lower(rt.lower, e.clientName), Lower(rt.lower, q.search)))
                         && (q.responseStatus == "blocked" || q.responseStatus == "filtered" ==> e.blocked)
                         && (q.responseStatus == "rewritten" ==> e.rewrite)
                         && (q.responseStatus == "processed" ==> !e.blocked) ::
                e in data
  {
    var search := Lower(rt.lower, q.search);
    var filtered: seq<Entry> := [];
    ghost var admits := Admits(rt, q);
    for i := 0 to |log|
      invariant filtered + Keep(log[i..], admits) == Keep(log, admits)
    {
      var e := log[i];
      KeepStep(filtered, log, i, admits);
      if q.olderThan != "" && !Less(e.time, q.olderThan) {
        continue;
      }
      if search != "" && !Contains(Lower(rt.lower, e.domain), search)
         && !Contains(Lower(rt.lower, e.client), search) && !Contains(Lower(rt.lower, e.clientName), search) {
        continue;
      }
      if !MatchesStatus(e, q.responseStatus) {
        continue;
      }
      filtered := filtered + [e];
    }
    assert filtered == Keep(log, admits);
    if q.limit > 0 && |filtered| > q.limit {
      filtered := filtered[..q.limit];
    }
    data := filtered;
    AnswerSpelled(rt, log, q, data);
  }

  predicate NewerText(a: Entry, b: Entry)
  {
    Less(b.time, a.time)
  }

  lemma {:induction false} NewerTextOrder()
    ensures StrictWeakOrder(NewerText)
  {
    forall a: Entry, b: Entry | NewerText(a, b) ensures !NewerText(b, a) {
      LessTotal(a.time, b.time);
    }
    forall a: Entry, b: Entry, c: Entry | NewerText(a, c) ensures NewerText(a, b) || NewerText(b, c) {
      LessTotal(a.time, b.time);
      if Less(a.time, b.time) {
        LessTransitive(c.time, a.time, b.time);
      }
    }
  }

  /** A log is stored newest first: descending by its text, equal texts in seeded order. */
  method New(entries: seq<Entry>) returns (log: seq<Entry>)
    ensures forall i, j | 0 <= i < j < |log| :: !Less(log[i].time, log[j].time)
    ensures forall t :: Keep(log, TimedAt(t)) == Keep(entries, TimedAt(t))
  {
    log := SortStable(entries, NewerText);
    NewerTextOrder();
    SortedByClass(entries, NewerText);
    forall i, j | 0 <= i < j < |log| ensures !Less(log[i].time, log[j].time) {
      assert !NewerText(log[j], log[i]);
    }
    forall t ensures Keep(log, TimedAt(t)) == Keep(entries, TimedAt(t)) {
      var e := Entry(t, "", "", "", false, false, "");
      TimedAtIsClass(log, e);
      TimedAtIsClass(entries, e);
      assert Keep(log, Ties(e, NewerText)) == Keep(entries, Ties(e, NewerText));
    }
  }

  function TimedAt(t: string): Entry -> bool
  {
    (e: Entry) => e.time == t
  }

  lemma {:induction false} TimedAtIsClass(s: seq<Entry>, e: Entry)
    ensures Keep(s, TimedAt(e.time)) == Keep(s, Ties(e, NewerText))
  {
    if s != [] {
      TimedAtIsClass(s[1..], e);
      LessTotal(e.time, s[0].time);
      assert !NewerText(e, s[0]) && !NewerText(s[0], e) <==> e.time == s[0].time;
      assert TimedAt(e.time)(s[0]) <==> e.time == s[0].time;
      assert Ties(e, NewerText)(s[0]) <==> !NewerText(e, s[0]) && !NewerText(s[0], e);
    }
  }

  // ---------------------------------------------------------------- the client

  function Enrich(rt: Runtime, name: string, e: Entry): (r: Item)
  {
    Item(e.time,
         match rt.parseTime(e.time) case Some(t) => t case None => ZERO_TIME,
         e.client,
         if e.clientName != "" then Some(e.clientName) else None,
         e.domain, e.elapsed, name)
  }

  function EnrichAll(rt: Runtime, name: string, es: seq<Entry>): (r: seq<Item>)
    ensures |r| == |es| && forall i | 0 <= i < |es| :: r[i] == Enrich(rt, name, es[i])
  {
    seq(|es|, i requires 0 <= i < |es| => Enrich(rt, name, es[i]))
  }

  datatype Outcome<+T> = Ok(value: T) | Err(error: string)

  /** The instances as one page load finds them: what each holds and which fail to answer. */
  datatype Network = Network(logs: map<string, seq<Entry>>, down: set<string>)
  {
    predicate Reaches(name: string) { name in logs && name !in down }
  }

  /** Client.QueryLog against the network as it is. */
  function FetchLog(rt: Runtime, net: Network, name: string, q: QueryLogParams): (r: Outcome<seq<Item>>)
  {
    if net.Reaches(name) then Ok(EnrichAll(rt, name, Answer(rt, net.logs[name], q)))
    else Err("unreachable")
  }

  method ClientQueryLog(rt: Runtime, net: Network, name: string, q: QueryLogParams) returns (r: Outcome<seq<Item>>)
    ensures r == FetchLog(rt, net, name, q)
    ensures r.Ok? <==> name in net.logs && name !in net.down
    ensures r.Ok? ==>
              var data := Answer(rt, net.logs[name], q);
              && |r.value| == |data|
              && forall i | 0 <= i < |data| ::
                   && r.value[i].rawTime == data[i].time
                   && r.value[i].parsedTime == (match rt.parseTime(data[i].time) case Some(t) => t case None => ZERO_TIME)
                   && r.value[i].client == data[i].client
                   && r.value[i].clientInfo == (if data[i].clientName == "" then None else Some(data[i].clientName))
                   && r.value[i].domain == data[i].domain
                   && r.value[i].elapsed == data[i].elapsed
                   && r.value[i].instance == name
  {
    if !net.Reaches(name) {
      return Err("unreachable");
    }
    var data := HandleQueryLog(rt, net.logs[name], q);
    var enriched: seq<Item> := [];
    for i := 0 to |data|
      invariant enriched == EnrichAll(rt, name, data[..i])
    {
      enriched := enriched + [Enrich(rt, name, data[i])];
      assert data[..i + 1] == data[..i] + [data[i]];
    }
    assert data[..|data|] == data;
    r := Ok(enriched);
  }

  // ---------------------------------------------------------------- streams

  /** Everything an instance would ever serve for a filter, newest first. */
  function Stream(rt: Runtime, name: string, log: seq<Entry>, search: string, status: string): (r: seq<Item>)
  {
    EnrichAll(rt, name, Keep(log, Passing(rt, search, status)))
  }

  function OlderItem(o: string): Item -> bool
  {
    (it: Item) => o == "" || Less(it.rawTime, o)
  }

  function OlderThan(s: seq<Item>, o: string): (r: seq<Item>)
  {
    Keep(s, OlderItem(o))
  }

  lemma {:induction false} EnrichCons(rt: Runtime, name: string, e: Entry, es: seq<Entry>)
    ensures EnrichAll(rt, name, [e] + es) == [Enrich(rt, name, e)] + EnrichAll(rt, name, es)
    ensures EnrichAll(rt, name, [e] + es)[1..] == EnrichAll(rt, name, es)
  {
  }

  lemma {:induction false} EnrichOlder(rt: Runtime, name: string, es: seq<Entry>, o: string)
    ensures EnrichAll(rt, name, Keep(es, OlderEntry(o))) == OlderThan(EnrichAll(rt, name, es), o)
  {
    if es != [] {
      EnrichOlder(rt, name, es[1..], o);
      assert es == [es[0]] + es[1..];
      EnrichCons(rt, name, es[0], es[1..]);
      EnrichCons(rt, name, es[0], Keep(es[1..], OlderEntry(o)));
    }
  }

  lemma {:induction false} AdmitsSplits(rt: Runtime, log: seq<Entry>, q: QueryLogParams)
    ensures Keep(log, Admits(rt, q))
         == Keep(Keep(log, Passing(rt, q.search, q.responseStatus)), OlderEntry(q.olderThan))
  {
    if log != [] {
      AdmitsSplits(rt, log[1..], q);
    }
  }

  /** A request for `limit` entries older than `o` reads the instance's stream from just
      after `o`: filtering, cutting and tagging commute. */
  lemma {:induction false} FetchReadsStream(rt: Runtime, log: seq<Entry>, name: string, q: QueryLogParams)
    requires q.limit > 0
    ensures EnrichAll(rt, name, Answer(rt, log, q))
         == Take(OlderThan(Stream(rt, name, log, q.search, q.responseStatus), q.olderThan), q.limit)
  {
    var older, passing := OlderEntry(q.olderThan), Passing(rt, q.search, q.responseStatus);
    AdmitsSplits(rt, log, q);
    EnrichOlder(rt, name, Keep(log, passing), q.olderThan);
  }

  /** Entries that arrive at the head of a log arrive at the head of its stream. */
  lemma {:induction false} StreamAppend(rt: Runtime, name: string, arrived: seq<Entry>, log: seq<Entry>, search: string, status: string)
    ensures Stream(rt, name, arrived + log, search, status)
         == Stream(rt, name, arrived, search, status) + Stream(rt, name, log, search, status)
  {
    KeepAppend(arrived, log, Passing(rt, search, status));
  }

  // ---------------------------------------------------------------- the merge order

  /** mergeDescending's comparator, as "sorts strictly before": newest first, then by
      instance name, then by raw text. */
  predicate Before(a: Item, b: Item)
  {
    || b.parsedTime < a.parsedTime
    || (a.parsedTime == b.parsedTime
        && (Less(a.instance, b.instance) || (a.instance == b.instance && Less(a.rawTime, b.rawTime))))
  }

  lemma {:induction false} BeforeOrder()
    ensures StrictWeakOrder(Before)
  {
    forall a: Item, b: Item | Before(a, b) ensures !Before(b, a) {
      LessTotal(a.instance, b.instance);
      LessTotal(a.rawTime, b.rawTime);
    }
    forall a: Item, b: Item, c: Item | Before(a, c) ensures Before(a, b) || Before(b, c) {
      BeforeNegTransitive(a, b, c);
    }
  }

  lemma {:induction false} BeforeNegTransitive(a: Item, b: Item, c: Item)
    requires Before(a, c)
    ensures Before(a, b) || Before(b, c)
  {
    LessTotal(a.instance, b.instance);
    LessTotal(b.instance, c.instance);
    LessTotal(a.rawTime, b.rawTime);
    LessTotal(b.rawTime, c.rawTime);
    if Less(a.instance, c.instance) && Less(b.instance, a.instance) {
      LessTransitive(b.instance, a.instance, c.instance);
    }
    if Less(a.rawTime, c.rawTime) && Less(b.rawTime, a.rawTime) {
      LessTransitive(b.rawTime, a.rawTime, c.rawTime);
    }
  }

  lemma {:induction false} NotBefore(a: Item, b: Item)
    requires !Before(b, a)
    ensures a.parsedTime >= b.parsedTime
    ensures a.parsedTime == b.parsedTime ==> !Less(b.instance, a.instance)
    ensures a.parsedTime == b.parsedTime && a.instance == b.instance ==> !Less(b.rawTime, a.rawTime)
  {
  }

  /** Merge order, spelled out: newest first, equal instants by ascending instance name, those
      of one instance by ascending raw text. */
  lemma {:induction false} SortedSpelled(s: seq<Item>)
    requires Sorted(s, Before)
    ensures forall i, j | 0 <= i < j < |s| ::
              && s[i].parsedTime >= s[j].parsedTime
              && (s[i].parsedTime == s[j].parsedTime ==> !Less(s[j].instance, s[i].instance))
              && (s[i].parsedTime == s[j].parsedTime && s[i].instance == s[j].instance ==> !Less(s[j].rawTime, s[i].rawTime))
  {
    forall i, j | 0 <= i < j < |s|
      ensures s[i].parsedTime >= s[j].parsedTime
      ensures s[i].parsedTime == s[j].parsedTime ==> !Less(s[j].instance, s[i].instance)
      ensures s[i].parsedTime == s[j].parsedTime && s[i].instance == s[j].instance ==> !Less(s[j].rawTime, s[i].rawTime)
    {
      NotBefore(s[i], s[j]);
    }
  }

  /** Only entries of one instance with one raw text can tie. */
  lemma {:induction false} TiesShareInstance(a: Item, b: Item)
    requires !Before(a, b) && !Before(b, a)
    ensures a.instance == b.instance && a.rawTime == b.rawTime && a.parsedTime == b.parsedTime
  {
    LessTotal(a.instance, b.instance);
    LessTotal(a.rawTime, b.rawTime);
  }
}
