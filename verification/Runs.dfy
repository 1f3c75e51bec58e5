/** Runs of the pagination protocol: page loads with any instances failing, and new entries
    arriving at the head of any log in between. What every run keeps, instance by instance. */
module Runs {
  import opened Ordering
  import opened Text
  import opened QueryLog
  import opened Glob
  import opened Merge
  import opened Cursors
  import opened Logs

  /** Fixed for a run: the clients, the filter and the page size. */
  datatype Setup = Setup(rt: Runtime, clients: seq<string>, filter: Filter, pageSize: nat)
  {
    ghost predicate Valid() { Distinct(clients) && 1 <= pageSize }

    function Selection(): (r: seq<string>) { Names(clients, filter) }
  }

  type LogMap = map<string, seq<Entry>>

  /** A page load that finds the instances in `down` unreachable, or entries logged by an
      instance since. */
  datatype Event = Load(down: set<string>) | Arrive(name: string, entries: seq<Entry>)

  /** The instances' logs, the cursor the client holds, whether it was offered another page,
      and the pages so far: merged, and as displayed. */
  datatype Session = Session(logs: LogMap, prev: CursorMap, more: bool, merged: seq<seq<Item>>, pages: seq<LogsPage>)

  function OffersAt(u: Setup, s: Session, down: set<string>): (m: map<string, seq<Item>>)
  {
    Offers(u.rt, Network(s.logs, down), u.filter, s.prev, u.pageSize, u.Selection())
  }

  function MergedAt(u: Setup, s: Session, down: set<string>): (r: seq<Item>)
  {
    Merged(u.Selection(), OffersAt(u, s, down), u.pageSize)
  }

  function NextAt(u: Setup, s: Session, down: set<string>): (r: CursorMap)
  {
    Next(Network(s.logs, down), s.prev, OffersAt(u, s, down), MergedAt(u, s, down), u.pageSize, u.Selection())
  }

  ghost function Step(u: Setup, s: Session, e: Event): (s': Session)
  {
    match e
    case Load(down) =>
      if !s.more then s
      else Session(s.logs, NextAt(u, s, down), AnyOpen(u.Selection(), NextAt(u, s, down)),
                   s.merged + [MergedAt(u, s, down)],
                   s.pages + [PageOf(u.rt, Network(s.logs, down), u.clients, u.filter, s.prev, u.pageSize)])
    case Arrive(name, entries) =>
      s.(logs := if name in s.logs then s.logs[name := entries + s.logs[name]] else s.logs)
  }

  function Opening(logs: LogMap): (s: Session)
  {
    Session(logs, map[], true, [], [])
  }

  ghost function Run(u: Setup, logs: LogMap, events: seq<Event>): (s: Session)
  {
    if events == [] then Opening(logs)
    else Step(u, Run(u, logs, events[..|events| - 1]), events[|events| - 1])
  }

  lemma {:induction false} RunStep(u: Setup, logs: LogMap, events: seq<Event>, e: Event)
    ensures Run(u, logs, events + [e]) == Step(u, Run(u, logs, events), e)
  {
    assert (events + [e])[..|events|] == events;
  }

  /** The cursor a session holds is the one its last page's wire cursor decodes to. */
  lemma {:induction false} CursorOnTheWire(u: Setup, s: Session, down: set<string>)
    requires s.more
    ensures var s' := Step(u, s, Load(down));
            var page := s'.pages[|s'.pages| - 1];
            && page.hasMore == s'.more
            && DecodeCursor(page.nextCursor) == (if s'.more then Some(Cursor(CURSOR_VERSION, s'.prev)) else None)
            && page.entries == Keep(s'.merged[|s'.merged| - 1], Shows(u.rt, u.filter.search))
  {
  }

  // ---------------------------------------------------------------- streams

  /** All an instance would serve for the run's filter, newest first. */
  function StreamOf(u: Setup, logs: LogMap, n: string): (r: seq<Item>)
    ensures forall it | it in r :: it.instance == n
  {
    if n in logs then Stream(u.rt, n, logs[n], SearchTerm(u.filter.search), u.filter.status) else []
  }

  /** Newest first by raw text. */
  ghost predicate TextDown(s: seq<Item>)
  {
    && (forall i | 0 <= i < |s| :: s[i].rawTime != "")
    && (forall i, j | 0 <= i < j < |s| :: !Less(s[i].rawTime, s[j].rawTime))
  }

  /** Text order agrees with the parsed instants. */
  ghost predicate TimesAgree(s: seq<Item>)
  {
    forall i, j | 0 <= i < j < |s| ::
      && (s[i].rawTime == s[j].rawTime ==> s[i].parsedTime == s[j].parsedTime)
      && (Less(s[j].rawTime, s[i].rawTime) ==> s[j].parsedTime < s[i].parsedTime)
  }

  /** Newest first by text and by instant. Equal texts are allowed. */
  ghost predicate Orderly(s: seq<Item>)
  {
    TextDown(s) && TimesAgree(s)
  }

  /** What keeps the books of an instance. Answers of a single entry are always in merge
      order, so with pages of one entry text and instants need not agree. */
  ghost predicate Pageable(s: seq<Item>, pageSize: nat)
  {
    TextDown(s) && (pageSize == 1 || TimesAgree(s))
  }

  /** No two entries of the stream share a timestamp. */
  ghost predicate Strict(s: seq<Item>)
  {
    forall i, j | 0 <= i < j < |s| :: s[i].rawTime != s[j].rawTime
  }

  lemma {:induction false} OrderlySorted(s: seq<Item>, n: string)
    requires Orderly(s) && forall it | it in s :: it.instance == n
    ensures Sorted(s, Before)
  {
    forall i, j | 0 <= i < j < |s| ensures !Before(s[j], s[i]) {
      LessTotal(s[i].rawTime, s[j].rawTime);
      assert s[i] in s && s[j] in s;
      LessTotal(n, n);
    }
  }

  // ---------------------------------------------------------------- accounts

  /** Served and lost entries, page by page. */
  function Woven(taken: seq<seq<Item>>, lost: seq<seq<Item>>): (r: seq<Item>)
    requires |taken| == |lost|
  {
    if taken == [] then []
    else
      var n := |taken| - 1;
      Woven(taken[..n], lost[..n]) + taken[n] + lost[n]
  }

  function Flat(pages: seq<seq<Item>>): (r: seq<Item>)
  {
    if pages == [] then [] else Flat(pages[..|pages| - 1]) + pages[|pages| - 1]
  }

  /** The raw time of the last entry served, "" before the first. */
  function LastRaw(taken: seq<seq<Item>>): (o: string)
  {
    if taken == [] then ""
    else
      var page := taken[|taken| - 1];
      if page != [] then page[|page| - 1].rawTime else LastRaw(taken[..|taken| - 1])
  }

  /** What page by page came from an instance. */
  function TakenFrom(merged: seq<seq<Item>>, n: string): (r: seq<seq<Item>>)
    ensures |r| == |merged|
  {
    if merged == [] then [] else TakenFrom(merged[..|merged| - 1], n) + [Keep(merged[|merged| - 1], From(n))]
  }

  /** An instance's stream, cut up: entries that arrived too late, per page the entries lost
      after the served ones, and the entries still to be served. */
  datatype Ledger = Ledger(newer: seq<Item>, lost: seq<seq<Item>>, older: seq<Item>)

  /** Everything handled after page `p`, and everything still to come. */
  function After(taken: seq<seq<Item>>, led: Ledger, p: nat): (r: seq<Item>)
    requires |taken| == |led.lost| && p < |taken|
  {
    Woven(taken[p + 1..], led.lost[p + 1..]) + led.older
  }

  /** The entries lost on page `p` are exactly those beyond its consumed prefix that carry
      the timestamp of the last entry consumed. */
  ghost predicate TieExact(taken: seq<seq<Item>>, led: Ledger, p: nat)
    requires |taken| == |led.lost| && p < |taken|
  {
    && (taken[p] == [] ==> led.lost[p] == [])
    && (taken[p] != [] ==>
          var o := taken[p][|taken[p]| - 1].rawTime;
          && (forall x | x in led.lost[p] :: x.rawTime == o)
          && (forall x | x in After(taken, led, p) :: Less(x.rawTime, o)))
  }

  /** The books balance: the stream is what came too late, then what was served and lost page
      by page, then what is left; the cursor holds the last served raw time, verbatim, and
      separates the two ends; an exhausted instance has nothing left. */
  ghost predicate Accounts(stream: seq<Item>, taken: seq<seq<Item>>, c: InstanceCursor, led: Ledger)
  {
    && |led.lost| == |taken|
    && stream == led.newer + Woven(taken, led.lost) + led.older
    && c.o == LastRaw(taken)
    && (c.d ==> led.older == [])
    && (c.o == "" ==> Woven(taken, led.lost) == [] && (c.d || led.newer == []) && forall p | 0 <= p < |taken| :: taken[p] == [])
    && (c.o != "" ==> forall x | x in led.older :: Less(x.rawTime, c.o))
    && (c.o != "" ==> forall x | x in led.newer + Woven(taken, led.lost) :: !Less(x.rawTime, c.o))
    && (forall p | 0 <= p < |taken| :: TieExact(taken, led, p))
  }

  /** A request with the cursor's timestamp resumes exactly where the books say. */
  lemma {:induction false} ResumesAt(stream: seq<Item>, taken: seq<seq<Item>>, c: InstanceCursor, led: Ledger)
    requires Accounts(stream, taken, c, led) && !c.d
    ensures OlderThan(stream, c.o) == led.older
  {
    var pre := led.newer + Woven(taken, led.lost);
    if c.o == "" {
      assert stream == led.older;
      KeepAll(stream, OlderItem(c.o));
    } else {
      KeepAppend(pre, led.older, OlderItem(c.o));
      KeepNone(pre, OlderItem(c.o));
      KeepAll(led.older, OlderItem(c.o));
    }
  }

  /** How many leading entries carry the timestamp `o`. */
  function TieRun(s: seq<Item>, o: string): (t: nat)
    ensures t <= |s| && forall i | 0 <= i < t :: s[i].rawTime == o
    ensures t < |s| ==> s[t].rawTime != o
  {
    if s == [] || s[0].rawTime != o then 0 else 1 + TieRun(s[1..], o)
  }

  lemma {:induction false} WovenAppend(taken: seq<seq<Item>>, lost: seq<seq<Item>>, a: seq<Item>, l: seq<Item>)
    requires |taken| == |lost|
    ensures Woven(taken + [a], lost + [l]) == Woven(taken, lost) + a + l
  {
    assert (taken + [a])[..|taken|] == taken && (lost + [l])[..|lost|] == lost;
  }

  lemma {:induction false} AfterAppend(taken: seq<seq<Item>>, led: Ledger, a: seq<Item>, l: seq<Item>, older: seq<Item>, p: nat)
    requires |taken| == |led.lost| && p < |taken| && led.older == a + l + older
    ensures After(taken + [a], Ledger(led.newer, led.lost + [l], older), p) == After(taken, led, p)
  {
    assert (taken + [a])[p + 1..] == taken[p + 1..] + [a] && (led.lost + [l])[p + 1..] == led.lost[p + 1..] + [l];
    WovenAppend(taken[p + 1..], led.lost[p + 1..], a, l);
  }

  /** Booking another page leaves the earlier pages' ties as they were. */
  lemma {:induction false} TiesKept(taken: seq<seq<Item>>, led: Ledger, a: seq<Item>, l: seq<Item>, older: seq<Item>)
    requires |taken| == |led.lost| && led.older == a + l + older
    requires forall p | 0 <= p < |taken| :: TieExact(taken, led, p)
    ensures forall p | 0 <= p < |taken| :: TieExact(taken + [a], Ledger(led.newer, led.lost + [l], older), p)
  {
    forall p | 0 <= p < |taken| ensures TieExact(taken + [a], Ledger(led.newer, led.lost + [l], older), p) {
      AfterAppend(taken, led, a, l, older, p);
      assert TieExact(taken, led, p);
    }
  }

  /** A page on which an instance serves nothing leaves its books as they are. */
  lemma {:induction false} AccountsIdle(stream: seq<Item>, taken: seq<seq<Item>>, c: InstanceCursor, led: Ledger, d: bool) returns (led': Ledger)
    requires Accounts(stream, taken, c, led)
    requires (d ==> led.older == []) && (c.d ==> d)
    ensures led'.newer == led.newer && led'.older == led.older
    ensures Accounts(stream, taken + [[]], InstanceCursor(c.o, d), led')
  {
    led' := Ledger(led.newer, led.lost + [[]], led.older);
    var t := taken + [[]];
    WovenAppend(taken, led.lost, [], []);
    assert Woven(t, led'.lost) == Woven(taken, led.lost);
    assert t[..|taken|] == taken;
    assert LastRaw(t) == LastRaw(taken);
    assert led.older == [] + [] + led.older;
    TiesKept(taken, led, [], [], led.older);
    assert TieExact(t, led', |taken|);
    SameBooks(stream, taken, c, led, t, InstanceCursor(c.o, d), led');
  }

  lemma {:induction false} SameBooks(stream: seq<Item>, taken: seq<seq<Item>>, c: InstanceCursor, led: Ledger,
                                     t: seq<seq<Item>>, c': InstanceCursor, led': Ledger)
    requires Accounts(stream, taken, c, led)
    requires |led'.lost| == |t| && Woven(t, led'.lost) == Woven(taken, led.lost) && LastRaw(t) == LastRaw(taken)
    requires led'.newer == led.newer && led'.older == led.older
    requires c'.o == c.o && (c.d ==> c'.d) && (c'.d ==> led.older == [])
    requires (forall p | 0 <= p < |taken| :: taken[p] == []) ==> forall p | 0 <= p < |t| :: t[p] == []
    requires forall p | 0 <= p < |t| :: TieExact(t, led', p)
    ensures Accounts(stream, t, c', led')
  {
  }

  /** Where a run of equal timestamps ends, everything before is no older and everything
      after is strictly older. */
  lemma {:induction false} SplitAtTie(s: seq<Item>, k: nat, t: nat)
    requires TextDown(s) && 0 < k <= k + t <= |s|
    requires forall i | k <= i < k + t :: s[i].rawTime == s[k - 1].rawTime
    requires k + t < |s| ==> s[k + t].rawTime != s[k - 1].rawTime
    ensures forall x | x in s[..k + t] :: !Less(x.rawTime, s[k - 1].rawTime)
    ensures forall x | x in s[k + t..] :: Less(x.rawTime, s[k - 1].rawTime)
    ensures s[k - 1].rawTime != ""
  {
    var o := s[k - 1].rawTime;
    LessTotal(o, o);
    forall x | x in s[k + t..] ensures Less(x.rawTime, o) {
      var i :| k + t <= i < |s| && s[i] == x;
      LessTotal(s[k + t].rawTime, o);
      LessTotal(s[i].rawTime, s[k + t].rawTime);
      assert i == k + t || !Less(s[k + t].rawTime, s[i].rawTime);
      if Less(s[i].rawTime, s[k + t].rawTime) {
        LessTransitive(s[i].rawTime, s[k + t].rawTime, o);
      }
    }
  }

  lemma {:induction false} TieRunAt(pre: seq<Item>, r: seq<Item>, k: nat, t: nat)
    requires 0 < k <= |r| && t == TieRun(r[k..], r[k - 1].rawTime)
    ensures k + t <= |r| && (pre + r)[|pre| + k - 1] == r[k - 1]
    ensures forall i | |pre| + k <= i < |pre| + k + t :: (pre + r)[i].rawTime == r[k - 1].rawTime
    ensures k + t < |r| ==> (pre + r)[|pre| + k + t].rawTime != r[k - 1].rawTime
    ensures (pre + r)[..|pre| + k + t] == pre + r[..k] + r[k..k + t]
    ensures (pre + r)[|pre| + k + t..] == r[k + t..]
    ensures r == r[..k] + r[k..k + t] + r[k + t..]
  {
    forall i | |pre| + k <= i < |pre| + k + t ensures (pre + r)[i].rawTime == r[k - 1].rawTime {
      assert (pre + r)[i] == r[k..][i - |pre| - k];
    }
    assert t < |r[k..]| ==> (pre + r)[|pre| + k + t] == r[k..][t];
  }

  lemma {:induction false} ServedAndTied(pre: seq<Item>, r: seq<Item>, k: nat, t: nat)
    requires TextDown(pre + r) && 0 < k <= |r| && t == TieRun(r[k..], r[k - 1].rawTime)
    ensures k + t <= |r| && r == r[..k] + r[k..k + t] + r[k + t..]
    ensures r[k - 1].rawTime != ""
    ensures forall x | x in r[k..k + t] :: x.rawTime == r[k - 1].rawTime
    ensures forall x | x in pre + r[..k] + r[k..k + t] :: !Less(x.rawTime, r[k - 1].rawTime)
    ensures forall x | x in r[k + t..] :: Less(x.rawTime, r[k - 1].rawTime)
  {
    TieRunAt(pre, r, k, t);
    SplitAtTie(pre + r, |pre| + k, t);
    assert r[k..k + t] == r[k..][..t];
  }

  /** The facts a served page leaves, booked. */
  lemma {:induction false} BookServed(stream: seq<Item>, taken: seq<seq<Item>>, c: InstanceCursor, led: Ledger,
                   a: seq<Item>, l: seq<Item>, older: seq<Item>, d: bool)
    requires Accounts(stream, taken, c, led)
    requires a != [] && led.older == a + l + older && (d ==> older == [])
    requires a[|a| - 1].rawTime != "" && forall x | x in l :: x.rawTime == a[|a| - 1].rawTime
    requires forall x | x in led.newer + Woven(taken, led.lost) + a + l :: !Less(x.rawTime, a[|a| - 1].rawTime)
    requires forall x | x in older :: Less(x.rawTime, a[|a| - 1].rawTime)
    ensures Accounts(stream, taken + [a], InstanceCursor(a[|a| - 1].rawTime, d), Ledger(led.newer, led.lost + [l], older))
  {
    var led' := Ledger(led.newer, led.lost + [l], older);
    WovenAppend(taken, led.lost, a, l);
    Reassociate(led.newer, Woven(taken, led.lost), a, l, older);
    TiesKept(taken, led, a, l, older);
    LastTie(taken, led, a, l, older);
    Balanced(stream, taken + [a], InstanceCursor(a[|a| - 1].rawTime, d), led');
  }

  lemma {:induction false} Reassociate(newer: seq<Item>, w: seq<Item>, a: seq<Item>, l: seq<Item>, older: seq<Item>)
    ensures newer + w + (a + l + older) == newer + (w + a + l) + older
    ensures newer + w + a + l == newer + (w + a + l)
  {
  }

  lemma {:induction false} LastTie(taken: seq<seq<Item>>, led: Ledger, a: seq<Item>, l: seq<Item>, older: seq<Item>)
    requires |taken| == |led.lost| && a != []
    requires forall x | x in l :: x.rawTime == a[|a| - 1].rawTime
    requires forall x | x in older :: Less(x.rawTime, a[|a| - 1].rawTime)
    ensures TieExact(taken + [a], Ledger(led.newer, led.lost + [l], older), |taken|)
    ensures LastRaw(taken + [a]) == a[|a| - 1].rawTime
  {
    assert After(taken + [a], Ledger(led.newer, led.lost + [l], older), |taken|) == older;
  }

  lemma {:induction false} Balanced(stream: seq<Item>, taken: seq<seq<Item>>, c: InstanceCursor, led: Ledger)
    requires |led.lost| == |taken| && stream == led.newer + Woven(taken, led.lost) + led.older
    requires c.o == LastRaw(taken) && c.o != "" && (c.d ==> led.older == [])
    requires forall x | x in led.older :: Less(x.rawTime, c.o)
    requires forall x | x in led.newer + Woven(taken, led.lost) :: !Less(x.rawTime, c.o)
    requires forall p | 0 <= p < |taken| :: TieExact(taken, led, p)
    ensures Accounts(stream, taken, c, led)
  {
  }

  /** Serving the first `k > 0` of what is left: entries tied with the last one are lost. */
  lemma {:induction false} AccountsServe(stream: seq<Item>, taken: seq<seq<Item>>, c: InstanceCursor, led: Ledger, k: nat, d: bool)
    returns (led': Ledger)
    requires Accounts(stream, taken, c, led) && TextDown(stream) && 0 < k <= |led.older|
    requires d ==> k == |led.older|
    ensures led'.newer == led.newer && |led'.older| <= |led.older| - k
    ensures Accounts(stream, taken + [led.older[..k]], InstanceCursor(led.older[k - 1].rawTime, d), led')
  {
    var pre, r := led.newer + Woven(taken, led.lost), led.older;
    var t := TieRun(r[k..], r[k - 1].rawTime);
    ServedAndTied(pre, r, k, t);
    led' := BookTied(stream, taken, c, led, k, t, d);
  }

  /** The same, once it is known where the ties with the last entry served end. */
  lemma {:induction false} BookTied(stream: seq<Item>, taken: seq<seq<Item>>, c: InstanceCursor, led: Ledger, k: nat, t: nat, d: bool)
    returns (led': Ledger)
    requires Accounts(stream, taken, c, led) && 0 < k <= k + t <= |led.older| && (d ==> k == |led.older|)
    requires var r := led.older; r == r[..k] + r[k..k + t] + r[k + t..] && r[k - 1].rawTime != ""
    requires forall x | x in led.older[k..k + t] :: x.rawTime == led.older[k - 1].rawTime
    requires forall x | x in led.newer + Woven(taken, led.lost) + led.older[..k] + led.older[k..k + t] ::
               !Less(x.rawTime, led.older[k - 1].rawTime)
    requires forall x | x in led.older[k + t..] :: Less(x.rawTime, led.older[k - 1].rawTime)
    ensures led' == Ledger(led.newer, led.lost + [led.older[k..k + t]], led.older[k + t..])
    ensures Accounts(stream, taken + [led.older[..k]], InstanceCursor(led.older[k - 1].rawTime, d), led')
  {
    var a, l, older := led.older[..k], led.older[k..k + t], led.older[k + t..];
    assert a[|a| - 1] == led.older[k - 1];
    led' := Ledger(led.newer, led.lost + [l], older);
    BookServed(stream, taken, c, led, a, l, older, d);
  }

  lemma {:induction false} TiesOfPages(taken: seq<seq<Item>>, led: Ledger, newer: seq<Item>)
    requires |taken| == |led.lost| && forall p | 0 <= p < |taken| :: TieExact(taken, led, p)
    ensures forall p | 0 <= p < |taken| :: TieExact(taken, Ledger(newer, led.lost, led.older), p)
  {
    forall p | 0 <= p < |taken| ensures TieExact(taken, Ledger(newer, led.lost, led.older), p) {
      assert TieExact(taken, led, p);
    }
  }

  /** Nothing that arrives is older than what has been served. */
  lemma {:induction false} ArrivedNotOlder(arrived: seq<Item>, stream: seq<Item>, z: Item)
    requires TextDown(arrived + stream) && z in stream
    ensures forall x | x in arrived :: !Less(x.rawTime, z.rawTime)
  {
    var s := arrived + stream;
    var j :| 0 <= j < |stream| && stream[j] == z;
    forall x | x in arrived ensures !Less(x.rawTime, z.rawTime) {
      var i :| 0 <= i < |arrived| && arrived[i] == x;
      assert s[i] == x && s[|arrived| + j] == z;
    }
  }

  /** Arrivals come too late for an instance that has been served from or is exhausted. */
  lemma {:induction false} AccountsLate(stream: seq<Item>, taken: seq<seq<Item>>, c: InstanceCursor, led: Ledger, arrived: seq<Item>)
    requires Accounts(stream, taken, c, led) && TextDown(arrived + stream) && (c.o != "" || c.d)
    ensures Accounts(arrived + stream, taken, c, Ledger(arrived + led.newer, led.lost, led.older))
  {
    var w := Woven(taken, led.lost);
    assert arrived + (led.newer + w + led.older) == (arrived + led.newer) + w + led.older;
    assert (arrived + led.newer) + w == arrived + (led.newer + w);
    TiesOfPages(taken, led, arrived + led.newer);
    if c.o != "" {
      LastRawServed(taken, led.lost);
      var z :| z in w && z.rawTime == c.o;
      ArrivedNotOlder(arrived, stream, z);
    }
  }

  /** Arrivals will be served if the instance has served nothing yet, and come too late after. */
  lemma {:induction false} AccountsArrive(stream: seq<Item>, taken: seq<seq<Item>>, c: InstanceCursor, led: Ledger, arrived: seq<Item>)
    returns (led': Ledger)
    requires Accounts(stream, taken, c, led) && TextDown(arrived + stream)
    ensures Accounts(arrived + stream, taken, c, led')
    ensures led'.newer == [] || led'.newer == arrived + led.newer
  {
    if c.o == "" && !c.d {
      led' := Ledger([], led.lost, arrived + led.older);
      assert arrived + ([] + [] + led.older) == [] + [] + (arrived + led.older);
      forall p | 0 <= p < |taken| ensures TieExact(taken, led', p) {
        assert TieExact(taken, led, p);
      }
    } else {
      led' := Ledger(arrived + led.newer, led.lost, led.older);
      AccountsLate(stream, taken, c, led, arrived);
    }
  }

  lemma {:induction false} LastRawServed(taken: seq<seq<Item>>, lost: seq<seq<Item>>)
    requires |taken| == |lost| && LastRaw(taken) != ""
    ensures exists z :: z in Woven(taken, lost) && z.rawTime == LastRaw(taken)
  {
    var n := |taken| - 1;
    if taken[n] == [] {
      LastRawServed(taken[..n], lost[..n]);
      var z :| z in Woven(taken[..n], lost[..n]) && z.rawTime == LastRaw(taken[..n]);
      assert z in Woven(taken, lost);
    } else {
      var z := taken[n][|taken[n]| - 1];
      assert z in Woven(taken, lost);
    }
  }

  // ---------------------------------------------------------------- every run balances

  /** If an instance's offer is in merge order, what the page takes of it is a prefix. */
  lemma {:induction false} TakenPrefix(names: seq<string>, offers: map<string, seq<Item>>, pageSize: nat, n: string)
    requires Tagged(names, offers) && n in names && Sorted(offers[n], Before)
    ensures var page := Merged(names, offers, pageSize);
            CountOf(page, n) <= |offers[n]| && Keep(page, From(n)) == offers[n][..CountOf(page, n)]
  {
    var all := SortStable(Flatten(names, offers), Before);
    BeforeOrder();
    KeepSort(Flatten(names, offers), From(n), Before);
    FlattenFrom(names, offers, n);
    StableSortUnique(offers[n], offers[n], Before);
    if pageSize < |all| {
      KeepAppend(all[..pageSize], all[pageSize..], From(n));
      assert all == all[..pageSize] + all[pageSize..];
    }
  }

  /** An open, reachable instance offers the first page of what its cursor leaves. */
  lemma {:induction false} OfferIsHead(u: Setup, s: Session, down: set<string>, n: string)
    requires u.Valid() && n in u.Selection() && !Lookup(s.prev, n).d && n in s.logs && n !in down
    ensures OffersAt(u, s, down)[n] == Take(OlderThan(StreamOf(u, s.logs, n), Lookup(s.prev, n).o), u.pageSize)
  {
    FetchReadsStream(u.rt, s.logs[n], n, Request(u.filter, Lookup(s.prev, n).o, u.pageSize));
  }

  /** One instance, one page: it offers nothing, or the head of what is left, and `k` of the
      offer go into the page. */
  lemma {:induction false} PageAccounts(stream: seq<Item>, taken: seq<seq<Item>>, c: InstanceCursor, led: Ledger,
                     reaches: bool, offer: seq<Item>, k: nat, pageSize: nat) returns (led': Ledger)
    requires Accounts(stream, taken, c, led) && TextDown(stream) && 1 <= pageSize && k <= |offer|
    requires offer == if c.d || !reaches then [] else Take(led.older, pageSize)
    ensures led'.newer == led.newer && |led'.older| + k <= |led.older|
    ensures Accounts(stream, taken + [offer[..k]], Advance(c, reaches, offer, k, pageSize), led')
  {
    var c' := Advance(c, reaches, offer, k, pageSize);
    if k == 0 {
      led' := AccountsIdle(stream, taken, c, led, c'.d);
      assert offer[..k] == [];
    } else {
      assert offer[..k] == led.older[..k];
      led' := AccountsServe(stream, taken, c, led, k, c'.d);
    }
  }

  lemma {:induction false} OfferSorted(u: Setup, s: Session, down: set<string>, n: string, led: Ledger)
    requires u.Valid() && n in u.Selection() && Pageable(StreamOf(u, s.logs, n), u.pageSize)
    requires Accounts(StreamOf(u, s.logs, n), TakenFrom(s.merged, n), Lookup(s.prev, n), led)
    ensures OffersAt(u, s, down)[n]
         == if Lookup(s.prev, n).d || !Network(s.logs, down).Reaches(n) then [] else Take(led.older, u.pageSize)
    ensures Sorted(OffersAt(u, s, down)[n], Before)
  {
    if !Lookup(s.prev, n).d && Network(s.logs, down).Reaches(n) {
      var stream := StreamOf(u, s.logs, n);
      OfferIsHead(u, s, down, n);
      ResumesAt(stream, TakenFrom(s.merged, n), Lookup(s.prev, n), led);
      if u.pageSize != 1 {
        OrderlySorted(stream, n);
        OlderSorted(stream, TakenFrom(s.merged, n), Lookup(s.prev, n), led, u.pageSize);
      }
    }
  }

  lemma {:induction false} OffersTaggedAt(u: Setup, s: Session, down: set<string>)
    requires u.Valid()
    ensures Tagged(u.Selection(), OffersAt(u, s, down))
  {
    KeepDistinct(u.clients, Chosen(u.filter));
    OffersTagged(u.rt, Network(s.logs, down), u.filter, s.prev, u.pageSize, u.Selection());
  }

  /** What the books of an instance are about. */
  datatype Books = Books(stream: seq<Item>, taken: seq<seq<Item>>, c: InstanceCursor)

  function BooksOf(u: Setup, s: Session, n: string): (b: Books)
  {
    Books(StreamOf(u, s.logs, n), TakenFrom(s.merged, n), Lookup(s.prev, n))
  }

  lemma {:induction false} LoadBooks(u: Setup, s: Session, down: set<string>, n: string, b: Books, led: Ledger) returns (led': Ledger)
    requires u.Valid() && n in u.Selection() && b == BooksOf(u, s, n) && Pageable(b.stream, u.pageSize)
    requires Accounts(b.stream, b.taken, b.c, led)
    ensures led'.newer == led.newer && |led'.older| + CountOf(MergedAt(u, s, down), n) <= |led.older|
    ensures Accounts(b.stream, b.taken + [Keep(MergedAt(u, s, down), From(n))], Lookup(NextAt(u, s, down), n), led')
  {
    OffersTaggedAt(u, s, down);
    OfferSorted(u, s, down, n, led);
    TakenPrefix(u.Selection(), OffersAt(u, s, down), u.pageSize, n);
    led' := PageAccounts(b.stream, b.taken, b.c, led, Network(s.logs, down).Reaches(n), OffersAt(u, s, down)[n],
                         CountOf(MergedAt(u, s, down), n), u.pageSize);
  }

  lemma {:induction false} TakenAppend(merged: seq<seq<Item>>, page: seq<Item>, n: string)
    ensures TakenFrom(merged + [page], n) == TakenFrom(merged, n) + [Keep(page, From(n))]
  {
    assert (merged + [page])[..|merged|] == merged;
  }

  lemma {:induction false} OlderSorted(stream: seq<Item>, taken: seq<seq<Item>>, c: InstanceCursor, led: Ledger, n: nat)
    requires Accounts(stream, taken, c, led) && Sorted(stream, Before)
    ensures Sorted(Take(led.older, n), Before)
  {
    var m := |stream| - |led.older|;
    assert led.older == stream[m..];
  }

  ghost function FinalLogs(u: Setup, logs: LogMap, events: seq<Event>): (r: LogMap)
  {
    Run(u, logs, events).logs
  }

  lemma {:induction false} PageableTail(a: seq<Item>, b: seq<Item>, pageSize: nat)
    requires Pageable(a + b, pageSize)
    ensures Pageable(b, pageSize)
  {
    var s := a + b;
    assert forall i | 0 <= i < |b| :: b[i] == s[|a| + i];
  }

  /** What an event adds at the head of an instance's stream. */
  function Arriving(u: Setup, s: Session, e: Event, n: string): (r: seq<Item>)
  {
    if e.Arrive? && e.name == n && n in s.logs then Stream(u.rt, n, e.entries, SearchTerm(u.filter.search), u.filter.status)
    else []
  }

  lemma {:induction false} StreamStep(u: Setup, s: Session, e: Event, n: string)
    ensures StreamOf(u, Step(u, s, e).logs, n) == Arriving(u, s, e, n) + StreamOf(u, s.logs, n)
  {
    if e.Arrive? && e.name == n && n in s.logs {
      StreamAppend(u.rt, n, e.entries, s.logs[n], SearchTerm(u.filter.search), u.filter.status);
    }
  }

  /** Everything logged since a run began that its filter fetches, newest first. */
  ghost function Arrivals(u: Setup, logs: LogMap, events: seq<Event>, n: string): (r: seq<Item>)
  {
    if events == [] then []
    else
      var m := |events| - 1;
      Arriving(u, Run(u, logs, events[..m]), events[m], n) + Arrivals(u, logs, events[..m], n)
  }

  lemma {:induction false} StreamGrows(u: Setup, logs: LogMap, events: seq<Event>, n: string)
    ensures StreamOf(u, FinalLogs(u, logs, events), n) == Arrivals(u, logs, events, n) + StreamOf(u, logs, n)
  {
    if events != [] {
      var m := |events| - 1;
      var s := Run(u, logs, events[..m]);
      StreamGrows(u, logs, events[..m], n);
      StreamStep(u, s, events[m], n);
      ConcatAssociates(Arriving(u, s, events[m], n), Arrivals(u, logs, events[..m], n), StreamOf(u, logs, n));
      assert FinalLogs(u, logs, events) == Step(u, s, events[m]).logs;
    }
  }

  lemma {:induction false} ConcatAssociates(a: seq<Item>, b: seq<Item>, c: seq<Item>)
    ensures a + (b + c) == a + b + c
  {
  }

  lemma {:induction false} LoadedBooks(u: Setup, s: Session, down: set<string>, n: string, s': Session)
    requires s.more && s' == Step(u, s, Load(down))
    ensures BooksOf(u, s', n)
         == Books(StreamOf(u, s.logs, n), TakenFrom(s.merged, n) + [Keep(MergedAt(u, s, down), From(n))], Lookup(NextAt(u, s, down), n))
  {
    TakenAppend(s.merged, MergedAt(u, s, down), n);
  }

  lemma {:induction false} ArrivedBooks(u: Setup, s: Session, e: Event, n: string, s': Session)
    requires e.Arrive? && s' == Step(u, s, e)
    ensures BooksOf(u, s', n) == BooksOf(u, s, n).(stream := Arriving(u, s, e, n) + StreamOf(u, s.logs, n))
  {
    StreamStep(u, s, e, n);
  }

  /** Any one event keeps the books of any one instance. */
  lemma {:induction false} StepBalances(u: Setup, s: Session, e: Event, n: string, s': Session, b: Books, led: Ledger)
    returns (b': Books, led': Ledger)
    requires u.Valid() && n in u.Selection() && s' == Step(u, s, e) && Pageable(StreamOf(u, s'.logs, n), u.pageSize)
    requires b == BooksOf(u, s, n) && Accounts(b.stream, b.taken, b.c, led)
    ensures b' == BooksOf(u, s', n) && Accounts(b'.stream, b'.taken, b'.c, led')
    ensures led'.newer == [] || led'.newer == Arriving(u, s, e, n) + led.newer
  {
    if e.Arrive? {
      var arrived := Arriving(u, s, e, n);
      ArrivedBooks(u, s, e, n, s');
      b' := Books(arrived + b.stream, b.taken, b.c);
      led' := AccountsArrive(b.stream, b.taken, b.c, led, arrived);
    } else if s.more {
      LoadedBooks(u, s, e.down, n, s');
      b' := Books(b.stream, b.taken + [Keep(MergedAt(u, s, e.down), From(n))], Lookup(NextAt(u, s, e.down), n));
      led' := LoadBooks(u, s, e.down, n, b, led);
    } else {
      b', led' := b, led;
    }
  }

  lemma {:induction false} OpeningBooks(u: Setup, logs: LogMap, n: string) returns (b: Books, led: Ledger)
    ensures b == BooksOf(u, Opening(logs), n) && Accounts(b.stream, b.taken, b.c, led) && led.newer == []
  {
    b, led := BooksOf(u, Opening(logs), n), Ledger([], [], StreamOf(u, logs, n));
  }

  lemma {:induction false} PageableBefore(u: Setup, s: Session, e: Event, n: string, s': Session)
    requires s' == Step(u, s, e) && Pageable(StreamOf(u, s'.logs, n), u.pageSize)
    ensures Pageable(StreamOf(u, s.logs, n), u.pageSize)
  {
    StreamStep(u, s, e, n);
    PageableTail(Arriving(u, s, e, n), StreamOf(u, s.logs, n), u.pageSize);
  }

  lemma {:induction false} HeadGrows(newer: seq<Item>, newer': seq<Item>, arriving: seq<Item>, arrivals: seq<Item>)
    requires newer <= arrivals && (newer' == [] || newer' == arriving + newer)
    ensures newer' <= arriving + arrivals
  {
  }

  lemma {:induction false} RunBalances(u: Setup, logs: LogMap, events: seq<Event>, n: string, s: Session)
    returns (b: Books, led: Ledger)
    requires u.Valid() && n in u.Selection() && s == Run(u, logs, events) && Pageable(StreamOf(u, s.logs, n), u.pageSize)
    ensures b == BooksOf(u, s, n) && Accounts(b.stream, b.taken, b.c, led)
    ensures led.newer <= Arrivals(u, logs, events, n)
  {
    if events == [] {
      b, led := OpeningBooks(u, logs, n);
    } else {
      var m := |events| - 1;
      var prev, e := Run(u, logs, events[..m]), events[m];
      PageableBefore(u, prev, e, n, s);
      var b0, led0 := RunBalances(u, logs, events[..m], n, prev);
      b, led := StepBalances(u, prev, e, n, s, b0, led0);
      HeadGrows(led0.newer, led.newer, Arriving(u, prev, e, n), Arrivals(u, logs, events[..m], n));
    }
  }

  /** Whatever fails on whichever page and whatever arrives in between, the books of every
      instance balance at the end of every run; what came too late is a head of what was
      logged since the run began. */
  lemma {:induction false} EveryRunBalances(u: Setup, logs: LogMap, events: seq<Event>, n: string) returns (led: Ledger)
    requires u.Valid() && n in u.Selection()
    requires Pageable(StreamOf(u, FinalLogs(u, logs, events), n), u.pageSize)
    ensures var s := Run(u, logs, events);
            && Accounts(StreamOf(u, s.logs, n), TakenFrom(s.merged, n), Lookup(s.prev, n), led)
            && StreamOf(u, s.logs, n) == Arrivals(u, logs, events, n) + StreamOf(u, logs, n)
            && led.newer <= Arrivals(u, logs, events, n)
  {
    StreamGrows(u, logs, events, n);
    var b, l := RunBalances(u, logs, events, n, Run(u, logs, events));
    led := l;
  }
}
