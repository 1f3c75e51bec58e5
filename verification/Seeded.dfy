/** Logs as they are seeded: entries whose times have one width and do not repeat within an
    instance, stored by `QueryLog.New`, meet everything pagination asks for. */
module Seeded {
  import opened Ordering
  import opened Text
  import opened QueryLog
  import opened Glob
  import opened Runs
  import opened WholeRun
  import opened Timestamps
  import Exact
  import Paginate

  /** What `QueryLog.New` promises of the log it stores. */
  ghost predicate Stored(log: seq<Entry>, entries: seq<Entry>)
  {
    && (forall i, j | 0 <= i < j < |log| :: !Less(log[i].time, log[j].time))
    && (forall t :: Keep(log, TimedAt(t)) == Keep(entries, TimedAt(t)))
  }

  ghost predicate DistinctTimes(s: seq<Entry>)
  {
    forall i, j | 0 <= i < j < |s| :: s[i].time != s[j].time
  }

  lemma {:induction false} KeepDistinctTimes(s: seq<Entry>, p: Entry -> bool)
    requires DistinctTimes(s)
    ensures DistinctTimes(Keep(s, p))
  {
    if s != [] {
      KeepDistinctTimes(s[1..], p);
      forall e | e in Keep(s[1..], p) ensures e.time != s[0].time {
        var j :| 0 <= j < |s[1..]| && s[1..][j] == e;
        assert s[j + 1] == e;
      }
    }
  }

  lemma {:induction false} StoredMembers(log: seq<Entry>, entries: seq<Entry>, e: Entry)
    requires Stored(log, entries) && e in log
    ensures e in entries
  {
    assert e in Keep(log, TimedAt(e.time));
    assert e in Keep(entries, TimedAt(e.time));
  }

  lemma {:induction false} KeptOnce(s: seq<Entry>, t: string)
    requires DistinctTimes(s)
    ensures |Keep(s, TimedAt(t))| <= 1
  {
    if s != [] {
      KeptOnce(s[1..], t);
      if s[0].time == t {
        KeepNone(s[1..], TimedAt(t));
      }
    }
  }

  lemma {:induction false} KeptTwice(s: seq<Entry>, i: nat, j: nat)
    requires i < j < |s| && s[i].time == s[j].time
    ensures |Keep(s, TimedAt(s[i].time))| >= 2
  {
    var pre, post := s[..j], s[j..];
    assert s == pre + post && s[i] in pre && s[j] in post;
    KeepAppend(pre, post, TimedAt(s[i].time));
    assert s[i] in Keep(pre, TimedAt(s[i].time)) && s[j] in Keep(post, TimedAt(s[i].time));
  }

  lemma {:induction false} StoredDistinct(log: seq<Entry>, entries: seq<Entry>, i: nat, j: nat)
    requires Stored(log, entries) && DistinctTimes(entries) && i < j < |log|
    ensures log[i].time != log[j].time
  {
    KeptOnce(entries, log[i].time);
    if log[i].time == log[j].time {
      KeptTwice(log, i, j);
    }
  }

  /** Of such a log, whatever is searched for comes in order and without ties. */
  lemma {:induction false} SeededStream(rt: Runtime, n: string, log: seq<Entry>, entries: seq<Entry>, width: nat, search: string, status: string)
    requires ParsesStamps(rt) && Stored(log, entries) && DistinctTimes(entries)
    requires forall e | e in entries :: Stamped(e, width)
    ensures Orderly(Stream(rt, n, log, search, status)) && Strict(Stream(rt, n, log, search, status))
  {
    forall e | e in log ensures Stamped(e, width) {
      StoredMembers(log, entries, e);
    }
    EqualWidthLogIsOrderly(rt, n, log, width, search, status);
    forall i: nat, j: nat | i < j < |log| ensures log[i].time != log[j].time {
      StoredDistinct(log, entries, i, j);
    }
    KeepDistinctTimes(log, Passing(rt, search, status));
  }

  ghost predicate SeededLogs(u: Setup, logs: LogMap, seeds: LogMap, widths: string -> nat)
  {
    forall n | n in u.Selection() ::
      && n in logs && n in seeds && Stored(logs[n], seeds[n]) && DistinctTimes(seeds[n])
      && forall e | e in seeds[n] :: Stamped(e, widths(n))
  }

  /** Seeded logs meet the assumptions of every pagination theorem, each instance with a
      width of its own, at every page size. */
  lemma {:induction false} SeededLogsPaginate(u: Setup, logs: LogMap, seeds: LogMap, widths: string -> nat)
    requires u.Valid() && ParsesStamps(u.rt) && SeededLogs(u, logs, seeds, widths)
    ensures OrderlyLogs(u, logs) && StrictLogs(u, logs) && TextDownLogs(u, logs)
    ensures Separated(GlobalLog(u, logs), u.pageSize)
    ensures forall n | n in u.Selection() :: n in logs
  {
    forall n | n in u.Selection() ensures Orderly(StreamOf(u, logs, n)) && Strict(StreamOf(u, logs, n)) {
      SeededStream(u.rt, n, logs[n], seeds[n], widths(n), SearchTerm(u.filter.search), u.filter.status);
    }
    Exact.StrictSeparates(u, logs);
  }

  /** Store the seeds and page through them to the end. */
  method SeedAndPaginate(u: Setup, seeds: LogMap, ghost widths: string -> nat) returns (logs: LogMap, shown: seq<Item>, pages: nat)
    requires u.Valid() && StarStable(u.rt.lower) && ParsesStamps(u.rt)
    requires forall n | n in u.clients :: n in seeds && DistinctTimes(seeds[n]) && forall e | e in seeds[n] :: Stamped(e, widths(n))
    ensures forall n | n in u.clients :: n in logs && Stored(logs[n], seeds[n])
    ensures shown == Paginate.WantedLog(u, logs)
    ensures pages == Paginate.PagesFor(GlobalLog(u, logs), u.pageSize)
  {
    logs := map[];
    for i := 0 to |u.clients|
      invariant forall n | n in u.clients[..i] :: n in logs && Stored(logs[n], seeds[n])
    {
      var n := u.clients[i];
      assert u.clients[..i + 1] == u.clients[..i] + [n];
      var log := New(seeds[n]);
      logs := logs[n := log];
    }
    assert u.clients[..|u.clients|] == u.clients;
    SeededLogsPaginate(u, logs, seeds, widths);
    shown, pages := Paginate.PaginateAll(u, logs);
  }
}
