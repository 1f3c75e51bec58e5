/** A timestamp repeated within an instance is enough to lose an entry: a run that does. */
module Ties {
  import opened Ordering
  import opened Text
  import opened QueryLog
  import opened Merge
  import opened Cursors
  import opened Logs
  import opened Runs
  import opened WholeRun
  import Disagreement
  import Exact

  function OneLog(e: Entry, f: Entry): (m: LogMap)
  {
    map["a" := [e, f]]
  }

  function Alone(rt: Runtime): (u: Setup)
  {
    Setup(rt, ["a"], Disagreement.EVERYTHING, 1)
  }

  lemma {:induction false} SelectsAlone(rt: Runtime)
    ensures Alone(rt).Selection() == ["a"]
  {
    KeepAll(["a"], Chosen(Disagreement.EVERYTHING));
  }

  lemma {:induction false} FlattenOne(a: seq<Item>)
    ensures Flatten(["a"], map["a" := a]) == a
  {
    var m := map["a" := a];
    assert Flatten(["a"], m) == a + Flatten([], m) == a;
  }

  /** A page over at most one entry of the only instance. */
  lemma {:induction false} SinglePage(rt: Runtime, s: Session, offer: seq<Item>)
    requires |offer| <= 1 && OffersAt(Alone(rt), s, {}) == map["a" := offer]
    requires forall it | it in offer :: it.instance == "a"
    ensures MergedAt(Alone(rt), s, {}) == offer && CountOf(offer, "a") == |offer|
  {
    SelectsAlone(rt);
    FlattenOne(offer);
    KeepAll(offer, From("a"));
    assert offer == [] || offer == [offer[0]];
    assert SortStable(offer, Before) == offer;
  }

  lemma {:induction false} FirstOffer(rt: Runtime, e: Entry, f: Entry)
    requires e.time == f.time != ""
    ensures OffersAt(Alone(rt), Opening(OneLog(e, f)), {}) == map["a" := [Enrich(rt, "a", e)]]
  {
    SelectsAlone(rt);
    Disagreement.AnswerAll(rt, [e, f], "", 1);
    KeepAll([e, f], OlderEntry(""));
    assert Take([e, f], 1) == [e] && EnrichAll(rt, "a", [e]) == [Enrich(rt, "a", e)];
  }

  lemma {:induction false} FirstLoad(rt: Runtime, e: Entry, f: Entry)
    requires e.time == f.time != ""
    ensures var s := Step(Alone(rt), Opening(OneLog(e, f)), Load({}));
            && s.logs == OneLog(e, f) && s.more && s.merged == [[Enrich(rt, "a", e)]]
            && Lookup(s.prev, "a") == InstanceCursor(e.time, false)
  {
    SelectsAlone(rt);
    FirstNext(rt, e, f);
    assert Alone(rt).Selection()[0] == "a";
  }

  lemma {:induction false} FirstNext(rt: Runtime, e: Entry, f: Entry)
    requires e.time == f.time != ""
    ensures "a" in Alone(rt).Selection()
    ensures MergedAt(Alone(rt), Opening(OneLog(e, f)), {}) == [Enrich(rt, "a", e)]
    ensures Lookup(NextAt(Alone(rt), Opening(OneLog(e, f)), {}), "a") == InstanceCursor(e.time, false)
  {
    SelectsAlone(rt);
    FirstOffer(rt, e, f);
    SinglePage(rt, Opening(OneLog(e, f)), [Enrich(rt, "a", e)]);
    assert Alone(rt).Selection()[0] == "a";
  }

  lemma {:induction false} SecondLoad(rt: Runtime, s: Session, e: Entry, f: Entry)
    requires e.time == f.time != "" && s.logs == OneLog(e, f) && s.more
    requires Lookup(s.prev, "a") == InstanceCursor(e.time, false)
    ensures var s' := Step(Alone(rt), s, Load({})); !s'.more && s'.merged == s.merged + [[]]
  {
    var u := Alone(rt);
    SelectsAlone(rt);
    Disagreement.AnswerAll(rt, [e, f], e.time, 1);
    LessTotal(e.time, e.time);
    KeepNone([e, f], OlderEntry(e.time));
    assert EnrichAll(rt, "a", []) == [];
    assert OffersAt(u, s, {}) == map["a" := []];
    SinglePage(rt, s, []);
    assert u.Selection()[0] == "a";
  }

  lemma {:induction false} TiedStream(rt: Runtime, e: Entry, f: Entry)
    requires e.time == f.time != ""
    ensures StreamOf(Alone(rt), OneLog(e, f), "a") == [Enrich(rt, "a", e), Enrich(rt, "a", f)]
    ensures OrderlyLogs(Alone(rt), OneLog(e, f)) && !StrictLogs(Alone(rt), OneLog(e, f))
  {
    var u, logs := Alone(rt), OneLog(e, f);
    var stream := StreamOf(u, logs, "a");
    SelectsAlone(rt);
    KeepAll([e, f], Passing(rt, "", ""));
    assert stream == [Enrich(rt, "a", e), Enrich(rt, "a", f)];
    assert stream[0].rawTime == stream[1].rawTime;
    LessTotal(e.time, e.time);
    assert u.Selection()[0] == "a";
  }

  lemma {:induction false} TwoPages(rt: Runtime, e: Entry, f: Entry)
    requires e.time == f.time != ""
    ensures var s := Run(Alone(rt), OneLog(e, f), [Load({}), Load({})]);
            !s.more && s.merged == [[Enrich(rt, "a", e)]] + [[]]
  {
    Disagreement.TwoLoads(Alone(rt), OneLog(e, f));
    FirstLoad(rt, e, f);
    SecondLoad(rt, Step(Alone(rt), Opening(OneLog(e, f)), Load({})), e, f);
  }

  lemma {:induction false} BothInLog(rt: Runtime, e: Entry, f: Entry)
    requires e.time == f.time != ""
    ensures Enrich(rt, "a", f) in GlobalLog(Alone(rt), OneLog(e, f))
  {
    TiedStream(rt, e, f);
    SelectsAlone(rt);
    FlattenHolds(Alone(rt).Selection(), Streams(Alone(rt), OneLog(e, f)), Enrich(rt, "a", f));
  }

  /** Two entries of one instance with one timestamp, pages of one entry: the failure-free run
      ends without the second. Text and instants agree; what fails is that no timestamp
      repeats. */
  lemma {:induction false} TieLosesEntry(rt: Runtime, e: Entry, f: Entry, s: Session)
    requires e.time == f.time != "" && e.domain != f.domain
    requires s == Run(Alone(rt), OneLog(e, f), [Load({}), Load({})])
    ensures OrderlyLogs(Alone(rt), OneLog(e, f)) && !StrictLogs(Alone(rt), OneLog(e, f))
    ensures Exact.Completed(Alone(rt), OneLog(e, f), [Load({}), Load({})])
    ensures Enrich(rt, "a", f) in GlobalLog(Alone(rt), OneLog(e, f)) && Enrich(rt, "a", f) !in Flat(s.merged)
    ensures !Exact.ServesLog(Alone(rt), OneLog(e, f), [Load({}), Load({})])
  {
    TwoPages(rt, e, f);
    TiedStream(rt, e, f);
    BothInLog(rt, e, f);
    FlatTwo(Enrich(rt, "a", e));
    TwoLoadsQuiet(rt, e, f);
  }

  lemma {:induction false} TwoLoadsQuiet(rt: Runtime, e: Entry, f: Entry)
    ensures Quiet(Alone(rt), OneLog(e, f), [Load({}), Load({})])
  {
    SelectsAlone(rt);
  }

  lemma {:induction false} FlatTwo(x: Item)
    ensures Flat([[x]] + [[]]) == [x]
  {
    assert ([[x]] + [[]])[..1] == [[x]] && [[x]][..0] == [];
    assert Flat([[x]]) == Flat([]) + [x] == [x];
  }

  lemma {:induction false} FlattenHolds(names: seq<string>, m: map<string, seq<Item>>, y: Item)
    requires names == ["a"] && Covers(names, m) && y in m["a"]
    ensures y in Flatten(names, m)
  {
  }
}
