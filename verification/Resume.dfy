/** One instance's cursor over a stream that descends by text: what a page does to what
    remains, whichever entries the page took. */
module Resume {
  import opened Ordering
  import opened Text
  import opened QueryLog
  import opened Cursors
  import opened Logs
  import opened Runs
  import opened Safety

  /** What an instance has yet to serve under a cursor. */
  function Remains(stream: seq<Item>, c: InstanceCursor): (r: seq<Item>)
  {
    if c.d then [] else OlderThan(stream, c.o)
  }

  lemma {:induction false} TextDownSlice(s: seq<Item>, lo: nat, hi: nat)
    requires TextDown(s) && lo <= hi <= |s|
    ensures TextDown(s[lo..hi])
  {
  }

  lemma {:induction false} HeadIsNewest(s: seq<Item>, o: string)
    requires TextDown(s) && s != [] && Less(s[0].rawTime, o)
    ensures forall x | x in s :: Less(x.rawTime, o)
  {
    forall x | x in s ensures Less(x.rawTime, o) {
      var i :| 0 <= i < |s| && s[i] == x;
      LessTotal(s[i].rawTime, s[0].rawTime);
      if i > 0 && s[i].rawTime != s[0].rawTime {
        LessTransitive(s[i].rawTime, s[0].rawTime, o);
      }
    }
  }

  /** A request reads a tail of the stream. */
  lemma {:induction false} OlderIsTail(stream: seq<Item>, o: string) returns (i: nat)
    requires TextDown(stream)
    ensures i <= |stream| && OlderThan(stream, o) == stream[i..]
  {
    if stream == [] {
      i := 0;
    } else if o == "" || Less(stream[0].rawTime, o) {
      i := 0;
      if o != "" {
        HeadIsNewest(stream, o);
      }
      KeepAll(stream, OlderItem(o));
    } else {
      TextDownSlice(stream, 1, |stream|);
      var j := OlderIsTail(stream[1..], o);
      i := j + 1;
      assert stream[1..][j..] == stream[i..];
    }
  }

  lemma {:induction false} RemainsIsTail(stream: seq<Item>, c: InstanceCursor) returns (i: nat)
    requires TextDown(stream)
    ensures i <= |stream| && Remains(stream, c) == stream[i..]
  {
    if c.d {
      i := |stream|;
    } else {
      i := OlderIsTail(stream, c.o);
    }
  }

  /** After a page that took `k` of the offer, no matter which, the remainder is a tail of
      what remained, shorter by at least `k`. */
  lemma {:induction false} AdvanceShrinks(stream: seq<Item>, c: InstanceCursor, reaches: bool, offer: seq<Item>, k: nat, pageSize: nat)
    returns (t: nat)
    requires TextDown(stream) && k <= |offer|
    requires offer == if c.d || !reaches then [] else Take(Remains(stream, c), pageSize)
    ensures k <= t <= |Remains(stream, c)|
    ensures Remains(stream, Advance(c, reaches, offer, k, pageSize)) == Remains(stream, c)[t..]
  {
    var rest := Remains(stream, c);
    if c.d || !reaches || (k == 0 && !Advance(c, reaches, offer, k, pageSize).d) {
      t := 0;
    } else if Advance(c, reaches, offer, k, pageSize).d {
      t := |rest|;
    } else {
      var i := RemainsIsTail(stream, c);
      t := CutsTail(stream, i, k);
    }
  }

  lemma {:induction false} CutsTail(stream: seq<Item>, i: nat, k: nat) returns (t: nat)
    requires TextDown(stream) && 0 < k && i + k <= |stream|
    ensures k <= t <= |stream| - i && OlderThan(stream, stream[i..][k - 1].rawTime) == stream[i..][t..]
  {
    var u := TieRun(stream[i + k..], stream[i + k - 1].rawTime);
    NextRequestSkipsTies(stream, i + k, u);
    t := k + u;
    assert stream[i..][t..] == stream[i + k + u..];
  }

  /** If the page's cut is between different timestamps, the remainder is exactly the rest. */
  lemma {:induction false} AdvanceExact(stream: seq<Item>, c: InstanceCursor, offer: seq<Item>, i: nat, k: nat, pageSize: nat)
    requires TextDown(stream) && i <= |stream| && Remains(stream, c) == stream[i..] && k <= |offer|
    requires offer == if c.d then [] else Take(stream[i..], pageSize)
    requires 0 < i + k < |stream| ==> stream[i + k].rawTime != stream[i + k - 1].rawTime
    ensures i + k <= |stream| && Remains(stream, Advance(c, true, offer, k, pageSize)) == stream[i + k..]
  {
    if !c.d && k > 0 && !Advance(c, true, offer, k, pageSize).d {
      assert offer[k - 1] == stream[i + k - 1];
      NextRequestResumesIff(stream, i + k);
    }
  }
}
