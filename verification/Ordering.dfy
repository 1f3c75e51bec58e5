/** Sequences and stable sorting: the library operations the aggregator is built on
    (slices.SortStableFunc, sort.SliceStable, reslicing), and the theorem that a
    stable sort is the only answer its contract allows. */
module Ordering {

  datatype Option<+T> = None | Some(value: T)

  /** `s[:n]` guarded by `len(s) > n`. */
  function Take<T(!new)>(s: seq<T>, n: nat): (r: seq<T>)
  {
    if n < |s| then s[..n] else s
  }

  /** The elements satisfying `p`, in order. */
  function Keep<T(!new)>(s: seq<T>, p: T -> bool): (r: seq<T>)
    ensures |r| <= |s|
    ensures forall x :: x in r <==> x in s && p(x)
  {
    if s == [] then []
    else if p(s[0]) then [s[0]] + Keep(s[1..], p)
    else Keep(s[1..], p)
  }

  lemma {:induction false} KeepAppend<T(!new)>(s: seq<T>, t: seq<T>, p: T -> bool)
    ensures Keep(s + t, p) == Keep(s, p) + Keep(t, p)
  {
    if s == [] {
      assert s + t == t;
    } else {
      assert (s + t)[1..] == s[1..] + t;
      KeepAppend(s[1..], t, p);
    }
  }

  /** Where two kept elements come from. */
  lemma {:induction false} KeepInOrder<T(!new)>(s: seq<T>, p: T -> bool, i: nat, j: nat) returns (a: nat, b: nat)
    requires i < j < |Keep(s, p)|
    ensures a < b < |s| && s[a] == Keep(s, p)[i] && s[b] == Keep(s, p)[j]
  {
    if !p(s[0]) {
      a, b := KeepInOrder(s[1..], p, i, j);
      a, b := a + 1, b + 1;
    } else if i > 0 {
      a, b := KeepInOrder(s[1..], p, i - 1, j - 1);
      a, b := a + 1, b + 1;
    } else {
      a := 0;
      assert Keep(s[1..], p)[j - 1] in Keep(s[1..], p);
      b :| 0 <= b < |s[1..]| && s[1..][b] == Keep(s[1..], p)[j - 1];
      b := b + 1;
    }
  }

  /** One turn of a filtering loop. */
  lemma {:induction false} KeepStep<T(!new)>(out: seq<T>, s: seq<T>, i: nat, p: T -> bool)
    requires i < |s|
    ensures out + Keep(s[i..], p) == (if p(s[i]) then out + [s[i]] else out) + Keep(s[i + 1..], p)
  {
    assert s[i..][0] == s[i] && s[i..][1..] == s[i + 1..];
    assert out + ([s[i]] + Keep(s[i + 1..], p)) == out + [s[i]] + Keep(s[i + 1..], p);
  }

  lemma {:induction false} KeepAll<T(!new)>(s: seq<T>, p: T -> bool)
    requires forall x | x in s :: p(x)
    ensures Keep(s, p) == s
  {
    if s != [] {
      KeepAll(s[1..], p);
    }
  }

  lemma {:induction false} KeepNone<T(!new)>(s: seq<T>, p: T -> bool)
    requires forall x | x in s :: !p(x)
    ensures Keep(s, p) == []
  {
    if s != [] {
      KeepNone(s[1..], p);
    }
  }

  lemma {:induction false} KeepSwap<T(!new)>(s: seq<T>, p: T -> bool, q: T -> bool)
    ensures Keep(Keep(s, p), q) == Keep(Keep(s, q), p)
  {
    if s != [] {
      KeepSwap(s[1..], p, q);
    }
  }

  /** Filtering by a weaker condition first changes nothing. */
  lemma {:induction false} KeepNarrow<T(!new)>(s: seq<T>, p: T -> bool, q: T -> bool)
    requires forall x | x in s :: q(x) ==> p(x)
    ensures Keep(Keep(s, p), q) == Keep(s, q)
  {
    if s != [] {
      KeepNarrow(s[1..], p, q);
    }
  }

  /** A comparator as Go's sort functions require it. */
  ghost predicate StrictWeakOrder<T(!new)>(lt: (T, T) -> bool)
  {
    && (forall a, b :: lt(a, b) ==> !lt(b, a))
    && (forall a, b, c :: lt(a, c) ==> lt(a, b) || lt(b, c))
  }

  ghost predicate Sorted<T(!new)>(s: seq<T>, lt: (T, T) -> bool)
  {
    forall i, j | 0 <= i < j < |s| :: !lt(s[j], s[i])
  }

  /** The elements a comparator cannot tell apart from `x`. */
  function Ties<T(!new)>(x: T, lt: (T, T) -> bool): T -> bool
  {
    y => !lt(x, y) && !lt(y, x)
  }

  /** Two sequences hold, class by class, the same elements in the same order:
      what a stable sort promises about its input and its output. */
  ghost predicate SameClasses<T(!new)>(s: seq<T>, t: seq<T>, lt: (T, T) -> bool)
  {
    forall x :: Keep(s, Ties(x, lt)) == Keep(t, Ties(x, lt))
  }

  function Insert<T(!new)>(x: T, s: seq<T>, lt: (T, T) -> bool): (r: seq<T>)
    ensures |r| == |s| + 1
    ensures forall y :: y in r <==> y == x || y in s
  {
    if s != [] && lt(s[0], x) then [s[0]] + Insert(x, s[1..], lt) else [x] + s
  }

  /** Stable sorting, as slices.SortStableFunc and sort.SliceStable promise it. */
  function SortStable<T(!new)>(s: seq<T>, lt: (T, T) -> bool): (r: seq<T>)
    ensures |r| == |s|
    ensures forall y :: y in r <==> y in s
  {
    if s == [] then [] else Insert(s[0], SortStable(s[1..], lt), lt)
  }

  lemma {:induction false} InsertSorted<T(!new)>(x: T, s: seq<T>, lt: (T, T) -> bool)
    requires StrictWeakOrder(lt) && Sorted(s, lt)
    ensures Sorted(Insert(x, s, lt), lt)
  {
    if s != [] && lt(s[0], x) {
      InsertSorted(x, s[1..], lt);
      var r := Insert(x, s[1..], lt);
      forall y | y in r ensures !lt(y, s[0]) {
        if y != x {
          var j :| 0 <= j < |s[1..]| && s[1..][j] == y;
          assert s[j + 1] == y;
        }
      }
    } else if s != [] {
      forall y | y in s ensures !lt(y, x) {
        var j :| 0 <= j < |s| && s[j] == y;
        assert j == 0 || !lt(s[j], s[0]);
      }
    }
  }

  lemma {:induction false} InsertClass<T(!new)>(x: T, s: seq<T>, z: T, lt: (T, T) -> bool)
    requires StrictWeakOrder(lt)
    ensures Keep(Insert(x, s, lt), Ties(z, lt)) == Keep([x] + s, Ties(z, lt))
  {
    if s != [] && lt(s[0], x) {
      InsertClass(x, s[1..], z, lt);
      assert !(Ties(z, lt)(s[0]) && Ties(z, lt)(x));
      assert ([x] + s)[1..] == s && ([x] + s[1..])[1..] == s[1..];
    }
  }

  lemma {:induction false} SortedByClass<T(!new)>(s: seq<T>, lt: (T, T) -> bool)
    requires StrictWeakOrder(lt)
    ensures Sorted(SortStable(s, lt), lt)
    ensures SameClasses(SortStable(s, lt), s, lt)
  {
    if s != [] {
      var r := SortStable(s[1..], lt);
      SortedByClass(s[1..], lt);
      InsertSorted(s[0], r, lt);
      forall z ensures Keep(SortStable(s, lt), Ties(z, lt)) == Keep(s, Ties(z, lt)) {
        InsertClass(s[0], r, z, lt);
        assert ([s[0]] + r)[1..] == r;
      }
    }
  }

  /** Two sorted sequences that agree class by class are equal. */
  lemma {:induction false} SortedUnique<T(!new)>(s: seq<T>, t: seq<T>, lt: (T, T) -> bool)
    requires StrictWeakOrder(lt)
    requires Sorted(s, lt) && Sorted(t, lt) && SameClasses(s, t, lt)
    ensures s == t
  {
    assert t != [] ==> t[0] in Keep(t, Ties(t[0], lt)) && t[0] in Keep(s, Ties(t[0], lt));
    if s != [] {
      var x := s[0];
      assert x in Keep(t, Ties(x, lt));
      var j :| 0 <= j < |t| && t[j] == x;
      var y := t[0];
      assert y in Keep(s, Ties(y, lt));
      var i :| 0 <= i < |s| && s[i] == y;
      assert !lt(y, x) && !lt(x, y);
      assert Keep(s, Ties(x, lt))[0] == x && Keep(t, Ties(x, lt))[0] == y;
      assert x == y;
      forall z ensures Keep(s[1..], Ties(z, lt)) == Keep(t[1..], Ties(z, lt)) {
        var p := Ties(z, lt);
        assert Keep(s, p) == Keep(t, p);
        assert p(x) ==> Keep(s, p)[1..] == Keep(s[1..], p) && Keep(t, p)[1..] == Keep(t[1..], p);
      }
      SortedUnique(s[1..], t[1..], lt);
    }
  }

  /** Whatever a stable sort returns, it is `SortStable`. */
  lemma {:induction false} StableSortUnique<T(!new)>(s: seq<T>, r: seq<T>, lt: (T, T) -> bool)
    requires StrictWeakOrder(lt)
    ensures Sorted(r, lt) && SameClasses(r, s, lt) <==> r == SortStable(s, lt)
  {
    SortedByClass(s, lt);
    if Sorted(r, lt) && SameClasses(r, s, lt) {
      forall x ensures Keep(r, Ties(x, lt)) == Keep(SortStable(s, lt), Ties(x, lt)) {
        assert Keep(SortStable(s, lt), Ties(x, lt)) == Keep(s, Ties(x, lt));
      }
      SortedUnique(r, SortStable(s, lt), lt);
    }
  }

  lemma {:induction false} KeepSorted<T(!new)>(s: seq<T>, p: T -> bool, lt: (T, T) -> bool)
    requires Sorted(s, lt)
    ensures Sorted(Keep(s, p), lt)
  {
    if s != [] {
      KeepSorted(s[1..], p, lt);
      forall y | y in Keep(s[1..], p) ensures !lt(y, s[0]) {
        var j :| 0 <= j < |s[1..]| && s[1..][j] == y;
        assert s[j + 1] == y;
      }
    }
  }

  /** Filtering commutes with stable sorting. */
  lemma {:induction false} KeepSort<T(!new)>(s: seq<T>, p: T -> bool, lt: (T, T) -> bool)
    requires StrictWeakOrder(lt)
    ensures Keep(SortStable(s, lt), p) == SortStable(Keep(s, p), lt)
  {
    var r := SortStable(s, lt);
    SortedByClass(s, lt);
    KeepSorted(r, p, lt);
    forall x ensures Keep(Keep(r, p), Ties(x, lt)) == Keep(Keep(s, p), Ties(x, lt)) {
      KeepSwap(r, p, Ties(x, lt));
      KeepSwap(s, p, Ties(x, lt));
      assert Keep(r, Ties(x, lt)) == Keep(s, Ties(x, lt));
    }
    StableSortUnique(Keep(s, p), Keep(r, p), lt);
  }

  lemma {:induction false} InsertMultiset<T(!new)>(x: T, s: seq<T>, lt: (T, T) -> bool)
    ensures multiset(Insert(x, s, lt)) == multiset{x} + multiset(s)
  {
    if s != [] && lt(s[0], x) {
      InsertMultiset(x, s[1..], lt);
      assert s == [s[0]] + s[1..];
    }
  }

  /** Sorting neither adds nor drops. */
  lemma {:induction false} SortMultiset<T(!new)>(s: seq<T>, lt: (T, T) -> bool)
    ensures multiset(SortStable(s, lt)) == multiset(s)
  {
    if s != [] {
      SortMultiset(s[1..], lt);
      InsertMultiset(s[0], SortStable(s[1..], lt), lt);
      assert s == [s[0]] + s[1..];
    }
  }
}
