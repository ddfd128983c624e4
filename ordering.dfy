/**
 * The final `recommendations.sort((a, b) => a.recommendedSpine - b.recommendedSpine)`
 * (src/lib/calculations.ts:202). The array sort is stable, so the result is the unique
 * arrangement that is ascending by spine, a permutation of the input, and keeps entries
 * of equal spine in their original order. It is stated here as a stable insertion sort.
 */
module SpineOrdering {
  import opened ArcheryTypes

  predicate SortedBySpine(s: seq<ManufacturerRec>) {
    forall i, j :: 0 <= i < j < |s| ==> s[i].recommendedSpine <= s[j].recommendedSpine
  }

  /** The entries of `s` whose spine is `v`, in their order in `s`. */
  function WithSpine(s: seq<ManufacturerRec>, v: real): seq<ManufacturerRec> {
    if s == [] then []
    else (if s[0].recommendedSpine == v then [s[0]] else []) + WithSpine(s[1..], v)
  }

  lemma {:induction false} WithSpineAppend(a: seq<ManufacturerRec>, b: seq<ManufacturerRec>, v: real)
    ensures WithSpine(a + b, v) == WithSpine(a, v) + WithSpine(b, v)
  {
    if a != [] {
      assert (a + b)[1..] == a[1..] + b;
      WithSpineAppend(a[1..], b, v);
    } else {
      assert a + b == b;
    }
  }

  /** A sorted sequence whose first spine is above `v` has no entry of spine `v`. */
  lemma {:induction false} WithSpineAbove(s: seq<ManufacturerRec>, v: real)
    requires SortedBySpine(s)
    requires s != [] ==> v < s[0].recommendedSpine
    ensures WithSpine(s, v) == []
  {
    if |s| > 1 {
      WithSpineAbove(s[1..], v);
    }
  }

  /** Place `x` after every entry whose spine is not above its own. */
  function Insert(x: ManufacturerRec, s: seq<ManufacturerRec>): seq<ManufacturerRec> {
    if s == [] then [x]
    else if x.recommendedSpine < s[0].recommendedSpine then [x] + s
    else [s[0]] + Insert(x, s[1..])
  }

  /** Inserting adds exactly the one entry: the result is a permutation of `s` plus `x`. */
  lemma {:induction false} InsertPermutes(x: ManufacturerRec, s: seq<ManufacturerRec>)
    ensures multiset(Insert(x, s)) == multiset(s) + multiset{x}
  {
    if s != [] && x.recommendedSpine >= s[0].recommendedSpine {
      InsertPermutes(x, s[1..]);
      assert s == [s[0]] + s[1..];
    }
  }

  /** Every entry of `Insert(x, s)` is `x` or an entry of `s`, so a common lower bound survives. */
  lemma InsertLowerBound(x: ManufacturerRec, s: seq<ManufacturerRec>, lo: real)
    requires lo <= x.recommendedSpine
    requires forall k :: 0 <= k < |s| ==> lo <= s[k].recommendedSpine
    ensures forall e :: e in Insert(x, s) ==> lo <= e.recommendedSpine
  {
    InsertPermutes(x, s);
    forall e | e in Insert(x, s) ensures lo <= e.recommendedSpine {
      assert e in multiset(Insert(x, s));
      if e != x {
        assert e in multiset(s);
      }
    }
  }

  /** An entry not above any entry of a sorted sequence can be put in front of it. */
  lemma SortedCons(e: ManufacturerRec, rest: seq<ManufacturerRec>)
    requires SortedBySpine(rest)
    requires forall r :: r in rest ==> e.recommendedSpine <= r.recommendedSpine
    ensures SortedBySpine([e] + rest)
  {
    var r := [e] + rest;
    forall i, j | 0 <= i < j < |r| ensures r[i].recommendedSpine <= r[j].recommendedSpine {
      assert r[j] == rest[j - 1];
      if i > 0 {
        assert r[i] == rest[i - 1];
      }
    }
  }

  /** Inserting into a sorted sequence yields a sorted sequence. */
  lemma {:induction false} InsertSorted(x: ManufacturerRec, s: seq<ManufacturerRec>)
    requires SortedBySpine(s)
    ensures SortedBySpine(Insert(x, s))
  {
    if s == [] {
      assert Insert(x, s) == [x];
    } else if x.recommendedSpine < s[0].recommendedSpine {
      assert Insert(x, s) == [x] + s;
      SortedCons(x, s);
    } else {
      var tail := s[1..];
      assert SortedBySpine(tail);
      InsertSorted(x, tail);
      InsertLowerBound(x, tail, s[0].recommendedSpine);
      assert Insert(x, s) == [s[0]] + Insert(x, tail);
      SortedCons(s[0], Insert(x, tail));
    }
  }

  /** A one-entry sequence keeps its entry exactly when the spine matches. */
  lemma WithSpineSingle(e: ManufacturerRec, v: real)
    ensures WithSpine([e], v) == if e.recommendedSpine == v then [e] else []
  {
    assert [e][1..] == [];
  }

  /** Putting the same head in front of two sequences keeps a relation between their filters. */
  lemma WithSpineConsShift(h: ManufacturerRec, t: seq<ManufacturerRec>, t': seq<ManufacturerRec>,
                           own: seq<ManufacturerRec>, v: real)
    requires WithSpine(t', v) == WithSpine(t, v) + own
    ensures WithSpine([h] + t', v) == WithSpine([h] + t, v) + own
  {
    calc {
      WithSpine([h] + t', v);
      { WithSpineAppend([h], t', v); }
      WithSpine([h], v) + (WithSpine(t, v) + own);
      (WithSpine([h], v) + WithSpine(t, v)) + own;
      { WithSpineAppend([h], t, v); }
      WithSpine([h] + t, v) + own;
    }
  }

  /** The step of `InsertStable` where `x` goes in front of a sequence with no entry of its spine. */
  lemma InsertStableFront(x: ManufacturerRec, s: seq<ManufacturerRec>, v: real)
    requires s != [] && x.recommendedSpine < s[0].recommendedSpine
    requires x.recommendedSpine == v ==> WithSpine(s, v) == []
    ensures WithSpine(Insert(x, s), v) == WithSpine(s, v) + (if x.recommendedSpine == v then [x] else [])
  {
    assert Insert(x, s) == [x] + s;
    WithSpineAppend([x], s, v);
    WithSpineSingle(x, v);
  }

  /** Inserting into a sorted sequence keeps the order among equal spines, `x` last. */
  lemma {:induction false} InsertStable(x: ManufacturerRec, s: seq<ManufacturerRec>, v: real)
    requires SortedBySpine(s)
    ensures WithSpine(Insert(x, s), v) == WithSpine(s, v) + (if x.recommendedSpine == v then [x] else [])
  {
    if s == [] {
      assert Insert(x, s) == [x];
      WithSpineSingle(x, v);
    } else if x.recommendedSpine < s[0].recommendedSpine {
      if x.recommendedSpine == v {
        WithSpineAbove(s, v);
      }
      InsertStableFront(x, s, v);
    } else {
      var tail := s[1..];
      assert SortedBySpine(tail);
      InsertStable(x, tail, v);
      WithSpineConsShift(s[0], tail, Insert(x, tail), if x.recommendedSpine == v then [x] else [], v);
      assert Insert(x, s) == [s[0]] + Insert(x, tail);
      assert s == [s[0]] + tail;
    }
  }

  /** The stable sort by ascending spine, inserting entries in input order. */
  function SortBySpine(s: seq<ManufacturerRec>): seq<ManufacturerRec> {
    if s == [] then [] else Insert(s[|s| - 1], SortBySpine(s[..|s| - 1]))
  }

  /** The sort is a permutation of its input. */
  lemma {:induction false} SortBySpinePermutes(s: seq<ManufacturerRec>)
    ensures multiset(SortBySpine(s)) == multiset(s)
  {
    if s != [] {
      var init, last := s[..|s| - 1], s[|s| - 1];
      SortBySpinePermutes(init);
      InsertPermutes(last, SortBySpine(init));
      assert s == init + [last];
    }
  }

  lemma {:induction false} SortBySpineSorted(s: seq<ManufacturerRec>)
    ensures SortedBySpine(SortBySpine(s))
  {
    if s != [] {
      SortBySpineSorted(s[..|s| - 1]);
      InsertSorted(s[|s| - 1], SortBySpine(s[..|s| - 1]));
    }
  }

  /** The sort is stable: for every spine value, the entries with it keep their order. */
  lemma {:induction false} SortBySpineStable(s: seq<ManufacturerRec>, v: real)
    ensures WithSpine(SortBySpine(s), v) == WithSpine(s, v)
  {
    if s != [] {
      var init, last := s[..|s| - 1], s[|s| - 1];
      assert s == init + [last];
      calc {
        WithSpine(SortBySpine(s), v);
        WithSpine(Insert(last, SortBySpine(init)), v);
        { SortBySpineSorted(init); InsertStable(last, SortBySpine(init), v); }
        WithSpine(SortBySpine(init), v) + (if last.recommendedSpine == v then [last] else []);
        { SortBySpineStable(init, v); }
        WithSpine(init, v) + (if last.recommendedSpine == v then [last] else []);
        { assert [last][1..] == []; }
        WithSpine(init, v) + WithSpine([last], v);
        { WithSpineAppend(init, [last], v); }
        WithSpine(s, v);
      }
    }
  }
}
