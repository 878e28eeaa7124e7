/** Order-preserving deduplication of candidate slots. A slot holds a value
    or is empty; the result lists each value once, at the place of its first
    occurrence, and leaves empty slots out. */
module Deduplication {
  import opened Options

  /** No element occurs twice. */
  predicate Distinct<T(==)>(s: seq<T>)
  {
    forall i, j | 0 <= i < j < |s| :: s[i] != s[j]
  }

  /** In `xs`, some occurrence of `a` precedes every occurrence of `b`. */
  predicate Before<T(==)>(xs: seq<T>, a: T, b: T)
  {
    forall q | 0 <= q < |xs| && xs[q] == b :: a in xs[..q]
  }

  /** The values of the slots, first occurrences only, in slot order: the
      list the engine builds by walking the slots and appending each
      non-empty value not already appended. */
  function Dedup<T(==)>(xs: seq<Option<T>>): (r: seq<T>)
    ensures |r| <= |xs|
  {
    if |xs| == 0 then []
    else
      var r := Dedup(xs[..|xs| - 1]);
      var x := xs[|xs| - 1];
      if x.Some? && x.value !in r then r + [x.value] else r
  }

  /** The loop that builds the deduplicated list, one slot at a time, agrees
      with `Dedup`. */
  method DedupInOrder<T(==)>(xs: seq<Option<T>>) returns (r: seq<T>)
    ensures r == Dedup(xs)
  {
    r := [];
    for i := 0 to |xs|
      invariant r == Dedup(xs[..i])
    {
      assert xs[..i + 1][..i] == xs[..i];
      if xs[i].Some? && xs[i].value !in r {
        r := r + [xs[i].value];
      }
    }
    assert xs[..|xs|] == xs;
  }

  /** A value is in the result exactly when some slot holds it. */
  lemma {:induction false} DedupMembers<T>(xs: seq<Option<T>>)
    ensures forall v :: v in Dedup(xs) <==> Some(v) in xs
  {
    if |xs| > 0 {
      var p := xs[..|xs| - 1];
      DedupMembers(p);
      assert xs == p + [xs[|xs| - 1]];
    }
  }

  /** The result has no duplicates. */
  lemma {:induction false} DedupDistinct<T>(xs: seq<Option<T>>)
    ensures Distinct(Dedup(xs))
  {
    if |xs| > 0 {
      DedupDistinct(xs[..|xs| - 1]);
    }
  }

  lemma HeadIsMember<T>(r: seq<T>)
    requires |r| > 0
    ensures r[0] in r
  {
  }

  /** Appending a slot keeps an ordering fact about values already seen. */
  lemma BeforeExtend<T>(p: seq<T>, x: T, a: T, b: T)
    requires Before(p, a, b) && a in p
    ensures Before(p + [x], a, b)
  {
    var xs := p + [x];
    forall q | 0 <= q < |xs| && xs[q] == b
      ensures a in xs[..q]
    {
      if q < |p| {
        assert xs[..q] == p[..q];
      } else {
        assert xs[..q] == p;
      }
    }
  }

  /** The result lists values in the order of their first occurrences: an
      earlier value of the result occurs in the slots before any occurrence
      of a later one. */
  lemma {:induction false} DedupOrder<T>(xs: seq<Option<T>>)
    ensures forall i, j | 0 <= i < j < |Dedup(xs)| :: Before(xs, Some(Dedup(xs)[i]), Some(Dedup(xs)[j]))
  {
    if |xs| > 0 {
      var p, x := xs[..|xs| - 1], xs[|xs| - 1];
      assert xs == p + [x];
      var r, d := Dedup(p), Dedup(xs);
      DedupOrder(p);
      DedupMembers(p);
      forall i, j | 0 <= i < j < |d|
        ensures Before(xs, Some(d[i]), Some(d[j]))
      {
        assert d[i] == r[i] && r[i] in r;
        if j < |r| {
          assert d[j] == r[j];
          assert Before(p, Some(r[i]), Some(r[j]));
        } else {
          assert Some(d[j]) !in p;
          forall q | 0 <= q < |p| ensures p[q] != Some(d[j]) {
            assert p[q] in p;
          }
          assert Before(p, Some(d[i]), Some(d[j]));
        }
        BeforeExtend(p, x, Some(d[i]), Some(d[j]));
      }
    }
  }

  /** An ordering fact about the slots holds of every prefix of them. */
  lemma BeforeRestrict<T>(xs: seq<T>, m: nat, a: T, b: T)
    requires m <= |xs| && Before(xs, a, b)
    ensures Before(xs[..m], a, b)
  {
    forall q | 0 <= q < m && xs[..m][q] == b
      ensures a in xs[..m][..q]
    {
      assert xs[..m][..q] == xs[..q];
    }
  }

  /** The three facts above pin the result down: a list without duplicates
      that holds exactly the values of the slots, in order of first
      occurrence, is the deduplicated list. */
  lemma {:induction false} DedupUnique<T>(xs: seq<Option<T>>, r: seq<T>)
    requires Distinct(r)
    requires forall v :: v in r <==> Some(v) in xs
    requires forall i, j | 0 <= i < j < |r| :: Before(xs, Some(r[i]), Some(r[j]))
    ensures r == Dedup(xs)
  {
    if |xs| == 0 {
      if |r| > 0 {
        HeadIsMember(r);
        assert false;
      }
    } else {
      var n := |xs| - 1;
      var p, x := xs[..n], xs[n];
      assert xs == p + [x];
      DedupMembers(p);
      if x.Some? && Some(x.value) !in p {
        var v := x.value;
        assert v in r;
        var k :| 0 <= k < |r| && r[k] == v;
        var last := |r| - 1;
        assert r[last] in r;
        if k < last {
          assert false;
        }
        var r' := r[..last];
        assert r == r' + [v];
        forall u ensures u in r' <==> Some(u) in p {
          if u in r' {
            assert u in r && u != v;
            assert Some(u) in xs;
          }
          if Some(u) in p {
            assert Some(u) in xs && u != v;
            assert u in r;
          }
        }
        forall i, j | 0 <= i < j < |r'|
          ensures Before(p, Some(r'[i]), Some(r'[j]))
        {
          assert r'[i] == r[i] && r'[j] == r[j];
          BeforeRestrict(xs, n, Some(r[i]), Some(r[j]));
        }
        DedupUnique(p, r');
      } else {
        forall u ensures u in r <==> Some(u) in p {
          if u in r {
            assert Some(u) in xs;
          }
        }
        forall i, j | 0 <= i < j < |r|
          ensures Before(p, Some(r[i]), Some(r[j]))
        {
          BeforeRestrict(xs, n, Some(r[i]), Some(r[j]));
        }
        DedupUnique(p, r);
      }
    }
  }

  /** Deduplicating a prefix of the slots gives a prefix of the result. */
  lemma {:induction false} DedupPrefix<T>(xs: seq<Option<T>>, k: nat)
    requires k <= |xs|
    ensures |Dedup(xs[..k])| <= |Dedup(xs)| && Dedup(xs[..k]) == Dedup(xs)[..|Dedup(xs[..k])|]
    decreases |xs|
  {
    if k < |xs| {
      var p := xs[..|xs| - 1];
      assert p[..k] == xs[..k];
      DedupPrefix(p, k);
    } else {
      assert xs[..k] == xs;
    }
  }

  /** Empty slots at the end change nothing. */
  lemma {:induction false} DedupEmptyTail<T>(xs: seq<Option<T>>, k: nat)
    requires k <= |xs|
    requires forall i | k <= i < |xs| :: xs[i].None?
    ensures Dedup(xs) == Dedup(xs[..k])
    decreases |xs|
  {
    if k < |xs| {
      var p := xs[..|xs| - 1];
      assert p[..k] == xs[..k];
      DedupEmptyTail(p, k);
    } else {
      assert xs[..k] == xs;
    }
  }

  /** Slots that are all filled with distinct values deduplicate to exactly
      those values. */
  lemma {:induction false} DedupOfDistinct<T>(xs: seq<Option<T>>, vs: seq<T>)
    requires |xs| == |vs| && Distinct(vs)
    requires forall i | 0 <= i < |xs| :: xs[i] == Some(vs[i])
    ensures Dedup(xs) == vs
  {
    if |xs| > 0 {
      var n := |xs| - 1;
      DedupOfDistinct(xs[..n], vs[..n]);
      assert vs[n] !in vs[..n];
      assert vs == vs[..n] + [vs[n]];
    }
  }

  /** The first slot, when filled, is the first value of the result. */
  lemma DedupHead<T>(xs: seq<Option<T>>)
    requires |xs| > 0 && xs[0].Some?
    ensures |Dedup(xs)| > 0 && Dedup(xs)[0] == xs[0].value
  {
    DedupOfDistinct(xs[..1], [xs[0].value]);
    DedupPrefix(xs, 1);
  }
}
