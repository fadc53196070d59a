/**
 Sequences used as ordered sets: the "seen set plus result list" idiom that the
 citation scanner, the trait merge and the royalty release all rely on.
 */
module OrderedSets {

  predicate Distinct<T(==,!new)>(s: seq<T>) {
    forall i, j :: 0 <= i < j < |s| ==> s[i] != s[j]
  }

  ghost function Elements<T(!new)>(s: seq<T>): set<T> {
    set x | x in s
  }

  /** At most the first `k` elements: Python's `s[:k]` for a non-negative `k`. */
  function Take<T>(s: seq<T>, k: nat): seq<T> {
    if |s| <= k then s else s[..k]
  }

  /** The elements of `s` outside `seen`, in order of first occurrence, without repeats. */
  function Fresh<T(==,!new)>(s: seq<T>, seen: set<T>): (r: seq<T>)
    ensures forall x :: x in r <==> x in s && x !in seen
  {
    if s == [] then []
    else if s[0] in seen then Fresh(s[1..], seen)
    else [s[0]] + Fresh(s[1..], seen + {s[0]})
  }

  /** Python's `list(dict.fromkeys(s))`. */
  function Dedup<T(==,!new)>(s: seq<T>): (r: seq<T>)
    ensures forall x :: x in r <==> x in s
  {
    Fresh(s, {})
  }

  lemma {:induction false} FreshConcat<T(!new)>(a: seq<T>, b: seq<T>, seen: set<T>)
    ensures Fresh(a + b, seen) == Fresh(a, seen) + Fresh(b, seen + Elements(a))
    decreases |a|
  {
    if a == [] {
      assert a + b == b;
      assert seen + Elements(a) == seen;
    } else {
      assert (a + b)[0] == a[0] && (a + b)[1..] == a[1..] + b;
      assert Elements(a) == {a[0]} + Elements(a[1..]);
      if a[0] in seen {
        FreshConcat(a[1..], b, seen);
        assert seen + Elements(a) == seen + Elements(a[1..]);
      } else {
        FreshConcat(a[1..], b, seen + {a[0]});
        assert seen + Elements(a) == seen + {a[0]} + Elements(a[1..]);
      }
    }
  }

  /** The loop step: a seen element adds nothing, a new one goes to the end. */
  lemma DedupSnoc<T(!new)>(s: seq<T>, x: T)
    ensures Dedup(s + [x]) == if x in s then Dedup(s) else Dedup(s) + [x]
  {
    FreshConcat(s, [x], {});
    assert [x][1..] == [];
  }

  lemma DedupConcat<T(!new)>(a: seq<T>, b: seq<T>)
    ensures Dedup(a + b) == Dedup(a) + Fresh(b, Elements(a))
  {
    FreshConcat(a, b, {});
    assert {} + Elements(a) == Elements(a);
  }

  /** Removing repeats first does not change which elements are added. */
  lemma {:induction false} FreshOfFresh<T(!new)>(s: seq<T>, less: set<T>, seen: set<T>)
    requires less <= seen
    ensures Fresh(Fresh(s, less), seen) == Fresh(s, seen)
    decreases |s|
  {
    if s != [] {
      if s[0] in less {
        FreshOfFresh(s[1..], less, seen);
      } else if s[0] in seen {
        FreshOfFresh(s[1..], less + {s[0]}, seen);
      } else {
        FreshOfFresh(s[1..], less + {s[0]}, seen + {s[0]});
      }
    }
  }

  lemma {:induction false} FreshIsDistinct<T(!new)>(s: seq<T>, seen: set<T>)
    ensures Distinct(Fresh(s, seen))
    decreases |s|
  {
    if s != [] {
      if s[0] in seen {
        FreshIsDistinct(s[1..], seen);
      } else {
        FreshIsDistinct(s[1..], seen + {s[0]});
      }
    }
  }

  lemma {:induction false} DistinctCount<T(!new)>(s: seq<T>)
    requires Distinct(s)
    ensures |Elements(s)| == |s|
    decreases |s|
  {
    if s != [] {
      DistinctCount(s[1..]);
      assert Elements(s) == {s[0]} + Elements(s[1..]);
    }
  }

  lemma {:induction false} DedupOfDistinct<T(!new)>(s: seq<T>)
    requires Distinct(s)
    ensures Dedup(s) == s
    decreases |s|
  {
    if s != [] {
      var front, last := s[..|s| - 1], s[|s| - 1];
      DedupOfDistinct(front);
      DedupSnoc(front, last);
      assert front + [last] == s;
    }
  }

  lemma SubsetCount<T>(a: set<T>, b: set<T>)
    requires a <= b
    ensures |a| <= |b|
  {
    if a != {} {
      var x :| x in a;
      SubsetCount(a - {x}, b - {x});
    }
  }

  lemma UnionCount<T>(a: set<T>, b: set<T>)
    ensures |a + b| <= |a| + |b|
  {
  }

  /** Of `|b|` distinct elements at most `|seen|` can have been seen. */
  lemma FreshCount<T(!new)>(b: seq<T>, seen: set<T>)
    requires Distinct(b)
    ensures |b| <= |Fresh(b, seen)| + |seen|
  {
    var added := Fresh(b, seen);
    DistinctCount(b);
    FreshIsDistinct(b, seen);
    DistinctCount(added);
    SubsetCount(Elements(b), Elements(added) + seen);
    UnionCount(Elements(added), seen);
  }

  lemma TakePrefix<T>(p: seq<T>, q: seq<T>, k: nat)
    requires k <= |p|
    ensures Take(p + q, k) == Take(p, k)
  {
  }

  /** The first `wanted` new elements are found within `wanted + |seen|` distinct ones. */
  lemma FirstFresh<T(!new)>(cut: seq<T>, rest: seq<T>, seen: set<T>, wanted: nat)
    requires Distinct(cut) && |seen| + wanted <= |cut|
    ensures Take(Fresh(cut + rest, seen), wanted) == Take(Fresh(cut, seen), wanted)
  {
    FreshCount(cut, seen);
    FreshConcat(cut, rest, seen);
    TakePrefix(Fresh(cut, seen), Fresh(rest, seen + Elements(cut)), wanted);
  }

  /** Cutting the right operand to `k` distinct elements never shows in the first `k`. */
  lemma TakeOfFresh<T(!new)>(b: seq<T>, seen: set<T>, k: nat, wanted: nat)
    requires Distinct(b) && |seen| + wanted <= k
    ensures Take(Fresh(Take(b, k), seen), wanted) == Take(Fresh(b, seen), wanted)
  {
    if |b| > k {
      assert b[..k] + b[k..] == b;
      FirstFresh(b[..k], b[k..], seen, wanted);
    }
  }
}
