/**
 app/reflection/traits_compile.py: merging a new reflection into an agent's stored
 traits. Descriptors accumulate; evidence ids accumulate newest first, capped.
 */
module Traits {
  import opened Common
  import opened OrderedSets

  const EVIDENCE_CAP: nat := 50

  /** The traits dictionary. An agent without traits has no summary and empty lists. */
  datatype StoredTraits = StoredTraits(
    summary: Option<string>, descriptors: seq<string>, evidence: seq<string>)

  /** A reflection's validated output. */
  datatype TraitsCompiled = TraitsCompiled(
    summary: string, descriptors: seq<string>, evidence: seq<string>)

  function Merged(existing: StoredTraits, batch: TraitsCompiled): StoredTraits {
    StoredTraits(
      Some(batch.summary),
      Dedup(existing.descriptors + batch.descriptors),
      Take(Dedup(batch.evidence + existing.evidence), EVIDENCE_CAP))
  }

  /** app/reflection/traits_compile.py:20-55, both "seen set" loops. */
  method MergeTraits(existing: StoredTraits, batch: TraitsCompiled) returns (r: StoredTraits)
    ensures r == Merged(existing, batch)
  {
    var all := existing.descriptors + batch.descriptors;
    var merged := CollectUnseen(all);
    var combined := batch.evidence + existing.evidence;
    var deduped := CollectUnseen(combined);
    var capped := if |deduped| <= EVIDENCE_CAP then deduped else deduped[..EVIDENCE_CAP];
    r := StoredTraits(Some(batch.summary), merged, capped);
  }

  /** The loop both lists share: append an element unless it was seen before. */
  method CollectUnseen(items: seq<string>) returns (r: seq<string>)
    ensures r == Dedup(items)
  {
    var seen: set<string> := {};
    r := [];
    for i := 0 to |items|
      invariant seen == Elements(items[..i])
      invariant r == Dedup(items[..i])
    {
      DedupSnoc(items[..i], items[i]);
      assert items[..i + 1] == items[..i] + [items[i]];
      if items[i] !in seen {
        r := r + [items[i]];
        seen := seen + {items[i]};
      }
    }
    assert items[..|items|] == items;
  }

  // ---- what a history of merges leaves ----

  function MergedAll(t: StoredTraits, batches: seq<TraitsCompiled>): StoredTraits {
    if batches == [] then t
    else Merged(MergedAll(t, batches[..|batches| - 1]), batches[|batches| - 1])
  }

  /** All evidence lists concatenated, the latest batch first, `base` at the end. */
  ghost function NewestFirst(batches: seq<TraitsCompiled>, base: seq<string>): seq<string> {
    if batches == [] then base
    else batches[|batches| - 1].evidence + NewestFirst(batches[..|batches| - 1], base)
  }

  /** All descriptor lists concatenated after `base`, the earliest batch first. */
  ghost function OldestFirst(base: seq<string>, batches: seq<TraitsCompiled>): seq<string> {
    if batches == [] then base
    else OldestFirst(base, batches[..|batches| - 1]) + batches[|batches| - 1].descriptors
  }

  lemma TakeAcross<T>(p: seq<T>, q: seq<T>, k: nat)
    requires |p| <= k
    ensures Take(p + q, k) == p + Take(q, k - |p|)
  {
  }

  /** What lies beyond the cut does not show. */
  lemma CutRight<T>(x: seq<T>, y: seq<T>, front: seq<T>, a: seq<T>, b: seq<T>, k: nat)
    requires x == front + a && y == front + b
    requires |front| < k ==> Take(a, k - |front|) == Take(b, k - |front|)
    ensures Take(x, k) == Take(y, k)
  {
    if |front| < k {
      TakeAcross(front, a, k);
      TakeAcross(front, b, k);
    } else {
      TakePrefix(front, a, k);
      TakePrefix(front, b, k);
    }
  }

  /** Capping the older part early is invisible after the final cap. */
  lemma CapEarly(newer: seq<string>, older: seq<string>, k: nat)
    ensures Take(Dedup(newer + Take(Dedup(older), k)), k) == Take(Dedup(newer + older), k)
  {
    var kept, seen := Take(Dedup(older), k), Elements(newer);
    DedupConcat(newer, kept);
    DedupConcat(newer, older);
    DedupCount(newer);
    if |seen| < k {
      FillCap(older, seen, k);
    }
    CutRight(Dedup(newer + kept), Dedup(newer + older), Dedup(newer), Fresh(kept, seen), Fresh(older, seen), k);
  }

  /** After the elements of `seen`, the rest of the cap is filled alike. */
  lemma FillCap(older: seq<string>, seen: set<string>, k: nat)
    requires |seen| < k
    ensures var left := k - |seen|;
            Take(Fresh(Take(Dedup(older), k), seen), left) == Take(Fresh(older, seen), left)
  {
    var kept := Dedup(older);
    assert Distinct(kept) by {
      FreshIsDistinct(older, {});
    }
    assert Fresh(kept, seen) == Fresh(older, seen) by {
      FreshOfFresh(older, {}, seen);
    }
    TakeOfFresh(kept, seen, k, k - |seen|);
  }

  lemma DedupCount(s: seq<string>)
    ensures |Dedup(s)| == |Elements(s)|
  {
    FreshIsDistinct(s, {});
    DistinctCount(Dedup(s));
    assert Elements(Dedup(s)) == Elements(s);
  }

  /** Any history of merges is one deduplication of all batches, newest first, and one cap. */
  lemma {:induction false} HistoryOfEvidence(t: StoredTraits, batches: seq<TraitsCompiled>)
    requires batches != []
    ensures MergedAll(t, batches).evidence
         == Take(Dedup(NewestFirst(batches, t.evidence)), EVIDENCE_CAP)
    decreases |batches|
  {
    var front, last := batches[..|batches| - 1], batches[|batches| - 1];
    if front != [] {
      HistoryOfEvidence(t, front);
      CapEarly(last.evidence, NewestFirst(front, t.evidence), EVIDENCE_CAP);
    }
  }

  /** Descriptors keep their first appearance; the summary is the last one. */
  lemma {:induction false} HistoryOfDescriptors(t: StoredTraits, batches: seq<TraitsCompiled>)
    requires batches != []
    ensures MergedAll(t, batches).descriptors == Dedup(OldestFirst(t.descriptors, batches))
    ensures MergedAll(t, batches).summary == Some(batches[|batches| - 1].summary)
    decreases |batches|
  {
    var front, last := batches[..|batches| - 1], batches[|batches| - 1];
    if front != [] {
      HistoryOfDescriptors(t, front);
      DedupFirst(OldestFirst(t.descriptors, front), last.descriptors);
    }
  }

  lemma DedupFirst(a: seq<string>, b: seq<string>)
    ensures Dedup(Dedup(a) + b) == Dedup(a + b)
  {
    DedupConcat(Dedup(a), b);
    DedupConcat(a, b);
    FreshIsDistinct(a, {});
    DedupOfDistinct(Dedup(a));
    assert Elements(Dedup(a)) == Elements(a);
  }

  lemma {:induction false} FreshOfSeen(s: seq<string>, seen: set<string>)
    requires Elements(s) <= seen
    ensures Fresh(s, seen) == []
    decreases |s|
  {
    if s != [] {
      assert s[0] in Elements(s);
      FreshOfSeen(s[1..], seen);
    }
  }

  lemma AppendSeen(s: seq<string>, b: seq<string>)
    requires Elements(b) <= Elements(s)
    ensures Dedup(s + b) == Dedup(s)
  {
    DedupConcat(s, b);
    FreshOfSeen(b, Elements(s));
  }

  lemma RepeatedFront(a: seq<string>, b: seq<string>)
    ensures Dedup(a + (a + b)) == Dedup(a + b)
  {
    AppendSeen(a, a);
    assert a + (a + b) == (a + a) + b;
    DedupConcat(a + a, b);
    DedupConcat(a, b);
    assert Elements(a + a) == Elements(a);
  }

  /** Merging the same reflection twice is merging it once. */
  lemma MergeTwiceIsOnce(t: StoredTraits, b: TraitsCompiled)
    ensures Merged(Merged(t, b), b) == Merged(t, b)
  {
    var ds := t.descriptors + b.descriptors;
    DedupFirst(ds, b.descriptors);
    AppendSeen(ds, b.descriptors);
    CapEarly(b.evidence, b.evidence + t.evidence, EVIDENCE_CAP);
    RepeatedFront(b.evidence, t.evidence);
  }
}
