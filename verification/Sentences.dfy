/**
 app/narrative/sentences.py: the sentences of an answer that carry a given marker,
 joined, as the claim handed to the grounding judge.
 */
module Sentences {
  import opened Common
  import Citations

  /** What `\s` matches in a Python text pattern. */
  predicate IsSpace(c: char) {
    || '\U{0009}' <= c <= '\U{000D}' || '\U{001C}' <= c <= '\U{0020}'
    || c == '\U{0085}' || c == '\U{00A0}' || c == '\U{1680}'
    || '\U{2000}' <= c <= '\U{200A}' || c == '\U{2028}' || c == '\U{2029}'
    || c == '\U{202F}' || c == '\U{205F}' || c == '\U{3000}'
  }

  predicate EndsSentence(c: char) {
    c == '.' || c == '!' || c == '?'
  }

  /** The first white space at or after `i` that directly follows a sentence end. */
  function Boundary(text: string, i: nat): (b: nat)
    requires 0 < i
    ensures b >= i || b >= |text|
    ensures b < |text| ==> b > 0 && EndsSentence(text[b - 1]) && IsSpace(text[b])
    ensures forall k :: i <= k < b && k < |text| ==> !(EndsSentence(text[k - 1]) && IsSpace(text[k]))
    decreases |text| - i
  {
    if i >= |text| then i
    else if EndsSentence(text[i - 1]) && IsSpace(text[i]) then i
    else Boundary(text, i + 1)
  }

  /** The end of the white space run that starts at `i`. */
  function RunEnd(text: string, i: nat): (j: nat)
    requires i <= |text|
    ensures i <= j <= |text|
    ensures forall k :: i <= k < j ==> IsSpace(text[k])
    ensures i < |text| && IsSpace(text[i]) ==> j > i
    ensures j < |text| ==> !IsSpace(text[j])
    decreases |text| - i
  {
    if i < |text| && IsSpace(text[i]) then RunEnd(text, i + 1) else i
  }

  /** Splitting at every white space run that follows ".", "!" or "?". */
  function Split(text: string): (r: seq<string>)
    decreases |text|
  {
    var i := Boundary(text, 1);
    if i >= |text| then [text]
    else [text[..i]] + Split(text[RunEnd(text, i)..])
  }

  /** Python's `m in s`. */
  predicate Contains(s: string, m: string) {
    |s| >= |m| && (m <= s || (s != "" && Contains(s[1..], m)))
  }

  function Matched(sentences: seq<string>, m: string): seq<string> {
    if sentences == [] then []
    else if Contains(sentences[0], m) then [sentences[0]] + Matched(sentences[1..], m)
    else Matched(sentences[1..], m)
  }

  /** `" ".join(parts)`. */
  function Join(parts: seq<string>): string {
    if parts == [] then ""
    else if |parts| == 1 then parts[0]
    else parts[0] + ([' '] + Join(parts[1..]))
  }

  function ExtractSentenceForMarker(text: string, marker: string): Option<string> {
    if !Contains(text, marker) then None
    else
      var matched := Matched(Split(text), marker);
      if matched == [] then Some(text) else Some(Join(matched))
  }

  // ---- no occurrence is lost or invented ----

  /** How many positions of `s` start an occurrence of `m`. */
  function Occurrences(s: string, m: string): nat {
    if |s| < |m| || s == "" then 0
    else (if m <= s then 1 else 0) + Occurrences(s[1..], m)
  }

  function TotalOccurrences(parts: seq<string>, m: string): nat {
    if parts == [] then 0 else Occurrences(parts[0], m) + TotalOccurrences(parts[1..], m)
  }

  predicate SpaceFree(m: string) {
    m != "" && forall i :: 0 <= i < |m| ==> !IsSpace(m[i])
  }

  lemma {:induction false} ContainsIsOccurring(s: string, m: string)
    requires m != ""
    ensures Contains(s, m) <==> Occurrences(s, m) > 0
    decreases |s|
  {
    if |s| >= |m| {
      ContainsIsOccurring(s[1..], m);
    }
  }

  /** White space cuts: no occurrence of a space-free marker crosses it. */
  lemma {:induction false} OccurrencesAcross(a: string, c: char, b: string, m: string)
    requires SpaceFree(m) && IsSpace(c)
    ensures Occurrences(a + ([c] + b), m) == Occurrences(a, m) + Occurrences(b, m)
    decreases |a|
  {
    var text := a + ([c] + b);
    if a == "" {
      assert text == [c] + b && text[1..] == b;
      PrefixAcross(a, c, b, m);
    } else {
      assert text[1..] == a[1..] + ([c] + b);
      OccurrencesAcross(a[1..], c, b, m);
      PrefixAcross(a, c, b, m);
    }
  }

  lemma PrefixElement(m: string, text: string, k: nat)
    requires m <= text && k < |m|
    ensures m[k] == text[k]
  {
  }

  lemma PrefixAcross(a: string, c: char, b: string, m: string)
    requires SpaceFree(m) && IsSpace(c)
    ensures m <= a + ([c] + b) <==> m <= a
  {
    var text := a + ([c] + b);
    if m <= text && |m| > |a| {
      PrefixElement(m, text, |a|);
    }
    if |m| <= |a| {
      assert text[..|m|] == a[..|m|];
    }
  }

  lemma {:induction false} OccurrencesAfterRun(run: string, b: string, m: string)
    requires SpaceFree(m) && (forall i :: 0 <= i < |run| ==> IsSpace(run[i]))
    ensures Occurrences(run + b, m) == Occurrences(b, m)
    decreases |run|
  {
    if run == "" {
      assert run + b == b;
    } else {
      assert run + b == "" + ([run[0]] + (run[1..] + b));
      OccurrencesAcross("", run[0], run[1..] + b, m);
      OccurrencesAfterRun(run[1..], b, m);
    }
  }

  lemma CutOnce(head: string, c: char, run: string, rest: string, m: string)
    requires SpaceFree(m) && IsSpace(c) && (forall i :: 0 <= i < |run| ==> IsSpace(run[i]))
    ensures Occurrences(head + ([c] + (run + rest)), m) == Occurrences(head, m) + Occurrences(rest, m)
  {
    OccurrencesAcross(head, c, run + rest, m);
    OccurrencesAfterRun(run, rest, m);
  }

  lemma TotalCons(head: string, rest: seq<string>, m: string)
    ensures TotalOccurrences([head] + rest, m) == Occurrences(head, m) + TotalOccurrences(rest, m)
  {
  }

  lemma {:induction false} SplitKeepsOccurrences(text: string, m: string)
    requires SpaceFree(m)
    ensures TotalOccurrences(Split(text), m) == Occurrences(text, m)
    decreases |text|
  {
    var i := Boundary(text, 1);
    if i < |text| {
      var j := RunEnd(text, i);
      var head, run, rest := text[..i], text[i + 1..j], text[j..];
      assert text == head + ([text[i]] + (run + rest));
      CutOnce(head, text[i], run, rest, m);
      SplitKeepsOccurrences(rest, m);
      TotalCons(head, Split(rest), m);
    } else {
      TotalCons(text, [], m);
      assert [text] + [] == [text];
    }
  }

  lemma {:induction false} MatchedKeepsOccurrences(parts: seq<string>, m: string)
    requires m != ""
    ensures TotalOccurrences(Matched(parts, m), m) == TotalOccurrences(parts, m)
    decreases |parts|
  {
    if parts != [] {
      ContainsIsOccurring(parts[0], m);
      MatchedKeepsOccurrences(parts[1..], m);
      if Contains(parts[0], m) {
        assert Matched(parts, m)[1..] == Matched(parts[1..], m);
      }
    }
  }

  lemma {:induction false} JoinKeepsOccurrences(parts: seq<string>, m: string)
    requires SpaceFree(m)
    ensures Occurrences(Join(parts), m) == TotalOccurrences(parts, m)
    decreases |parts|
  {
    if |parts| == 1 {
      assert parts[1..] == [];
    } else if |parts| > 1 {
      OccurrencesAcross(parts[0], ' ', Join(parts[1..]), m);
      JoinKeepsOccurrences(parts[1..], m);
    }
  }

  /**
   For a space-free marker the selected sentences carry exactly as many occurrences as
   the text; in particular some sentence is selected whenever the marker occurs, so the
   "not found after splitting" branch is never taken.
   */
  lemma SelectionKeepsEveryOccurrence(text: string, m: string)
    requires SpaceFree(m)
    ensures ExtractSentenceForMarker(text, m).Some? <==> Contains(text, m)
    ensures Contains(text, m) ==> Matched(Split(text), m) != []
    ensures Contains(text, m) ==>
              Occurrences(ExtractSentenceForMarker(text, m).value, m) == Occurrences(text, m)
  {
    SplitKeepsOccurrences(text, m);
    MatchedKeepsOccurrences(Split(text), m);
    JoinKeepsOccurrences(Matched(Split(text), m), m);
    ContainsIsOccurring(text, m);
  }

  // ---- which pieces ----

  predicate HasInnerBoundary(s: string) {
    exists k :: 0 < k < |s| && EndsSentence(s[k - 1]) && IsSpace(s[k])
  }

  /** The white space runs that splitting removes. */
  function Separators(text: string): (r: seq<string>)
    decreases |text|
  {
    var i := Boundary(text, 1);
    if i >= |text| then [] else [text[i..RunEnd(text, i)]] + Separators(text[RunEnd(text, i)..])
  }

  /** The pieces with a separator between each two of them. */
  function Weave(pieces: seq<string>, separators: seq<string>): string
    requires |pieces| == |separators| + 1
  {
    if separators == [] then pieces[0] else pieces[0] + (separators[0] + Weave(pieces[1..], separators[1..]))
  }

  predicate IsRun(s: string) {
    s != "" && forall i :: 0 <= i < |s| ==> IsSpace(s[i])
  }

  /** `separator` is a whole white space run between a sentence end and what follows it. */
  predicate Cuts(before: string, separator: string, after: string) {
    && IsRun(separator) && before != "" && EndsSentence(before[|before| - 1])
    && (after == "" || !IsSpace(after[0]))
  }

  /** The text cut at every white space run that directly follows ".", "!" or "?", and nowhere else. */
  ghost predicate IsSplit(text: string, pieces: seq<string>, separators: seq<string>) {
    && |pieces| == |separators| + 1 && Weave(pieces, separators) == text
    && (forall k :: 0 <= k < |separators| ==> Cuts(pieces[k], separators[k], pieces[k + 1]))
    && (forall k :: 0 <= k < |pieces| ==> !HasInnerBoundary(pieces[k]))
  }

  /** The text, cut once behind a single sentence. */
  predicate IsCut(text: string, head: string, run: string, rest: string) {
    text == head + (run + rest) && !HasInnerBoundary(head) && Cuts(head, run, rest)
  }

  predicate StartsLike(piece: string, text: string) {
    if text == "" then piece == "" else piece != "" && piece[0] == text[0]
  }

  lemma {:induction false} SplitCuts(text: string)
    ensures IsSplit(text, Split(text), Separators(text)) && StartsLike(Split(text)[0], text)
    decreases |text|
  {
    var i := Boundary(text, 1);
    if i < |text| {
      var j := RunEnd(text, i);
      SplitCuts(text[j..]);
      HeadIsCut(text, i, j);
      OneMoreCut(text, text[..i], text[i..j], text[j..], Split(text[j..]), Separators(text[j..]));
    } else {
      Uncut(text);
    }
  }

  lemma Uncut(text: string)
    requires Boundary(text, 1) >= |text|
    ensures IsSplit(text, Split(text), Separators(text)) && StartsLike(Split(text)[0], text)
  {
    assert !HasInnerBoundary(text);
  }

  lemma OneMoreCut(text: string, head: string, run: string, rest: string,
                   pieces: seq<string>, separators: seq<string>)
    requires IsCut(text, head, run, rest)
    requires IsSplit(rest, pieces, separators) && pieces == Split(rest) && separators == Separators(rest)
    requires StartsLike(pieces[0], rest)
    ensures IsSplit(text, Split(text), Separators(text)) && StartsLike(Split(text)[0], text)
  {
    WeaveCons(text, head, run, rest, pieces, separators);
    CutSplit(text, head, run, rest);
  }

  lemma HeadIsCut(text: string, i: nat, j: nat)
    requires i == Boundary(text, 1) < |text| && j == RunEnd(text, i)
    ensures IsCut(text, text[..i], text[i..j], text[j..])
  {
    RunIsCut(text, i, j);
    Reassembled(text, i, j);
  }

  lemma RunIsCut(text: string, i: nat, j: nat)
    requires i == Boundary(text, 1) < |text| && j == RunEnd(text, i)
    ensures !HasInnerBoundary(text[..i]) && Cuts(text[..i], text[i..j], text[j..])
  {
  }

  lemma Reassembled(text: string, i: nat, j: nat)
    requires i <= j <= |text|
    ensures text == text[..i] + (text[i..j] + text[j..])
  {
  }

  lemma WeaveCons(text: string, head: string, run: string, rest: string, pieces: seq<string>, separators: seq<string>)
    requires IsCut(text, head, run, rest) && IsSplit(rest, pieces, separators) && StartsLike(pieces[0], rest)
    ensures IsSplit(text, [head] + pieces, [run] + separators) && StartsLike(head, text)
  {
    var p, q := [head] + pieces, [run] + separators;
    assert p[1..] == pieces && q[1..] == separators;
    forall k | 0 <= k < |q|
      ensures Cuts(p[k], q[k], p[k + 1])
    {
      if k > 0 {
        assert Cuts(pieces[k - 1], separators[k - 1], pieces[k]);
      }
    }
  }

  /** The first cut of a split text is its first boundary, and the run there is removed whole. */
  lemma FirstCut(text: string, head: string, run: string, rest: string)
    requires IsCut(text, head, run, rest)
    ensures Boundary(text, 1) == |head| && RunEnd(text, |head|) == |head| + |run|
  {
    assert text[|head| - 1] == head[|head| - 1] && text[|head|] == run[0];
    forall k | 0 < k < |head|
      ensures !(EndsSentence(text[k - 1]) && IsSpace(text[k]))
    {
      assert text[k - 1] == head[k - 1] && text[k] == head[k];
    }
    forall k | |head| <= k < |head| + |run|
      ensures IsSpace(text[k])
    {
      assert text[k] == run[k - |head|];
    }
    assert rest != "" ==> text[|head| + |run|] == rest[0];
  }

  lemma WholeText(text: string)
    requires !HasInnerBoundary(text)
    ensures Split(text) == [text] && Separators(text) == []
  {
  }

  lemma {:induction false} OnlyOneSplit(text: string, pieces: seq<string>, separators: seq<string>)
    requires IsSplit(text, pieces, separators)
    ensures pieces == Split(text) && separators == Separators(text) && StartsLike(pieces[0], text)
    decreases |separators|
  {
    if separators == [] {
      WholeText(text);
    } else {
      TailIsSplit(pieces, separators);
      OnlyOneSplit(Weave(pieces[1..], separators[1..]), pieces[1..], separators[1..]);
      OnlyOneHead(text, pieces, separators, Weave(pieces[1..], separators[1..]));
    }
  }

  lemma OnlyOneHead(text: string, pieces: seq<string>, separators: seq<string>, rest: string)
    requires IsSplit(text, pieces, separators) && separators != []
    requires rest == Weave(pieces[1..], separators[1..]) && StartsLike(pieces[1], rest)
    requires pieces[1..] == Split(rest) && separators[1..] == Separators(rest)
    ensures pieces == Split(text) && separators == Separators(text) && StartsLike(pieces[0], text)
  {
    HeadCuts(pieces, separators, rest);
    CutSplit(text, pieces[0], separators[0], rest);
    assert pieces == [pieces[0]] + pieces[1..] && separators == [separators[0]] + separators[1..];
  }

  lemma HeadCuts(pieces: seq<string>, separators: seq<string>, rest: string)
    requires |pieces| == |separators| + 1 && separators != [] && StartsLike(pieces[1], rest)
    requires rest == Weave(pieces[1..], separators[1..])
    requires IsSplit(Weave(pieces, separators), pieces, separators)
    ensures IsCut(Weave(pieces, separators), pieces[0], separators[0], rest)
    ensures StartsLike(pieces[0], Weave(pieces, separators))
  {
    assert Cuts(pieces[0], separators[0], pieces[1]);
  }

  lemma CutSplit(text: string, head: string, run: string, rest: string)
    requires IsCut(text, head, run, rest)
    ensures Split(text) == [head] + Split(rest) && Separators(text) == [run] + Separators(rest)
  {
    FirstCut(text, head, run, rest);
    Slices(text, head, run, rest);
    SplitAt(text, |head|, |head| + |run|);
  }

  lemma Slices(text: string, head: string, run: string, rest: string)
    requires text == head + (run + rest)
    ensures text[..|head|] == head && text[|head|..|head| + |run|] == run && text[|head| + |run|..] == rest
  {
  }

  lemma SplitAt(text: string, i: nat, j: nat)
    requires i == Boundary(text, 1) < |text| && j == RunEnd(text, i)
    ensures Split(text) == [text[..i]] + Split(text[j..])
    ensures Separators(text) == [text[i..j]] + Separators(text[j..])
  {
  }

  lemma TailIsSplit(pieces: seq<string>, separators: seq<string>)
    requires |pieces| == |separators| + 1 && separators != []
    requires IsSplit(Weave(pieces, separators), pieces, separators)
    ensures IsSplit(Weave(pieces[1..], separators[1..]), pieces[1..], separators[1..])
  {
    forall k | 0 <= k < |separators| - 1
      ensures Cuts(pieces[1..][k], separators[1..][k], pieces[1..][k + 1])
    {
      assert Cuts(pieces[k + 1], separators[k + 1], pieces[k + 2]);
    }
  }

  /** Splitting finds the one way to cut the text at exactly these runs. */
  lemma SplitExactly(text: string, pieces: seq<string>, separators: seq<string>)
    ensures IsSplit(text, pieces, separators) <==> pieces == Split(text) && separators == Separators(text)
  {
    SplitCuts(text);
    if IsSplit(text, pieces, separators) {
      OnlyOneSplit(text, pieces, separators);
    }
  }

  // ---- where occurrences are ----

  predicate OccursAt(s: string, m: string, i: nat) {
    i + |m| <= |s| && s[i..i + |m|] == m
  }

  lemma {:induction false} ContainsExactly(s: string, m: string)
    ensures Contains(s, m) <==> exists i :: OccursAt(s, m, i)
    decreases |s|
  {
    assert m <= s <==> OccursAt(s, m, 0);
    if !(m <= s) && s != "" {
      ContainsExactly(s[1..], m);
      forall i: nat
        ensures OccursAt(s, m, i + 1) <==> OccursAt(s[1..], m, i)
      {
        if i + 1 + |m| <= |s| {
          assert s[1..][i..i + |m|] == s[i + 1..i + 1 + |m|];
        }
      }
      forall i: nat | OccursAt(s, m, i)
        ensures i > 0 && OccursAt(s[1..], m, i - 1)
      {
      }
      forall i: nat | OccursAt(s[1..], m, i)
        ensures OccursAt(s, m, i + 1)
      {
      }
    }
  }

  lemma FoundAt(s: string, m: string, i: nat)
    requires OccursAt(s, m, i)
    ensures Contains(s, m)
  {
    ContainsExactly(s, m);
  }

  /** Where piece `k` starts. */
  function StartOf(pieces: seq<string>, separators: seq<string>, k: nat): nat
    requires |pieces| == |separators| + 1 && k < |pieces|
  {
    if k == 0 then 0 else |pieces[0]| + |separators[0]| + StartOf(pieces[1..], separators[1..], k - 1)
  }

  /** Characters `i` to `i + |m|` of the text are within piece `k`. */
  predicate Within(pieces: seq<string>, separators: seq<string>, k: nat, i: nat, m: string)
    requires |pieces| == |separators| + 1 && k < |pieces|
  {
    StartOf(pieces, separators, k) <= i && i + |m| <= StartOf(pieces, separators, k) + |pieces[k]|
  }

  /** Each occurrence of a space-free marker is within one piece. */
  lemma {:induction false} OccurrenceInPiece(pieces: seq<string>, separators: seq<string>, i: nat, m: string)
    returns (k: nat)
    requires |pieces| == |separators| + 1 && forall j :: 0 <= j < |separators| ==> IsRun(separators[j])
    requires SpaceFree(m) && OccursAt(Weave(pieces, separators), m, i)
    ensures k < |pieces| && Within(pieces, separators, k, i, m)
    ensures Contains(pieces[k], m)
    decreases |separators|
  {
    var text := Weave(pieces, separators);
    if separators == [] || i + |m| <= |pieces[0]| {
      k := 0;
      assert pieces[0][i..i + |m|] == m;
      FoundAt(pieces[0], m, i);
    } else {
      var head, run, rest := pieces[0], separators[0], Weave(pieces[1..], separators[1..]);
      assert IsRun(run);
      NotAcross(head, run, rest, i, m);
      var j := OccurrenceInPiece(pieces[1..], separators[1..], i - |head| - |run|, m);
      k := j + 1;
    }
  }

  lemma NotAcross(head: string, run: string, rest: string, i: nat, m: string)
    requires IsRun(run) && SpaceFree(m) && |head| < i + |m| && OccursAt(head + (run + rest), m, i)
    ensures i >= |head| + |run| && OccursAt(rest, m, i - |head| - |run|)
  {
    var text := head + (run + rest);
    var j := if i < |head| then |head| else i;
    assert j < |head| + |run| ==> text[j] == run[j - |head|];
    NoSpaceWithin(text, m, i);
    assert rest[i - |head| - |run|..i - |head| - |run| + |m|] == text[i..i + |m|];
  }

  lemma NoSpaceWithin(text: string, m: string, i: nat)
    requires SpaceFree(m) && OccursAt(text, m, i)
    ensures forall j :: i <= j < i + |m| ==> !IsSpace(text[j])
  {
    forall j | i <= j < i + |m|
      ensures !IsSpace(text[j])
    {
      assert text[j] == text[i..i + |m|][j - i];
    }
  }

  // ---- which pieces are selected ----

  /** `chosen` are the pieces with the marker, each of them once, in the order of the text. */
  ghost predicate IsSelection(parts: seq<string>, m: string, chosen: seq<string>, at: seq<nat>) {
    && |at| == |chosen|
    && (forall k :: 0 <= k < |at| ==> at[k] < |parts| && chosen[k] == parts[at[k]])
    && (forall j, k :: 0 <= j < k < |at| ==> at[j] < at[k])
    && (forall i :: 0 <= i < |parts| ==> (i in at <==> Contains(parts[i], m)))
  }

  function Positions(parts: seq<string>, m: string): seq<nat> {
    if parts == [] then []
    else
      var front, last := Positions(parts[..|parts| - 1], m), |parts| - 1;
      if Contains(parts[last], m) then front + [last] else front
  }

  lemma MatchedSnoc(parts: seq<string>, part: string, m: string)
    ensures Matched(parts + [part], m) == Matched(parts, m) + if Contains(part, m) then [part] else []
  {
    if parts == [] {
      assert parts + [part] == [part] && Matched([], m) == [];
    } else {
      MatchedSnoc(parts[1..], part, m);
      assert (parts + [part])[1..] == parts[1..] + [part];
    }
  }

  lemma {:induction false} MatchedIsASelection(parts: seq<string>, m: string)
    ensures IsSelection(parts, m, Matched(parts, m), Positions(parts, m))
    decreases |parts|
  {
    if parts != [] {
      var front, last := parts[..|parts| - 1], parts[|parts| - 1];
      MatchedIsASelection(front, m);
      MatchedSnoc(front, last, m);
      assert parts == front + [last];
    }
  }

  /** One space between each two of them. */
  function Spaces(n: nat): seq<string> {
    seq(n, _ => [' '])
  }

  lemma {:induction false} JoinIsWeave(parts: seq<string>)
    requires parts != []
    ensures Join(parts) == Weave(parts, Spaces(|parts| - 1))
    decreases |parts|
  {
    if |parts| > 1 {
      JoinIsWeave(parts[1..]);
      assert Spaces(|parts| - 1)[1..] == Spaces(|parts| - 2);
    }
  }

  lemma {:induction false} JoinHoldsEach(parts: seq<string>, k: nat)
    requires k < |parts|
    ensures Contains(Join(parts), parts[k])
    decreases |parts|
  {
    if k == 0 {
      assert Join(parts)[0..0 + |parts[0]|] == parts[0];
      FoundAt(Join(parts), parts[0], 0);
    } else {
      JoinHoldsEach(parts[1..], k - 1);
      ContainsExactly(Join(parts[1..]), parts[k]);
      var i: nat :| OccursAt(Join(parts[1..]), parts[k], i);
      FurtherOn(parts[0], ' ', Join(parts[1..]), parts[k], i);
    }
  }

  lemma FurtherOn(a: string, c: char, b: string, m: string, i: nat)
    requires OccursAt(b, m, i)
    ensures Contains(a + ([c] + b), m)
  {
    var s, d := a + ([c] + b), |a| + 1;
    assert s[i + d..i + d + |m|] == b[i..i + |m|];
    FoundAt(s, m, i + d);
  }

  /** Of the one split of the text: the sentences with the marker, in order, one space between each two. */
  ghost predicate JoinsSentences(text: string, m: string, claim: string) {
    var pieces, chosen := Split(text), Matched(Split(text), m);
    && IsSplit(text, pieces, Separators(text)) && IsSelection(pieces, m, chosen, Positions(pieces, m))
    && chosen != [] && claim == Weave(chosen, Spaces(|chosen| - 1))
  }

  /** For a space-free marker, nothing is handed on exactly when it never occurs. */
  lemma SelectedSentences(text: string, m: string)
    requires SpaceFree(m)
    ensures var r := ExtractSentenceForMarker(text, m);
            if exists i :: OccursAt(text, m, i) then r.Some? && r.value != "" && JoinsSentences(text, m, r.value)
            else r == None
  {
    ContainsExactly(text, m);
    if Contains(text, m) {
      SelectionKeepsEveryOccurrence(text, m);
      ContainsIsOccurring(text, m);
      SplitCuts(text);
      MatchedIsASelection(Split(text), m);
      JoinIsWeave(Matched(Split(text), m));
    }
  }

  /** Around each occurrence of a space-free marker, the whole sentence is handed on. */
  lemma WholeSentenceAround(text: string, m: string, i: nat)
    requires SpaceFree(m) && OccursAt(text, m, i)
    ensures exists k: nat :: k < |Split(text)| && |Split(text)| == |Separators(text)| + 1
              && Within(Split(text), Separators(text), k, i, m)
              && ExtractSentenceForMarker(text, m).Some?
              && Contains(ExtractSentenceForMarker(text, m).value, Split(text)[k])
  {
    var pieces, separators := Split(text), Separators(text);
    SplitCuts(text);
    forall j | 0 <= j < |separators|
      ensures IsRun(separators[j])
    {
      assert Cuts(pieces[j], separators[j], pieces[j + 1]);
    }
    var k := OccurrenceInPiece(pieces, separators, i, m);
    FoundAt(text, m, i);
    SelectionKeepsEveryOccurrence(text, m);
    MatchedIsASelection(pieces, m);
    var n :| 0 <= n < |Positions(pieces, m)| && Positions(pieces, m)[n] == k;
    JoinHoldsEach(Matched(pieces, m), n);
    assert Contains(ExtractSentenceForMarker(text, m).value, pieces[k]);
  }

  /** Printed citation markers are space-free, so the above holds for every citation. */
  lemma MarkersAreSpaceFree(id: string)
    requires Citations.IsShortId(id)
    ensures SpaceFree(Citations.FormatMarker(id))
  {
  }
}
