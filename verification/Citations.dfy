/**
 app/narrative/citation.py: printing and scanning inline citation markers, an opening
 bracket, an up arrow, "e", eight hex digits and a closing bracket.
 */
module Citations {
  import opened OrderedSets

  const ARROW: char := '\U{2191}'
  const SHORT_ID_LEN: nat := 8
  const MARKER_LEN: nat := 12

  predicate IsHex(c: char) {
    '0' <= c <= '9' || 'a' <= c <= 'f' || 'A' <= c <= 'F'
  }

  predicate IsShortId(id: string) {
    |id| == SHORT_ID_LEN && forall i :: 0 <= i < |id| ==> IsHex(id[i])
  }

  function LowerChar(c: char): char {
    if 'A' <= c <= 'F' then c - 'A' + 'a' else c
  }

  /** `str.lower` on hex digits, the only text it is applied to. */
  function Lower(id: string): (r: string)
    ensures |r| == |id|
  {
    seq(|id|, i requires 0 <= i < |id| => LowerChar(id[i]))
  }

  function LowerAll(ids: seq<string>): (r: seq<string>)
    ensures |r| == |ids|
  {
    seq(|ids|, i requires 0 <= i < |ids| => Lower(ids[i]))
  }

  function Marker(id: string): string {
    ['[', ARROW, 'e'] + id + [']']
  }

  /** The marker of an event id, or of a short id. */
  function FormatMarker(eventId: string): string {
    Marker(Take(eventId, SHORT_ID_LEN))
  }

  /** The pattern matches at position `i`. */
  predicate MarkerAt(text: string, i: nat) {
    && i + MARKER_LEN <= |text|
    && text[i] == '[' && text[i + 1] == ARROW && text[i + 2] == 'e'
    && (forall k :: i + 3 <= k < i + 11 ==> IsHex(text[k]))
    && text[i + 11] == ']'
  }

  /** What `finditer` yields: captured groups of the leftmost non-overlapping matches. */
  function Matches(text: string): seq<string> {
    if |text| < MARKER_LEN then []
    else if MarkerAt(text, 0) then [text[3..11]] + Matches(text[MARKER_LEN..])
    else Matches(text[1..])
  }

  function Extracted(text: string): seq<string> {
    Dedup(LowerAll(Matches(text)))
  }

  /** app/narrative/citation.py:41-59: lower-case each captured id and keep the unseen ones. */
  method ExtractCitations(text: string) returns (result: seq<string>)
    ensures result == Extracted(text)
  {
    var matches := Matches(text);
    var seen: set<string> := {};
    result := [];
    for i := 0 to |matches|
      invariant seen == Elements(LowerAll(matches[..i]))
      invariant result == Dedup(LowerAll(matches[..i]))
    {
      var sid := Lower(matches[i]);
      LowerSnoc(matches, i);
      DedupSnoc(LowerAll(matches[..i]), sid);
      if sid !in seen {
        seen := seen + {sid};
        result := result + [sid];
      }
    }
    assert matches[..|matches|] == matches;
  }

  lemma LowerSnoc(ids: seq<string>, i: nat)
    requires i < |ids|
    ensures LowerAll(ids[..i + 1]) == LowerAll(ids[..i]) + [Lower(ids[i])]
    ensures Elements(LowerAll(ids[..i + 1])) == Elements(LowerAll(ids[..i])) + {Lower(ids[i])}
  {
    assert LowerAll(ids[..i + 1]) == LowerAll(ids[..i]) + [Lower(ids[i])];
  }

  // ---- scanning what was printed ----

  predicate MarkerFree(text: string) {
    forall i :: 0 <= i < |text| ==> !MarkerAt(text, i)
  }

  /** Text pieces with a printed marker between each two of them. */
  ghost function Interleave(pieces: seq<string>, ids: seq<string>): string
    requires |pieces| == |ids| + 1
  {
    if ids == [] then pieces[0]
    else pieces[0] + (Marker(ids[0]) + Interleave(pieces[1..], ids[1..]))
  }

  lemma OpensOnlyInFront(text: string, k: nat)
    requires MarkerAt(text, 0) && 0 < k < MARKER_LEN
    ensures text[k] != '['
  {
  }

  /** No match straddles the end of a piece: a marker has its only "[" in front. */
  lemma NoStraddle(piece: string, rest: string)
    requires piece != "" && MarkerAt(piece + rest, 0)
    requires rest == "" || rest[0] == '['
    ensures MarkerAt(piece, 0)
  {
    var text := piece + rest;
    if |piece| < MARKER_LEN {
      OpensOnlyInFront(text, |piece|);
      assert false;
    }
    forall k | 3 <= k < 11
      ensures IsHex(piece[k])
    {
      assert piece[k] == text[k];
    }
  }

  lemma {:induction false} SkipPiece(piece: string, rest: string)
    requires MarkerFree(piece)
    requires rest == "" || rest[0] == '['
    ensures Matches(piece + rest) == Matches(rest)
    decreases |piece|
  {
    var text := piece + rest;
    if piece == "" {
      assert text == rest;
    } else if |text| >= MARKER_LEN {
      if MarkerAt(text, 0) {
        NoStraddle(piece, rest);
        assert false;
      }
      var tail := piece[1..];
      assert text[1..] == tail + rest;
      forall i | 0 <= i < |tail|
        ensures !MarkerAt(tail, i)
      {
        if MarkerAt(tail, i) {
          TailMarker(piece, i);
        }
      }
      SkipPiece(tail, rest);
    }
  }

  lemma TailMarker(text: string, i: nat)
    requires text != "" && MarkerAt(text[1..], i)
    ensures MarkerAt(text, i + 1)
  {
  }

  lemma MatchMarker(id: string, rest: string)
    requires IsShortId(id)
    ensures Matches(Marker(id) + rest) == [id] + Matches(rest)
  {
    var text := Marker(id) + rest;
    forall k | 3 <= k < 11
      ensures IsHex(text[k])
    {
      assert text[k] == id[k - 3];
    }
    assert text[3..11] == id && text[MARKER_LEN..] == rest;
  }

  lemma {:induction false} MatchesOfInterleave(pieces: seq<string>, ids: seq<string>)
    requires |pieces| == |ids| + 1
    requires forall p :: p in pieces ==> MarkerFree(p)
    requires forall id :: id in ids ==> IsShortId(id)
    ensures Matches(Interleave(pieces, ids)) == ids
    decreases |ids|
  {
    if ids == [] {
      SkipPiece(pieces[0], "");
      assert pieces[0] + "" == pieces[0];
    } else {
      var rest := Interleave(pieces[1..], ids[1..]);
      MatchesOfInterleave(pieces[1..], ids[1..]);
      MatchMarker(ids[0], rest);
      SkipPiece(pieces[0], Marker(ids[0]) + rest);
    }
  }

  /** Extraction returns exactly the printed ids, lower-cased, first occurrences in order. */
  lemma ExtractedOfInterleave(pieces: seq<string>, ids: seq<string>)
    requires |pieces| == |ids| + 1
    requires forall p :: p in pieces ==> MarkerFree(p)
    requires forall id :: id in ids ==> IsShortId(id)
    ensures Extracted(Interleave(pieces, ids)) == Dedup(LowerAll(ids))
  {
    MatchesOfInterleave(pieces, ids);
  }

  lemma DedupSingle(id: string)
    ensures Dedup([id]) == [id]
  {
    DedupSnoc([], id);
    assert [] + [id] == [id];
  }

  /** A formatted marker scans back to its id exactly when the id starts with eight hex digits. */
  lemma ExtractedOfFormat(eventId: string)
    ensures Extracted(FormatMarker(eventId))
         == if IsShortId(Take(eventId, SHORT_ID_LEN)) then [Lower(eventId[..SHORT_ID_LEN])] else []
  {
    var id := Take(eventId, SHORT_ID_LEN);
    var text := FormatMarker(eventId);
    if IsShortId(id) {
      MatchMarker(id, "");
      assert text + "" == text && Matches(text) == [id];
      DedupSingle(Lower(id));
      assert LowerAll([id]) == [Lower(id)];
      assert eventId[..SHORT_ID_LEN] == id;
    } else if MarkerAt(text, 0) {
      forall k | 0 <= k < |id|
        ensures IsHex(id[k])
      {
        assert id[k] == text[k + 3];
      }
      assert false;
    } else {
      assert |text| <= MARKER_LEN;
      assert Matches(text) == [];
    }
  }

  /** Whatever the text, scanned ids are eight lower-case hex digits and never repeat. */
  lemma {:induction false} MatchesAreShortIds(text: string)
    ensures forall id :: id in Matches(text) ==> IsShortId(id)
    decreases |text|
  {
    if |text| >= MARKER_LEN {
      if MarkerAt(text, 0) {
        MatchesAreShortIds(text[MARKER_LEN..]);
      } else {
        MatchesAreShortIds(text[1..]);
      }
    }
  }

  predicate IsLowerHex(c: char) {
    '0' <= c <= '9' || 'a' <= c <= 'f'
  }

  function HexValue(c: char): int
    requires IsHex(c)
  {
    if c <= '9' then (c - '0') as int else if c <= 'F' then (c - 'A') as int + 10 else (c - 'a') as int + 10
  }

  /** The same hex number, whatever the case of its digits. */
  predicate SameDigits(one: string, two: string) {
    && IsShortId(one) && IsShortId(two)
    && forall i :: 0 <= i < SHORT_ID_LEN ==> HexValue(one[i]) == HexValue(two[i])
  }

  lemma LowerShape(id: string)
    requires IsShortId(id)
    ensures SameDigits(Lower(id), id) && forall i :: 0 <= i < SHORT_ID_LEN ==> IsLowerHex(Lower(id)[i])
  {
  }

  lemma LowerEach(matches: seq<string>)
    ensures forall id :: id in Dedup(LowerAll(matches)) <==> exists m :: m in matches && id == Lower(m)
  {
    forall id
      ensures id in LowerAll(matches) <==> exists m :: m in matches && id == Lower(m)
    {
      if m :| m in matches && id == Lower(m) {
        var i :| 0 <= i < |matches| && m == matches[i];
        assert LowerAll(matches)[i] == id;
      }
    }
  }

  predicate IsLowerId(id: string) {
    |id| == SHORT_ID_LEN && forall i :: 0 <= i < |id| ==> IsLowerHex(id[i])
  }

  lemma IdIsScanned(text: string, id: string)
    requires id in Extracted(text)
    ensures IsLowerId(id) && exists m :: m in Matches(text) && SameDigits(id, m)
  {
    LowerEach(Matches(text));
    MatchesAreShortIds(text);
    var m :| m in Matches(text) && id == Lower(m);
    LowerShape(m);
  }

  lemma ScannedHasId(text: string, m: string)
    requires m in Matches(text)
    ensures exists id :: id in Extracted(text) && SameDigits(id, m)
  {
    LowerEach(Matches(text));
    MatchesAreShortIds(text);
    LowerShape(m);
    assert Lower(m) in Extracted(text);
  }

  /**
   Whatever the text, the ids are the scanned hex numbers, each written once, in eight
   lower-case digits.
   */
  lemma ExtractedShape(text: string)
    ensures Distinct(Extracted(text))
    ensures forall id :: id in Extracted(text) ==>
              IsLowerId(id) && exists m :: m in Matches(text) && SameDigits(id, m)
    ensures forall m :: m in Matches(text) ==> exists id :: id in Extracted(text) && SameDigits(id, m)
  {
    FreshIsDistinct(LowerAll(Matches(text)), {});
    forall id | id in Extracted(text)
      ensures IsLowerId(id) && exists m :: m in Matches(text) && SameDigits(id, m)
    {
      IdIsScanned(text, id);
    }
    forall m | m in Matches(text)
      ensures exists id :: id in Extracted(text) && SameDigits(id, m)
    {
      ScannedHasId(text, m);
    }
  }
}
