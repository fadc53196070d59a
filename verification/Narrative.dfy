/**
 app/narrative/validator.py and the retry loop of app/narrative/renderer.py: what an
 answer must cite before it is shown. The providers are arbitrary functions of the
 attempt; they may answer anything or fail.
 */
module Narrative {
  import opened Common
  import opened OrderedSets
  import opened Citations
  import Sentences

  type Payload = string

  datatype EventRow = EventRow(eventId: string, payload: Payload)

  datatype ValidationResult = ValidationResult(
    isValid: bool, missing: seq<string>, extracted: seq<string>, ungrounded: seq<string>)

  function ShortId(e: EventRow): string {
    Take(e.eventId, SHORT_ID_LEN)
  }

  function ShortIds(events: seq<EventRow>): set<string> {
    set e | e in events :: ShortId(e)
  }

  function Outside(ids: seq<string>, known: set<string>): (r: seq<string>)
    ensures forall id :: id in r <==> id in ids && id !in known
  {
    if ids == [] then []
    else if ids[0] in known then Outside(ids[1..], known)
    else [ids[0]] + Outside(ids[1..], known)
  }

  /** validate_citations: markers must resolve; without markers, there must be no evidence. */
  function ValidateCitations(text: string, events: seq<EventRow>): ValidationResult {
    var extracted := Extracted(text);
    if extracted != [] then
      var missing := Outside(extracted, ShortIds(events));
      ValidationResult(|missing| == 0, missing, extracted, [])
    else ValidationResult(events == [], [], [], [])
  }

  /** The reply to one judge call: an exception, or a verdict with its reason. */
  datatype JudgeReply = Raised | Verdict(isGrounded: bool, reason: string)

  /** The judge's reply to one citation's claim and payload; it may answer two equal questions differently. */
  type Judge = (string, string, Payload) -> JudgeReply

  /** Only a proper negative verdict rejects; provider and parse errors count as grounded. */
  predicate Rejects(reply: JudgeReply) {
    reply.Verdict? && reply.reason != "provider_error" && reply.reason != "parse_error"
    && !reply.isGrounded
  }

  /** The dict comprehension over events: the last event with the prefix wins. */
  function LastWith(events: seq<EventRow>, shortId: string): (r: Option<EventRow>)
    ensures r.None? <==> shortId !in ShortIds(events)
    ensures r.Some? ==> r.value in events && ShortId(r.value) == shortId
  {
    if events == [] then None
    else if ShortId(events[|events| - 1]) == shortId then Some(events[|events| - 1])
    else LastWith(events[..|events| - 1], shortId)
  }

  /** The claim shown to the judge for one citation. */
  function Claim(text: string, id: string): string {
    match Sentences.ExtractSentenceForMarker(text, FormatMarker(id))
    case Some(s) => if s == "" then text else s
    case None => text
  }

  function PayloadOf(events: seq<EventRow>, id: string): Payload {
    match LastWith(events, id)
    case Some(e) => e.payload
    case None => "{}"
  }

  /** The judge's reply to one citation of the text. */
  function ReplyOn(id: string, text: string, events: seq<EventRow>, judge: Judge): JudgeReply {
    judge(id, Claim(text, id), PayloadOf(events, id))
  }

  function Refused(ids: seq<string>, text: string, events: seq<EventRow>, judge: Judge): (r: seq<string>)
    ensures forall id :: id in r <==> id in ids && Rejects(ReplyOn(id, text, events, judge))
  {
    if ids == [] then []
    else
      var front, last := ids[..|ids| - 1], ids[|ids| - 1];
      if Rejects(ReplyOn(last, text, events, judge))
      then Refused(front, text, events, judge) + [last]
      else Refused(front, text, events, judge)
  }

  lemma RefusedSnoc(ids: seq<string>, id: string, text: string, events: seq<EventRow>, judge: Judge)
    ensures Refused(ids + [id], text, events, judge)
         == Refused(ids, text, events, judge)
          + (if Rejects(ReplyOn(id, text, events, judge)) then [id] else [])
  {
  }

  function ValidateWithJudge(text: string, events: seq<EventRow>, judge: Judge): ValidationResult {
    var existence := ValidateCitations(text, events);
    if !existence.isValid then existence
    else
      var ungrounded := Refused(existence.extracted, text, events, judge);
      ValidationResult(|ungrounded| == 0, [], existence.extracted, ungrounded)
  }

  /** validate_citations_with_judge: existence first, then every citation in turn. */
  method ValidateCitationsWithJudge(text: string, events: seq<EventRow>, judge: Judge)
    returns (r: ValidationResult)
    ensures r == ValidateWithJudge(text, events, judge)
  {
    var existence := ValidateCitations(text, events);
    if !existence.isValid {
      return existence;
    }
    var ungrounded := JudgeEach(existence.extracted, text, events, judge);
    r := ValidationResult(|ungrounded| == 0, [], existence.extracted, ungrounded);
  }

  /** app/narrative/validator.py:120-149: failures of the judge count as grounded. */
  method JudgeEach(ids: seq<string>, text: string, events: seq<EventRow>, judge: Judge)
    returns (ungrounded: seq<string>)
    ensures ungrounded == Refused(ids, text, events, judge)
  {
    ungrounded := [];
    for i := 0 to |ids|
      invariant ungrounded == Refused(ids[..i], text, events, judge)
    {
      assert ids[..i + 1] == ids[..i] + [ids[i]];
      RefusedSnoc(ids[..i], ids[i], text, events, judge);
      var reply := ReplyOn(ids[i], text, events, judge);
      if reply.Raised? || reply.reason == "provider_error" || reply.reason == "parse_error" {
        continue;
      }
      if !reply.isGrounded {
        ungrounded := ungrounded + [ids[i]];
      }
    }
    assert ids[..|ids|] == ids;
  }

  // ---- the renderer ----

  datatype Mode = Existence | Strict

  /** The retry hint appended to the prompt, chosen by the previous attempt's failure. */
  datatype Hint = NoHint | ClaimsDiffer | UnknownIds

  datatype CitationOut = CitationOut(shortId: string, eventId: Option<string>)

  datatype Rendered = Rendered(
    answer: string, citations: seq<CitationOut>, retriesUsed: nat, isColdStart: bool, usedFallback: bool)

  const FALLBACK_MESSAGE: string := "그건 내가 못 봐서 모르겠네."

  /** The outside world: a reply (or failure) per attempt and hint, and a judge per attempt. */
  datatype Providers = Providers(complete: (nat, Hint) -> Option<string>, judge: Option<nat -> Judge>)

  datatype RenderError = StrictModeWithoutJudge

  function Fallback(isColdStart: bool, retriesUsed: nat): Rendered {
    Rendered(FALLBACK_MESSAGE, [], retriesUsed, isColdStart, true)
  }

  function BuildCitations(ids: seq<string>, events: seq<EventRow>): (r: seq<CitationOut>)
    ensures |r| == |ids|
  {
    seq(|ids|, i requires 0 <= i < |ids| =>
      match LastWith(events, ids[i])
      case Some(e) => CitationOut(ids[i], Some(e.eventId))
      case None => CitationOut(ids[i], None))
  }

  predicate Configured(p: Providers, mode: Mode) {
    mode == Strict ==> p.judge.Some?
  }

  function Validation(p: Providers, mode: Mode, events: seq<EventRow>, k: nat, text: string): ValidationResult
    requires Configured(p, mode)
  {
    if mode == Strict then ValidateWithJudge(text, events, p.judge.value(k))
    else ValidateCitations(text, events)
  }

  function NextHint(mode: Mode, v: ValidationResult): Hint {
    if mode == Strict && |v.ungrounded| > 0 then ClaimsDiffer else UnknownIds
  }

  /** The hint sent with attempt `k`, given that every earlier attempt was refused. */
  function HintAt(p: Providers, mode: Mode, events: seq<EventRow>, k: nat): Hint
    requires Configured(p, mode)
    decreases k, 0
  {
    if k == 0 then NoHint
    else
      match ReplyAt(p, mode, events, k - 1)
      case Some(text) => NextHint(mode, Validation(p, mode, events, k - 1, text))
      case None => UnknownIds
  }

  function ReplyAt(p: Providers, mode: Mode, events: seq<EventRow>, k: nat): Option<string>
    requires Configured(p, mode)
    decreases k, 1
  {
    p.complete(k, HintAt(p, mode, events, k))
  }

  predicate Refuses(p: Providers, mode: Mode, events: seq<EventRow>, k: nat)
    requires Configured(p, mode)
  {
    var reply := ReplyAt(p, mode, events, k);
    reply.Some? && !Validation(p, mode, events, k, reply.value).isValid
  }

  method Validate(p: Providers, mode: Mode, events: seq<EventRow>, k: nat, text: string)
    returns (v: ValidationResult)
    requires Configured(p, mode)
    ensures v == Validation(p, mode, events, k, text)
  {
    if mode == Strict {
      v := ValidateCitationsWithJudge(text, events, p.judge.value(k));
    } else {
      v := ValidateCitations(text, events);
    }
  }

  /**
   render_narrative. `coldStart` and `evidence` are what the two database reads gave,
   None standing for an exception. `calls` counts the provider calls.
   */
  method RenderNarrative(p: Providers, mode: Mode, coldStart: Option<bool>,
                         evidence: Option<seq<EventRow>>, promptLoads: bool, maxRetries: int)
    returns (r: Result<Rendered, RenderError>, ghost calls: nat)
    ensures r.Err? <==> !Configured(p, mode)
    ensures r.Ok? && (coldStart != Some(false) || evidence.None? || evidence.value == [] || !promptLoads) ==>
              calls == 0 && r.value == Fallback(coldStart != Some(false), 0)
    ensures r.Ok? && coldStart == Some(false) && evidence.Some? && evidence.value != [] && promptLoads ==>
              if maxRetries < 0 then calls == 0 && r.value == Fallback(false, 0)
              else calls == r.value.retriesUsed + 1 && Outcome(p, mode, evidence.value, maxRetries, r.value)
  {
    calls := 0;
    if mode == Strict && p.judge.None? {
      return Err(StrictModeWithoutJudge), 0;
    }
    if coldStart.None? || coldStart.value {
      return Ok(Fallback(true, 0)), 0;
    }
    if evidence.None? || evidence.value == [] || !promptLoads {
      return Ok(Fallback(false, 0)), 0;
    }
    var rendered;
    rendered, calls := RetryLoop(p, mode, evidence.value, maxRetries);
    r := Ok(rendered);
  }

  /** Every attempt before `k` was refused, and the last refusal chose the hint. */
  ghost predicate Retrying(p: Providers, mode: Mode, events: seq<EventRow>, k: nat, lastUngrounded: bool)
    requires Configured(p, mode)
  {
    && (forall j :: 0 <= j < k ==> Refuses(p, mode, events, j))
    && (k > 0 ==> HintAt(p, mode, events, k) == if lastUngrounded then ClaimsDiffer else UnknownIds)
  }

  lemma RefusedOnceMore(p: Providers, mode: Mode, events: seq<EventRow>, k: nat, before: bool,
                        text: string, v: ValidationResult, ungrounded: bool)
    requires Configured(p, mode) && Retrying(p, mode, events, k, before)
    requires ReplyAt(p, mode, events, k) == Some(text) && v == Validation(p, mode, events, k, text) && !v.isValid
    requires ungrounded == (mode == Strict && |v.ungrounded| > 0)
    ensures Retrying(p, mode, events, k + 1, ungrounded)
  {
  }

  lemma HintSent(p: Providers, mode: Mode, events: seq<EventRow>, k: nat, lastUngrounded: bool)
    requires Configured(p, mode) && Retrying(p, mode, events, k, lastUngrounded)
    ensures ReplyAt(p, mode, events, k)
         == p.complete(k, if k == 0 then NoHint else if lastUngrounded then ClaimsDiffer else UnknownIds)
  {
  }

  /** What attempt `k` makes of the whole call, when it fails, is accepted, or is the last. */
  lemma AttemptOutcome(p: Providers, mode: Mode, events: seq<EventRow>, maxRetries: int, k: nat, before: bool)
    requires Configured(p, mode) && Retrying(p, mode, events, k, before) && k <= maxRetries
    ensures var reply := ReplyAt(p, mode, events, k);
            && (reply.None? ==> Outcome(p, mode, events, maxRetries, Fallback(false, k)))
            && (reply.Some? ==>
                  var v := Validation(p, mode, events, k, reply.value);
                  && (v.isValid ==>
                        Outcome(p, mode, events, maxRetries,
                                Rendered(reply.value, BuildCitations(v.extracted, events), k, false, false)))
                  && (!v.isValid && k == maxRetries ==> Outcome(p, mode, events, maxRetries, Fallback(false, k))))
  {
  }

  /** app/narrative/renderer.py:120-189. */
  method RetryLoop(p: Providers, mode: Mode, events: seq<EventRow>, maxRetries: int)
    returns (r: Rendered, ghost calls: nat)
    requires Configured(p, mode)
    ensures if maxRetries < 0 then r == Fallback(false, 0) else Outcome(p, mode, events, maxRetries, r)
    ensures calls == if maxRetries < 0 then 0 else r.retriesUsed + 1
  {
    calls := 0;
    var retriesUsed := 0;
    var lastUngrounded := false;
    var attempt := 0;
    while attempt < maxRetries + 1
      invariant 0 <= attempt && (attempt == 0 || attempt <= maxRetries + 1)
      invariant retriesUsed == (if attempt == 0 then 0 else attempt - 1) && calls == attempt
      invariant Retrying(p, mode, events, attempt, lastUngrounded)
      invariant attempt == maxRetries + 1 && attempt > 0 ==>
                  Outcome(p, mode, events, maxRetries, Fallback(false, retriesUsed))
    {
      var hint := NoHint;
      if attempt > 0 {
        retriesUsed := retriesUsed + 1;
        hint := if lastUngrounded then ClaimsDiffer else UnknownIds;
      }
      calls := calls + 1;
      var reply := p.complete(attempt, hint);
      assert retriesUsed == attempt;
      HintSent(p, mode, events, attempt, lastUngrounded);
      AttemptOutcome(p, mode, events, maxRetries, attempt, lastUngrounded);
      if reply.None? {
        return Fallback(false, retriesUsed), calls;
      }
      var text := reply.value;
      var validation := Validate(p, mode, events, attempt, text);
      if validation.isValid {
        return Rendered(text, BuildCitations(validation.extracted, events), retriesUsed, false, false), calls;
      }
      ghost var before := lastUngrounded;
      lastUngrounded := mode == Strict && |validation.ungrounded| > 0;
      RefusedOnceMore(p, mode, events, attempt, before, text, validation, lastUngrounded);
      attempt := attempt + 1;
    }
    r := Fallback(false, retriesUsed);
  }

  /**
   What the retry loop returns: every attempt before the last was answered and refused;
   the last one is shown exactly when it was answered and accepted; a refused last
   attempt means the retries were used up.
   */
  predicate Outcome(p: Providers, mode: Mode, events: seq<EventRow>, maxRetries: int, r: Rendered)
    requires Configured(p, mode)
  {
    var n := r.retriesUsed;
    var reply := ReplyAt(p, mode, events, n);
    && n <= maxRetries
    && !r.isColdStart
    && (forall j :: 0 <= j < n ==> Refuses(p, mode, events, j))
    && (r.usedFallback <==> reply.None? || Refuses(p, mode, events, n))
    && (Refuses(p, mode, events, n) ==> n == maxRetries)
    && (if r.usedFallback then r == Fallback(false, n)
        else r.answer == reply.value
             && r.citations == BuildCitations(Validation(p, mode, events, n, reply.value).extracted, events))
  }

  /** Event `k` is the last one whose id starts with `shortId`. */
  predicate IsLastWith(events: seq<EventRow>, shortId: string, k: nat) {
    && k < |events| && ShortId(events[k]) == shortId
    && forall j :: k < j < |events| ==> ShortId(events[j]) != shortId
  }

  lemma {:induction false} LastIsFound(events: seq<EventRow>, shortId: string) returns (k: nat)
    requires LastWith(events, shortId).Some?
    ensures IsLastWith(events, shortId, k) && LastWith(events, shortId) == Some(events[k])
    decreases |events|
  {
    var front, last := events[..|events| - 1], |events| - 1;
    if ShortId(events[last]) == shortId {
      k := last;
    } else {
      k := LastIsFound(front, shortId);
      LastInFront(events, shortId, k);
    }
  }

  lemma LastInFront(events: seq<EventRow>, shortId: string, k: nat)
    requires events != [] && IsLastWith(events[..|events| - 1], shortId, k)
    requires ShortId(events[|events| - 1]) != shortId
    ensures IsLastWith(events, shortId, k) && events[k] == events[..|events| - 1][k]
  {
    var front := events[..|events| - 1];
    forall j | k < j < |front|
      ensures ShortId(events[j]) != shortId
    {
      assert ShortId(front[j]) != shortId;
    }
  }

  /** A citation the reader can follow: the id and the full id of the last evidence that starts with it. */
  ghost predicate Resolves(c: CitationOut, id: string, events: seq<EventRow>) {
    exists k: nat :: IsLastWith(events, id, k) && c == CitationOut(id, Some(events[k].eventId))
  }

  // ---- what the judge is asked ----

  /**
   The claim about a cited id: all whole sentences around its lower-case marker, in text
   order, one space between each two; without such a marker, the whole text.
   */
  lemma ClaimExactly(text: string, id: string)
    requires IsShortId(id)
    ensures if exists i :: Sentences.OccursAt(text, Marker(id), i)
            then Sentences.JoinsSentences(text, Marker(id), Claim(text, id))
            else Claim(text, id) == text
  {
    assert FormatMarker(id) == Marker(id);
    Sentences.MarkersAreSpaceFree(id);
    Sentences.SelectedSentences(text, Marker(id));
  }

  /** Around every occurrence of a cited id's marker, the claim holds the whole sentence. */
  lemma ClaimHoldsSentence(text: string, id: string, i: nat)
    requires IsShortId(id) && Sentences.OccursAt(text, Marker(id), i)
    ensures exists k: nat :: k < |Sentences.Split(text)| == |Sentences.Separators(text)| + 1
              && Sentences.Within(Sentences.Split(text), Sentences.Separators(text), k, i, Marker(id))
              && Sentences.Contains(Claim(text, id), Sentences.Split(text)[k])
  {
    assert FormatMarker(id) == Marker(id);
    Sentences.MarkersAreSpaceFree(id);
    Sentences.WholeSentenceAround(text, Marker(id), i);
    Sentences.SelectedSentences(text, Marker(id));
  }

  /** The payload shown with it: the last evidence with the cited prefix, or an empty object. */
  lemma PayloadExactly(events: seq<EventRow>, id: string)
    ensures if id in ShortIds(events)
            then exists k: nat :: IsLastWith(events, id, k) && PayloadOf(events, id) == events[k].payload
            else PayloadOf(events, id) == "{}"
  {
    if id in ShortIds(events) {
      var k := LastIsFound(events, id);
    }
  }

  /**
   Strict mode accepts exactly when existence checking does and, for each cited id, the
   judge calls the claim grounded, raises, or reports an error of its own.
   */
  lemma StrictVerdict(text: string, events: seq<EventRow>, judge: Judge)
    ensures var v := ValidateWithJudge(text, events, judge);
            var existence := ValidateCitations(text, events);
            && (v.isValid <==> existence.isValid && forall id :: id in Extracted(text) ==>
                  var reply := judge(id, Claim(text, id), PayloadOf(events, id));
                  || reply.Raised? || reply.isGrounded
                  || reply.reason == "provider_error" || reply.reason == "parse_error")
            && v.missing == existence.missing && v.extracted == Extracted(text)
            && (v.ungrounded != [] <==> existence.isValid && !v.isValid)
  {
    AcceptedIds(text, events);
    var ungrounded := Refused(Extracted(text), text, events, judge);
    assert ungrounded == [] <==> forall id :: id in Extracted(text) ==> !Rejects(ReplyOn(id, text, events, judge)) by {
      if ungrounded != [] {
        assert ungrounded[0] in ungrounded;
      }
    }
  }

  /** After a refusal the hint names the claims exactly when all cited ids had resolved. */
  lemma HintExactly(p: Providers, mode: Mode, events: seq<EventRow>, k: nat)
    requires Configured(p, mode) && (k > 0 ==> Refuses(p, mode, events, k - 1))
    ensures HintAt(p, mode, events, k)
         == if k == 0 then NoHint
            else if ValidateCitations(ReplyAt(p, mode, events, k - 1).value, events).isValid then ClaimsDiffer
            else UnknownIds
  {
    if k > 0 {
      var text := ReplyAt(p, mode, events, k - 1).value;
      if mode == Strict {
        StrictVerdict(text, events, p.judge.value(k - 1));
      }
    }
  }

  /**
   An answer that is not the fallback cites at least one id; its citations are exactly
   the ids scanned from it, each resolving in the evidence; in strict mode no judge
   rejected any of them.
   */
  lemma ShownAnswersAreCited(p: Providers, mode: Mode, events: seq<EventRow>, maxRetries: int, r: Rendered)
    requires Configured(p, mode) && events != []
    requires Outcome(p, mode, events, maxRetries, r) && !r.usedFallback
    ensures r.citations != [] && |r.citations| == |Extracted(r.answer)|
    ensures forall i :: 0 <= i < |r.citations| ==> Resolves(r.citations[i], Extracted(r.answer)[i], events)
    ensures mode == Strict ==> forall id :: id in Extracted(r.answer) ==>
              !Rejects(ReplyOn(id, r.answer, events, p.judge.value(r.retriesUsed)))
  {
    var v := Validation(p, mode, events, r.retriesUsed, r.answer);
    AcceptedIds(r.answer, events);
    if mode == Strict {
      var ungrounded := Refused(Extracted(r.answer), r.answer, events, p.judge.value(r.retriesUsed));
      assert ungrounded == [];
    }
    forall i | 0 <= i < |r.citations|
      ensures Resolves(r.citations[i], Extracted(r.answer)[i], events)
    {
      assert Extracted(r.answer)[i] in Extracted(r.answer);
      var k := LastIsFound(events, Extracted(r.answer)[i]);
    }
  }

  /**
   Existence checking accepts exactly the texts whose markers all resolve, and, with
   evidence, at least one does; the missing ids are those that do not.
   */
  lemma AcceptedIds(text: string, events: seq<EventRow>)
    ensures var v := ValidateCitations(text, events);
            && (v.isValid <==> if Extracted(text) == [] then events == []
                               else forall id :: id in Extracted(text) ==> id in ShortIds(events))
            && (forall id :: id in v.missing <==> id in Extracted(text) && id !in ShortIds(events))
            && v.extracted == Extracted(text) && v.ungrounded == []
  {
    var missing := Outside(Extracted(text), ShortIds(events));
    if missing != [] {
      assert missing[0] in missing;
    }
  }
}
