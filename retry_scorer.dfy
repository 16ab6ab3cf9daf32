/**
 * The retrying scorer of models/risk_extraction/risk_matrix_generator.py.
 *
 * `score_risk` validates the model's reply step by step and raises on any
 * defect; `safe_score_risk` tries it `retries + 1` times, sleeping between
 * attempts; `main` keeps only the risks that were scored.
 *
 * Oracles: `call(attempt, prompt)` (and, in `main`, `generate(item, attempt,
 * prompt)`) is what `model.generate_content` gives back for that call;
 * `decode` is `json.loads`. Sleeping is counted, not timed.
 */
module RetryScorer {
  import opened Wrappers
  import opened Text
  import opened Json
  import Fence
  import opened RiskMatrix

  /** How `response.text` behaves: missing or `None` (read as ""), raising, or a text. */
  datatype TextAttr = Missing | NoneText | Raises | Text(s: string)

  /** What `generate_content` gives back: it raised, or a response with some candidates. */
  datatype Reply = CallRaised | Response(candidates: nat, text: TextAttr)

  /** The step of `score_risk` that raised. */
  datatype ScoreError =
    | ApiFailure        // `generate_content` raised
    | Blocked           // no candidates
    | TextRaised        // reading `response.text` raised
    | EmptyText         // the stripped text is empty
    | EmptyJson         // the extracted JSON string is empty
    | InvalidJson       // `json.loads` raised
    | NotSearchable     // `"likelihood" in parsed` raised `TypeError`
    | MissingKeys       // a key is absent
    | NotAnObject       // the decoded value is not a dict (intended check only)

  /** The exception `score_risk` lets escape. */
  datatype Raised = ValueErrorRaised | RuntimeErrorRaised

  /**
   * Only a decoding failure escapes as `ValueError`; every other failure,
   * including the `ValueError`s raised inside the `try`, is re-raised by the
   * catch-all handler as `RuntimeError`.
   */
  function RaisedAs(e: ScoreError): (r: Raised)
    ensures r == ValueErrorRaised <==> e == InvalidJson
  {
    if e == InvalidJson then ValueErrorRaised else RuntimeErrorRaised
  }

  const PromptHead: string :=
    "\nYou are a financial risk expert.\n\n" +
    "Score the following business risk on two axes:\n" +
    "- Likelihood: from 1 (very unlikely) to 10 (very likely)\n" +
    "- Impact: from 1 (negligible) to 10 (catastrophic)\n\n" +
    "Respond ONLY with a JSON object like:\n" +
    "{ \"likelihood\": 7, \"impact\": 8 }\n\n" +
    "Risk: \""

  /** The prompt; this version does not strip it. */
  function Prompt(riskText: string): string {
    PromptHead + riskText + "\"\n"
  }

  /** The raw text `score_risk` goes on with: `response.text.strip()`, or "" when there is none. */
  function RawText(t: TextAttr): Option<string> {
    match t
    case Missing => Some("")
    case NoneText => Some("")
    case Raises => None
    case Text(s) => Some(Strip(s))
  }

  /**
   * `score_risk` up to `json.loads`: candidates present, text readable and
   * non-empty after stripping, fence group or whole text extracted, decoded.
   */
  function Parsed(reply: Reply, decode: Decoder): Result<Json, ScoreError> {
    match reply
    case CallRaised => Err(ApiFailure)
    case Response(candidates, t) =>
      if candidates == 0 then Err(Blocked)
      else match RawText(t)
        case None => Err(TextRaised)
        case Some(raw) =>
          if raw == [] then Err(EmptyText)
          else
            var jsonString := Fence.JsonText(raw);
            if jsonString == [] then Err(EmptyJson)
            else match decode(jsonString)
              case None => Err(InvalidJson)
              case Some(parsed) => Ok(parsed)
  }

  /** The source's key check, `"likelihood" in parsed and "impact" in parsed`, with Python's `in`. */
  function KeyCheckAsWritten(parsed: Json): Result<Json, ScoreError> {
    match Contains(parsed, "likelihood")
    case None => Err(NotSearchable)
    case Some(hasLikelihood) =>
      if hasLikelihood && Contains(parsed, "impact") == Some(true) then Ok(parsed)
      else Err(MissingKeys)
  }

  /** The key check the code evidently intends: a dict holding both keys. */
  function KeyCheck(parsed: Json): (r: Result<Json, ScoreError>)
    ensures r.Ok? <==> HasBothKeys(parsed)
    ensures r.Ok? ==> r.value == parsed
  {
    if !parsed.JObj? then Err(NotAnObject)
    else if HasField(parsed.fields, "likelihood") && HasField(parsed.fields, "impact") then Ok(parsed)
    else Err(MissingKeys)
  }

  /** On dicts the two checks agree; they differ only on lists and strings. */
  lemma KeyChecksAgreeOnObjects(parsed: Json)
    ensures parsed.JObj? ==> KeyCheck(parsed) == KeyCheckAsWritten(parsed)
    ensures KeyCheck(parsed).Ok? ==> KeyCheckAsWritten(parsed).Ok?
  {
  }

  /**
   * As written, `in` on a list tests membership and on a str tests substrings:
   * a reply that decodes to the list `["likelihood", "impact"]` passes the check,
   * and `main` then fails on `score["likelihood"]`.
   */
  lemma KeyNamesInAListPass()
    ensures var parsed := JArr([JStr("likelihood"), JStr("impact")]);
      KeyCheckAsWritten(parsed) == Ok(parsed) && !HasBothKeys(parsed) && KeyCheck(parsed).Err?
  {
    var parsed := JArr([JStr("likelihood"), JStr("impact")]);
    assert parsed.items[0] == JStr("likelihood") && parsed.items[1] == JStr("impact");
  }

  /** As written, `score_risk` on one reply: the parsed value, or the step that raised. */
  function ScoreRiskAsWritten(reply: Reply, decode: Decoder): Result<Json, ScoreError> {
    match Parsed(reply, decode)
    case Err(e) => Err(e)
    case Ok(parsed) => KeyCheckAsWritten(parsed)
  }

  /** `score_risk` with the intended key check; the rest of the model uses this one. */
  function ScoreRisk(reply: Reply, decode: Decoder): Result<Json, ScoreError> {
    match Parsed(reply, decode)
    case Err(e) => Err(e)
    case Ok(parsed) => KeyCheck(parsed)
  }

  /**
   * `score_risk` returns exactly when the call produced candidates and a
   * non-empty text whose extracted JSON decodes to a dict holding both keys; it
   * then returns that dict, which is truthy.
   */
  lemma ScoreRiskSucceeds(reply: Reply, decode: Decoder)
    ensures ScoreRisk(reply, decode).Ok? <==>
      reply.Response? && reply.candidates > 0 && RawText(reply.text).Some? &&
      RawText(reply.text).value != [] &&
      decode(Fence.JsonText(RawText(reply.text).value)).Some? &&
      HasBothKeys(decode(Fence.JsonText(RawText(reply.text).value)).value)
    ensures ScoreRisk(reply, decode).Ok? ==>
      ScoreRisk(reply, decode).value == decode(Fence.JsonText(RawText(reply.text).value)).value &&
      Truthy(ScoreRisk(reply, decode).value)
  {
    var r := ScoreRisk(reply, decode);
    if r.Ok? {
      ContainsImpliesTruthy(r.value, "likelihood");
    }
  }

  /** A failed call, no candidates, an unreadable or empty text each raise before anything is parsed. */
  lemma ScoreRiskEarlyFailures(reply: Reply, decode: Decoder)
    ensures reply.CallRaised? ==> ScoreRisk(reply, decode) == Err(ApiFailure)
    ensures reply.Response? && reply.candidates == 0 ==> ScoreRisk(reply, decode) == Err(Blocked)
    ensures reply.Response? && reply.candidates > 0 && reply.text.Raises? ==>
      ScoreRisk(reply, decode) == Err(TextRaised)
    ensures reply.Response? && reply.candidates > 0 && RawText(reply.text) == Some("") ==>
      ScoreRisk(reply, decode) == Err(EmptyText)
  {
  }

  /**
   * The check for an empty extracted string never fires: the text is not empty
   * by then, and the fence group, when there is one, holds at least `{}`.
   */
  lemma EmptyJsonCheckIsDead(reply: Reply, decode: Decoder)
    ensures Parsed(reply, decode) != Err(EmptyJson)
  {
    if reply.Response? && reply.candidates > 0 && RawText(reply.text).Some? {
      var raw := RawText(reply.text).value;
      if raw != [] {
        assert Fence.JsonText(raw) != [];
      }
    }
  }

  /** A dict with one of the keys missing is rejected, even if its scores are valid. */
  lemma MissingKeyRejected(reply: Reply, decode: Decoder, fields: seq<(string, Json)>)
    requires Parsed(reply, decode) == Ok(JObj(fields))
    requires !HasField(fields, "likelihood") || !HasField(fields, "impact")
    ensures ScoreRisk(reply, decode) == Err(MissingKeys)
    ensures ScoreRiskAsWritten(reply, decode) == Err(MissingKeys)
  {
  }

  /** `safe_score_risk`'s defaults. */
  const DefaultRetries: nat := 2
  const DefaultDelay: nat := 2

  /** What each of the `retries + 1` attempts would give: `score_risk` on the reply to that attempt. */
  function Attempts(riskText: string, retries: nat, call: (nat, string) -> Reply, decode: Decoder)
    : (rs: seq<Result<Json, ScoreError>>)
    ensures |rs| == retries + 1
  {
    seq(retries + 1, a requires 0 <= a <= retries => ScoreRisk(call(a, Prompt(riskText)), decode))
  }

  /** The first successful attempt at or after `from`. */
  function FirstOk(rs: seq<Result<Json, ScoreError>>, from: nat): (a: Option<nat>)
    requires from <= |rs|
    ensures a.Some? ==> (from <= a.value < |rs| && rs[a.value].Ok? &&
      forall b :: from <= b < a.value ==> rs[b].Err?)
    ensures a.None? ==> forall b :: from <= b < |rs| ==> rs[b].Err?
    decreases |rs| - from
  {
    if from == |rs| then None
    else if rs[from].Ok? then Some(from)
    else FirstOk(rs, from + 1)
  }

  /** What `safe_score_risk` returns: the first success, or `None` when every attempt failed. */
  function SafeScore(riskText: string, retries: nat, call: (nat, string) -> Reply, decode: Decoder)
    : Option<Json>
  {
    var rs := Attempts(riskText, retries, call, decode);
    match FirstOk(rs, 0)
    case None => None
    case Some(a) => Some(rs[a].value)
  }

  /**
   * `safe_score_risk(risk_text, retries, delay)`: attempts `0..retries`, each a
   * call to `score_risk`; it returns the first success and sleeps only after a
   * failed attempt that is not the last. Returns the score, the number of calls
   * made and the number of sleeps.
   */
  method SafeScoreRisk(riskText: string, retries: nat, call: (nat, string) -> Reply, decode: Decoder)
    returns (score: Option<Json>, calls: nat, sleeps: nat)
    ensures score == SafeScore(riskText, retries, call, decode)
    ensures 1 <= calls <= retries + 1 && sleeps == calls - 1
    ensures var first := FirstOk(Attempts(riskText, retries, call, decode), 0);
      calls == if first.Some? then first.value + 1 else retries + 1
  {
    ghost var rs := Attempts(riskText, retries, call, decode);
    calls, sleeps := 0, 0;
    var attempt := 0;
    while attempt < retries + 1
      invariant 0 <= attempt <= retries + 1
      invariant calls == attempt && sleeps == (if attempt == retries + 1 then retries else attempt)
      invariant FirstOk(rs, 0) == FirstOk(rs, attempt)
      decreases retries + 1 - attempt
    {
      var result := TryOnce(riskText, retries, call, decode, attempt);
      calls := calls + 1;
      if result.Ok? {
        return Some(result.value), calls, sleeps;
      }
      if attempt < retries {
        sleeps := sleeps + 1;
      }
      attempt := attempt + 1;
    }
    return None, calls, sleeps;
  }

  /** One attempt of `safe_score_risk`: a call to `score_risk` with the prompt for the risk. */
  method TryOnce(riskText: string, retries: nat, call: (nat, string) -> Reply, decode: Decoder, attempt: nat)
    returns (result: Result<Json, ScoreError>)
    requires attempt <= retries
    ensures result == Attempts(riskText, retries, call, decode)[attempt]
  {
    result := ScoreRisk(call(attempt, Prompt(riskText)), decode);
  }

  /** With the defaults, a risk costs at most three calls and at most two sleeps of two seconds. */
  lemma DefaultAttemptBound(calls: nat, sleeps: nat)
    requires 1 <= calls <= DefaultRetries + 1 && sleeps == calls - 1
    ensures calls <= 3 && sleeps * DefaultDelay <= 4
  {
  }

  /** Whatever `safe_score_risk` returns is a dict with both keys, so `if score:` keeps it. */
  lemma SafeScoreAccepted(riskText: string, retries: nat, call: (nat, string) -> Reply, decode: Decoder)
    requires SafeScore(riskText, retries, call, decode).Some?
    ensures HasBothKeys(SafeScore(riskText, retries, call, decode).value)
    ensures Truthy(SafeScore(riskText, retries, call, decode).value)
  {
    var rs := Attempts(riskText, retries, call, decode);
    var a := FirstOk(rs, 0).value;
    ScoreRiskSucceeds(call(a, Prompt(riskText)), decode);
  }

  /** The model calls made for the risk at `index`. */
  function CallsFor(generate: (nat, nat, string) -> Reply, index: nat): (nat, string) -> Reply {
    (a: nat, p: string) => generate(index, a, p)
  }

  /** The score `main` gets for the risk at `index`: its own attempts, with the default retries. */
  function ItemScore(risks: seq<string>, index: nat, generate: (nat, nat, string) -> Reply,
                     decode: Decoder): Option<Json>
    requires index < |risks|
  {
    SafeScore(risks[index], DefaultRetries, CallsFor(generate, index), decode)
  }

  /**
   * The matrix `main` has built after the first `n` risks: one row per risk
   * whose score came back, in risk order; a failed risk is skipped.
   */
  function Kept(risks: seq<string>, scores: seq<Option<Json>>, n: nat): (m: seq<Entry>)
    requires n <= |risks| && n <= |scores|
    ensures |m| <= n
    decreases n
  {
    if n == 0 then []
    else if scores[n - 1].Some? && HasBothKeys(scores[n - 1].value) then
      Kept(risks, scores, n - 1) + [RowFor(risks[n - 1], scores[n - 1].value)]
    else Kept(risks, scores, n - 1)
  }

  /** Every score of `main`'s subset that came back has both keys. */
  predicate ScoresHaveKeys(scores: seq<Option<Json>>) {
    forall k :: 0 <= k < |scores| && scores[k].Some? ==> HasBothKeys(scores[k].value)
  }

  /** The indices among the first `n` whose score came back with both keys, in increasing order. */
  function Scored(scores: seq<Option<Json>>, n: nat): (idx: seq<nat>)
    requires n <= |scores|
    ensures forall j :: 0 <= j < |idx| ==>
      idx[j] < n && scores[idx[j]].Some? && HasBothKeys(scores[idx[j]].value)
    decreases n
  {
    if n == 0 then []
    else if scores[n - 1].Some? && HasBothKeys(scores[n - 1].value) then Scored(scores, n - 1) + [n - 1]
    else Scored(scores, n - 1)
  }

  /** The scored indices are increasing. */
  lemma {:induction false} ScoredIncreasing(scores: seq<Option<Json>>, n: nat)
    requires n <= |scores|
    ensures forall j, j' :: 0 <= j < j' < |Scored(scores, n)| ==> Scored(scores, n)[j] < Scored(scores, n)[j']
    decreases n
  {
    if n > 0 {
      ScoredIncreasing(scores, n - 1);
      var prev := Scored(scores, n - 1);
      if scores[n - 1].Some? && HasBothKeys(scores[n - 1].value) {
        var idx := prev + [n - 1];
        assert Scored(scores, n) == idx;
        forall j, j' | 0 <= j < j' < |idx|
          ensures idx[j] < idx[j']
        {
          if j' < |prev| {
            assert idx[j] == prev[j] < prev[j'] == idx[j'];
          } else {
            assert idx[j] == prev[j] < n - 1 == idx[j'];
          }
        }
      } else {
        assert Scored(scores, n) == prev;
      }
    }
  }

  /** No scored risk is left out. */
  lemma {:induction false} ScoredComplete(scores: seq<Option<Json>>, n: nat)
    requires n <= |scores|
    ensures forall k :: 0 <= k < n && scores[k].Some? && HasBothKeys(scores[k].value) ==> k in Scored(scores, n)
    decreases n
  {
    if n > 0 {
      ScoredComplete(scores, n - 1);
      var prev, idx := Scored(scores, n - 1), Scored(scores, n);
      if scores[n - 1].Some? && HasBothKeys(scores[n - 1].value) {
        assert idx == prev + [n - 1];
        forall k | 0 <= k < n && scores[k].Some? && HasBothKeys(scores[k].value)
          ensures k in idx
        {
          if k < n - 1 {
            assert k in prev;
          } else {
            assert idx[|prev|] == k;
          }
        }
      } else {
        assert idx == prev;
      }
    }
  }

  /**
   * The kept matrix is the order-preserving subsequence of the risks whose
   * scoring succeeded: row `j` is built from the `j`-th scored risk and its score.
   */
  lemma {:induction false} KeptIsSubsequence(risks: seq<string>, scores: seq<Option<Json>>, n: nat)
    requires n <= |risks| && n <= |scores|
    ensures |Kept(risks, scores, n)| == |Scored(scores, n)|
    ensures forall j :: 0 <= j < |Scored(scores, n)| ==>
      Kept(risks, scores, n)[j] == RowFor(risks[Scored(scores, n)[j]], scores[Scored(scores, n)[j]].value)
    decreases n
  {
    if n > 0 {
      KeptIsSubsequence(risks, scores, n - 1);
      var kept, idx := Kept(risks, scores, n - 1), Scored(scores, n - 1);
      if scores[n - 1].Some? && HasBothKeys(scores[n - 1].value) {
        var rows, all := Kept(risks, scores, n), Scored(scores, n);
        assert rows == kept + [RowFor(risks[n - 1], scores[n - 1].value)];
        assert all == idx + [n - 1];
        forall j | 0 <= j < |all|
          ensures rows[j] == RowFor(risks[all[j]], scores[all[j]].value)
        {
          if j < |idx| {
            assert rows[j] == kept[j] && all[j] == idx[j];
          }
        }
      } else {
        assert Kept(risks, scores, n) == kept && Scored(scores, n) == idx;
      }
    }
  }

  /** If every risk is scored, every risk has its row, in order. */
  lemma {:induction false} AllScoredKeepsAll(risks: seq<string>, scores: seq<Option<Json>>, n: nat)
    requires n <= |risks| && n <= |scores|
    requires forall k :: 0 <= k < n ==> scores[k].Some? && HasBothKeys(scores[k].value)
    ensures |Kept(risks, scores, n)| == n
    ensures forall k :: 0 <= k < n ==> Kept(risks, scores, n)[k].risk == risks[k]
    decreases n
  {
    if n > 0 {
      AllScoredKeepsAll(risks, scores, n - 1);
      var row := RowFor(risks[n - 1], scores[n - 1].value);
      assert Kept(risks, scores, n) == Kept(risks, scores, n - 1) + [row];
      assert row.risk == risks[n - 1];
    }
  }

  /** If no risk is scored, the matrix is empty (and `main` still saves it). */
  lemma {:induction false} NoneScoredKeepsNone(risks: seq<string>, scores: seq<Option<Json>>, n: nat)
    requires n <= |risks| && n <= |scores|
    requires forall k :: 0 <= k < n ==> scores[k].None?
    ensures Kept(risks, scores, n) == []
    decreases n
  {
    if n > 0 {
      NoneScoredKeepsNone(risks, scores, n - 1);
    }
  }

  /** The scores `main` obtains for its subset. */
  function SubsetScores(subset: seq<string>, generate: (nat, nat, string) -> Reply, decode: Decoder)
    : (scores: seq<Option<Json>>)
    ensures |scores| == |subset|
    ensures ScoresHaveKeys(scores)
  {
    var scores := seq(|subset|, k requires 0 <= k < |subset| => ItemScore(subset, k, generate, decode));
    assert forall k :: 0 <= k < |scores| && scores[k].Some? ==> HasBothKeys(scores[k].value) by {
      forall k | 0 <= k < |scores| && scores[k].Some?
        ensures HasBothKeys(scores[k].value)
      {
        SafeScoreAccepted(subset[k], DefaultRetries, CallsFor(generate, k), decode);
      }
    }
    scores
  }

  /**
   * `main()`: check the key, read the ticker, load its risks, and for each of
   * the first 200 call `safe_score_risk`, keep the scored ones, then save.
   * Also returns the number of model calls made.
   */
  method ScoreTickerRisks(apiKey: Option<string>, input: string, load: string -> LoadResult,
              generate: (nat, nat, string) -> Reply, decode: Decoder)
    returns (outcome: Outcome, calls: nat)
    ensures !KeyPresent(apiKey) ==> outcome == NoApiKey && calls == 0
    ensures outcome == RiskFileNotFound(Ticker(input)) <==> KeyPresent(apiKey) && load(Ticker(input)) == NotFound
    ensures outcome == RiskFileNotJson(Ticker(input)) <==> KeyPresent(apiKey) && load(Ticker(input)) == NotJson
    ensures !outcome.ScoreMissingKey?
    ensures outcome.Saved? <==> KeyPresent(apiKey) && load(Ticker(input)).Loaded?
    ensures outcome.Saved? ==>
      var subset := FirstRisks(load(Ticker(input)).risks);
      outcome == SaveMatrix(Ticker(input), Kept(subset, SubsetScores(subset, generate, decode), |subset|))
    ensures calls <= (DefaultRetries + 1) * ScoringCap
  {
    calls := 0;
    if !KeyPresent(apiKey) {
      return NoApiKey, calls;
    }
    var ticker := Ticker(input);
    var loaded := load(ticker);
    if loaded == NotFound {
      return RiskFileNotFound(ticker), calls;
    } else if loaded == NotJson {
      return RiskFileNotJson(ticker), calls;
    }
    var subset := FirstRisks(loaded.risks);
    var matrix;
    matrix, calls := ScoreSubset(subset, generate, decode);
    assert DefaultRetries + 1 == 3 && |subset| <= ScoringCap;
    assert calls <= 3 * ScoringCap;
    outcome := SaveMatrix(ticker, matrix);
    assert outcome.Saved?;
  }

  /** `main`'s loop over the subset: one `safe_score_risk` per risk, keeping those that scored. */
  method ScoreSubset(subset: seq<string>, generate: (nat, nat, string) -> Reply, decode: Decoder)
    returns (matrix: seq<Entry>, calls: nat)
    requires |subset| <= ScoringCap
    ensures matrix == Kept(subset, SubsetScores(subset, generate, decode), |subset|)
    ensures |subset| <= calls <= (DefaultRetries + 1) * |subset|
  {
    ghost var scores := SubsetScores(subset, generate, decode);
    matrix, calls := [], 0;
    var i := 0;
    while i < |subset|
      invariant 0 <= i <= |subset|
      invariant matrix == Kept(subset, scores, i)
      invariant i <= calls <= 3 * i
    {
      var score, n := ScoreItem(subset, i, generate, decode);
      calls := calls + n;
      KeptStep(subset, scores, i);
      if score.Some? && Truthy(score.value) {
        matrix := matrix + [RowFor(subset[i], score.value)];
      }
      i := i + 1;
    }
  }

  /** One iteration of `main`'s loop: the risk's score (truthy whenever it came back) and the calls it made. */
  method ScoreItem(subset: seq<string>, i: nat, generate: (nat, nat, string) -> Reply, decode: Decoder)
    returns (score: Option<Json>, calls: nat)
    requires i < |subset|
    ensures score == SubsetScores(subset, generate, decode)[i]
    ensures score.Some? ==> Truthy(score.value)
    ensures 1 <= calls <= DefaultRetries + 1
  {
    var sleeps;
    score, calls, sleeps := SafeScoreRisk(subset[i], DefaultRetries, CallsFor(generate, i), decode);
    assert score == ItemScore(subset, i, generate, decode);
    if score.Some? {
      SafeScoreAccepted(subset[i], DefaultRetries, CallsFor(generate, i), decode);
    }
  }

  /** One more risk adds its row when its score came back with both keys. */
  lemma KeptStep(risks: seq<string>, scores: seq<Option<Json>>, n: nat)
    requires n < |risks| && n < |scores|
    ensures Kept(risks, scores, n + 1) == Kept(risks, scores, n) +
      (if scores[n].Some? && HasBothKeys(scores[n].value) then [RowFor(risks[n], scores[n].value)] else [])
  {
  }
}
