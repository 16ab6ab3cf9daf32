/**
 * The band-constrained batch scorer of risk-extraction/risk_matrix_generator.py.
 *
 * Of N risks, 70% are asked for a low score, 28% for a medium score and the
 * rest for a high score; the band labels are shuffled, each risk is scored by
 * one model call, and a risk whose call or parse fails is given the score
 * `{"likelihood": 1, "impact": 1}`.
 *
 * Oracles: `generate(i, prompt)` is the reply text of the i-th model call
 * (`None` when the call or `response.text` raises); `roll(i)` is the random
 * draw `random.shuffle` makes for position `i`; `decode` is `json.loads`.
 */
module BandScorer {
  import opened Wrappers
  import opened Text
  import opened Json
  import Fence
  import opened RiskMatrix

  datatype Band = Low | Medium | High

  /**
   * `(n_low, n_med, n_high)`: the floors of 70% and 28% of `total`, and the
   * remainder. Computed exactly; see `FloatBandCounts` for the source's floats.
   */
  function BandCounts(total: nat): (c: (nat, nat, nat))
    ensures c.0 + c.1 + c.2 == total
    ensures 100 * c.0 <= 70 * total < 100 * (c.0 + 1)
    ensures 100 * c.1 <= 28 * total < 100 * (c.1 + 1)
  {
    var low := 70 * total / 100;
    var med := 28 * total / 100;
    (low, med, total - low - med)
  }

  /** The high band gets at least its 2% and less than two items more. */
  lemma HighBandShare(total: nat)
    ensures 2 * total <= 100 * BandCounts(total).2 < 2 * total + 200
  {
  }

  lemma BandCountsOfTen()
    ensures BandCounts(10) == (7, 2, 1)
  {
  }

  function Repeat<T>(x: T, n: nat): (r: seq<T>)
    ensures |r| == n && forall i :: 0 <= i < n ==> r[i] == x
  {
    seq(n, _ => x)
  }

  /** `['low'] * n_low + ['medium'] * n_med + ['high'] * n_high`. */
  function BandLabels(total: nat): seq<Band> {
    var c := BandCounts(total);
    Repeat(Low, c.0) + Repeat(Medium, c.1) + Repeat(High, c.2)
  }

  lemma RepeatCount<T>(x: T, n: nat, y: T)
    ensures multiset(Repeat(x, n))[y] == if x == y then n else 0
    decreases n
  {
    if n > 0 {
      assert Repeat(x, n) == Repeat(x, n - 1) + [x];
      RepeatCount(x, n - 1, y);
    }
  }

  /** The label list has one label per risk, with exactly the three counts. */
  lemma BandLabelsCounts(total: nat)
    ensures |BandLabels(total)| == total
    ensures multiset(BandLabels(total))[Low] == BandCounts(total).0
    ensures multiset(BandLabels(total))[Medium] == BandCounts(total).1
    ensures multiset(BandLabels(total))[High] == BandCounts(total).2
  {
    var c := BandCounts(total);
    assert multiset(BandLabels(total)) ==
      multiset(Repeat(Low, c.0)) + multiset(Repeat(Medium, c.1)) + multiset(Repeat(High, c.2));
    RepeatCount(Low, c.0, Low);
    RepeatCount(Medium, c.1, Low);
    RepeatCount(High, c.2, Low);
    RepeatCount(Low, c.0, Medium);
    RepeatCount(Medium, c.1, Medium);
    RepeatCount(High, c.2, Medium);
    RepeatCount(Low, c.0, High);
    RepeatCount(Medium, c.1, High);
    RepeatCount(High, c.2, High);
  }

  /**
   * `random.shuffle(x)`: for i from `len(x) - 1` down to 1, swap `x[i]` with
   * `x[j]` for a drawn `j` in `[0, i]`. Whatever the draws, the result is a
   * permutation of the input.
   */
  method Shuffle<T>(a: array<T>, roll: nat -> nat)
    modifies a
    ensures multiset(a[..]) == old(multiset(a[..]))
  {
    var i := a.Length - 1;
    while i >= 1
      invariant i < a.Length
      invariant multiset(a[..]) == old(multiset(a[..]))
      decreases i
    {
      var j := roll(i) % (i + 1);
      a[i], a[j] := a[j], a[i];
      i := i - 1;
    }
  }

  /** The inclusive score range each band asks for. */
  function BandRange(b: Band): (r: (nat, nat))
    ensures 1 <= r.0 <= r.1 <= 10
  {
    match b
    case Low => (1, 4)
    case Medium => (5, 8)
    case High => (9, 10)
  }

  /** The three ranges cover the scale 1..10 without overlapping. */
  lemma BandRangesPartitionScale(score: int)
    requires 1 <= score <= 10
    ensures exists b :: BandRange(b).0 <= score <= BandRange(b).1
    ensures forall b, b' :: (BandRange(b).0 <= score <= BandRange(b).1 &&
                             BandRange(b').0 <= score <= BandRange(b').1) ==> b == b'
  {
    if score <= 4 {
      assert BandRange(Low).0 <= score <= BandRange(Low).1;
    } else if score <= 8 {
      assert BandRange(Medium).0 <= score <= BandRange(Medium).1;
    } else {
      assert BandRange(High).0 <= score <= BandRange(High).1;
    }
  }

  /** `band_prompt_map[band]`. */
  const InstructionLead: string := "Likelihood and Impact must be between "

  function BandInstruction(b: Band): string {
    match b
    case Low => InstructionLead + "1 and 4."
    case Medium => InstructionLead + "5 and 8."
    case High => InstructionLead + "9 and 10."
  }

  /** Each instruction states exactly its band's range. */
  lemma BandInstructionStatesRange(b: Band)
    ensures BandInstruction(b) == "Likelihood and Impact must be between " +
      IntToString(BandRange(b).0) + " and " + IntToString(BandRange(b).1) + "."
  {
    match b
    case Low =>
      OneDigit(1, '1');
      OneDigit(4, '4');
    case Medium =>
      OneDigit(5, '5');
      OneDigit(8, '8');
    case High =>
      OneDigit(9, '9');
      OneDigit(1, '1');
      assert DigitChar(0) == '0';
      assert IntToString(10) == Digits(1) + [DigitChar(0)] == "10";
  }

  lemma OneDigit(n: nat, c: char)
    requires n < 10 && DigitChar(n) == c
    ensures IntToString(n) == [c]
  {
  }

  const PromptHead: string :=
    "You are a financial risk analyst scoring risks for a risk matrix.\n\n" +
    "Score the following business risk on a scale from 1 to 10 for:\n" +
    "- Likelihood: (1 = very unlikely, 10 = very likely)\n" +
    "- Impact: (1 = negligible loss, 10 = catastrophic loss)\n\n"

  const PromptFormat: string :=
    "\nRespond ONLY with JSON: { \"likelihood\": X, \"impact\": Y }\n\nRisk: \""

  /** A prompt made of a fixed head, the band's instruction, a fixed format line and the quoted risk. */
  function PromptWith(head: string, instruction: string, format: string, riskText: string): string {
    head + instruction + format + riskText + "\""
  }

  /**
   * The scoring prompt. The template begins with a line break before "You" and
   * ends with one after the closing quote, so `.strip()` removes exactly those two.
   */
  function ScoringPrompt(b: Band, riskText: string): string {
    PromptWith(PromptHead, BandInstruction(b), PromptFormat, riskText)
  }

  lemma PromptWithMentions(head: string, instruction: string, format: string, riskText: string)
    ensures Occurs(PromptWith(head, instruction, format, riskText), instruction)
    ensures Occurs(PromptWith(head, instruction, format, riskText), riskText)
  {
    OccursInMiddle(head, instruction, format + riskText + "\"");
    assert head + instruction + (format + riskText + "\"") == PromptWith(head, instruction, format, riskText);
    OccursInMiddle(head + instruction + format, riskText, "\"");
  }

  /** The prompt carries the band's instruction and the risk text itself. */
  lemma ScoringPromptMentions(b: Band, riskText: string)
    ensures Occurs(ScoringPrompt(b, riskText), BandInstruction(b))
    ensures Occurs(ScoringPrompt(b, riskText), riskText)
  {
    PromptWithMentions(PromptHead, BandInstruction(b), PromptFormat, riskText);
  }

  /**
   * `score_risk(prompt)` on the reply: `response.text.strip()`, through the
   * fence recovery, decoded. `None` when the call, the reply or the decoding raises.
   */
  function ScoreRisk(reply: Option<string>, decode: Decoder): Option<Json> {
    match reply
    case None => None
    case Some(text) => decode(Fence.JsonText(Strip(text)))
  }

  /**
   * The decoded text is the greedy `{...}` group of the left-most ```json fence
   * in the stripped reply when there is one, and the stripped reply otherwise.
   * There is no key and no range check: whatever decodes is returned.
   */
  lemma ScoreRiskDecodes(text: string, decode: Decoder)
    ensures Fence.FenceGroup(Strip(text)).None? ==> ScoreRisk(Some(text), decode) == decode(Strip(text))
    ensures Fence.FenceGroup(Strip(text)).Some? ==> exists p: nat, q: nat ::
      Fence.MatchAt(Strip(text), p, q) && (forall p': nat :: p' < p ==> !Fence.CanMatchAt(Strip(text), p')) &&
      ScoreRisk(Some(text), decode) == decode(Strip(text)[Fence.GroupStart(Strip(text), p)..q + 1])
  {
    Fence.FenceGroupIsLeftmostGreedy(Strip(text));
  }

  /** The score a failed item gets. */
  const Fallback: Json := JObj([("likelihood", JNum(1)), ("impact", JNum(1))])

  /** What `batched_score_risks` appends for one reply: the parsed value, or the fallback. */
  function ItemScore(reply: Option<string>, decode: Decoder): Json {
    match ScoreRisk(reply, decode)
    case None => Fallback
    case Some(v) => v
  }

  /**
   * A reply that is not JSON at all still yields a score: the fallback, which
   * has both keys, so pairing it with its risk never fails.
   */
  lemma FailureGivesUsableFallback(text: string, decode: Decoder)
    requires decode(Fence.JsonText(Strip(text))).None?
    ensures ItemScore(Some(text), decode) == Fallback
    ensures Index(Fallback, "likelihood") == Some(JNum(1)) && Index(Fallback, "impact") == Some(JNum(1))
  {
    var f := Fallback.fields;
    assert f[0].0 == "likelihood" && f[1].0 == "impact";
    assert HasField(f, "likelihood") && HasField(f, "impact");
  }

  /** A reply in any range is accepted as it is: the band is requested, never checked. */
  lemma NoRangeCheck(text: string, decode: Decoder, l: int, i: int)
    requires Fence.FenceGroup(Strip(text)).None?
    requires decode(Strip(text)) == Some(JObj([("likelihood", JNum(l)), ("impact", JNum(i))]))
    ensures ItemScore(Some(text), decode) == JObj([("likelihood", JNum(l)), ("impact", JNum(i))])
  {
  }

  /** The label list built from the counts, then shuffled in place. */
  method DrawBands(total: nat, roll: nat -> nat) returns (bands: seq<Band>)
    ensures |bands| == total
    ensures multiset(bands) == multiset(BandLabels(total))
  {
    var labels := BandLabels(total);
    BandLabelsCounts(total);
    var bandArray := new Band[total](k requires 0 <= k < total => labels[k]);
    assert bandArray[..] == labels;
    Shuffle(bandArray, roll);
    bands := bandArray[..];
  }

  /** The scoring loop: one model call per prompt, in order; the parsed score or the fallback. */
  method ScorePrompts(prompts: seq<string>, generate: (nat, string) -> Option<string>, decode: Decoder)
    returns (scored: seq<Json>)
    ensures |scored| == |prompts|
    ensures forall i :: 0 <= i < |prompts| ==> scored[i] == ItemScore(generate(i, prompts[i]), decode)
  {
    scored := [];
    var i := 0;
    while i < |prompts|
      invariant 0 <= i <= |prompts|
      invariant |scored| == i
      invariant forall k :: 0 <= k < i ==> scored[k] == ItemScore(generate(k, prompts[k]), decode)
    {
      var reply := generate(i, prompts[i]);
      var result := ScoreRisk(reply, decode);
      var score;
      match result {
        case Some(v) => score := v;
        case None => score := Fallback;
      }
      assert score == ItemScore(reply, decode);
      scored := scored + [score];
      i := i + 1;
    }
  }

  /**
   * `batched_score_risks(risk_texts)`: one label per risk, shuffled; one model
   * call per risk, in order, with the prompt for its band; the parsed score or
   * the fallback at the risk's own position. Also returns the shuffled labels.
   */
  method BatchedScoreRisks(riskTexts: seq<string>, roll: nat -> nat,
                           generate: (nat, string) -> Option<string>, decode: Decoder)
    returns (scored: seq<Json>, bands: seq<Band>)
    ensures |scored| == |riskTexts| && |bands| == |riskTexts|
    ensures multiset(bands) == multiset(BandLabels(|riskTexts|))
    ensures forall i :: 0 <= i < |riskTexts| ==>
      scored[i] == ItemScore(generate(i, ScoringPrompt(bands[i], riskTexts[i])), decode)
  {
    bands := DrawBands(|riskTexts|, roll);
    var prompts := seq(|riskTexts|, k requires 0 <= k < |riskTexts| => ScoringPrompt(bands[k], riskTexts[k]));
    scored := ScorePrompts(prompts, generate, decode);
  }

  /** Every risk got a label, so the shuffled labels keep the three counts. */
  lemma ShuffledBandsKeepCounts(riskTexts: seq<string>, bands: seq<Band>)
    requires multiset(bands) == multiset(BandLabels(|riskTexts|))
    ensures multiset(bands)[Low] == BandCounts(|riskTexts|).0
    ensures multiset(bands)[Medium] == BandCounts(|riskTexts|).1
    ensures multiset(bands)[High] == BandCounts(|riskTexts|).2
  {
    BandLabelsCounts(|riskTexts|);
  }

  /**
   * If every call fails, every risk gets the fallback score: the output still
   * has one score per risk.
   */
  lemma AllCallsFail(riskTexts: seq<string>, bands: seq<Band>, scored: seq<Json>,
                     generate: (nat, string) -> Option<string>, decode: Decoder)
    requires |scored| == |riskTexts| && |bands| == |riskTexts|
    requires forall i :: 0 <= i < |riskTexts| ==>
      scored[i] == ItemScore(generate(i, ScoringPrompt(bands[i], riskTexts[i])), decode)
    requires forall i, p :: generate(i, p).None?
    ensures forall i :: 0 <= i < |scored| ==> scored[i] == Fallback
  {
  }

  /** The row for each `(risk_text, score)` pair: both keys are read from the score. */
  predicate PairedAt(subset: seq<string>, scores: seq<Json>, matrix: seq<Entry>, k: nat)
    requires k < |subset| && k < |scores| && k < |matrix|
  {
    matrix[k].risk == subset[k] &&
    Index(scores[k], "likelihood") == Some(matrix[k].likelihood) &&
    Index(scores[k], "impact") == Some(matrix[k].impact)
  }

  /**
   * The `zip(subset, scored_values)` loop of `main`: pairs each risk with its
   * score by position; the first score without both keys raises.
   */
  method PairScores(subset: seq<string>, scores: seq<Json>) returns (r: Result<seq<Entry>, nat>)
    ensures r.Ok? <==> forall k :: 0 <= k < Min(|subset|, |scores|) ==> HasBothKeys(scores[k])
    ensures r.Ok? ==> (|r.value| == Min(|subset|, |scores|) &&
      forall k :: 0 <= k < |r.value| ==> PairedAt(subset, scores, r.value, k))
    ensures r.Err? ==> (r.error < Min(|subset|, |scores|) && !HasBothKeys(scores[r.error]) &&
      forall k :: 0 <= k < r.error ==> HasBothKeys(scores[k]))
  {
    var n := Min(|subset|, |scores|);
    var matrix: seq<Entry> := [];
    var i := 0;
    while i < n
      invariant 0 <= i <= n
      invariant |matrix| == i
      invariant forall k :: 0 <= k < i ==> HasBothKeys(scores[k]) && PairedAt(subset, scores, matrix, k)
    {
      if !HasBothKeys(scores[i]) {
        return Err(i);
      }
      matrix := matrix + [RowFor(subset[i], scores[i])];
      i := i + 1;
    }
    return Ok(matrix);
  }

  /** What `batched_score_risks` returns for `riskTexts`, given the shuffled labels `bands`. */
  ghost predicate ScoredBatch(riskTexts: seq<string>, scored: seq<Json>, bands: seq<Band>,
                              generate: (nat, string) -> Option<string>, decode: Decoder)
  {
    |scored| == |riskTexts| && |bands| == |riskTexts| &&
    multiset(bands) == multiset(BandLabels(|riskTexts|)) &&
    forall i :: 0 <= i < |riskTexts| ==>
      scored[i] == ItemScore(generate(i, ScoringPrompt(bands[i], riskTexts[i])), decode)
  }

  /**
   * The scoring part of `main`: `risks[:200]` are scored (`scores`, with the
   * shuffled labels `bands`) and each risk is paired with its score by
   * position. The pairing fails at the first score missing a key.
   */
  method ScoreFirstRisks(risks: seq<string>, roll: nat -> nat,
                         generate: (nat, string) -> Option<string>, decode: Decoder)
    returns (r: Result<seq<Entry>, nat>, ghost scores: seq<Json>, ghost bands: seq<Band>)
    ensures ScoredBatch(FirstRisks(risks), scores, bands, generate, decode)
    ensures r.Ok? <==> forall k :: 0 <= k < |scores| ==> HasBothKeys(scores[k])
    ensures r.Ok? ==> (|r.value| == |scores| &&
      forall k :: 0 <= k < |r.value| ==> PairedAt(risks, scores, r.value, k))
    ensures r.Err? ==> (r.error < |scores| && !HasBothKeys(scores[r.error]) &&
      forall k :: 0 <= k < r.error ==> HasBothKeys(scores[k]))
  {
    var subset := FirstRisks(risks);
    var scored, drawn := BatchedScoreRisks(subset, roll, generate, decode);
    scores, bands := scored, drawn;
    r := PairScores(subset, scored);
    if r.Ok? {
      forall k | 0 <= k < |r.value|
        ensures PairedAt(risks, scores, r.value, k)
      {
        assert PairedAt(subset, scores, r.value, k);
      }
    }
  }

  /**
   * `main()`: check the key, read the ticker, load its risks, score the first
   * 200, pair them with their scores and save the matrix as JSON and CSV.
   * `scores` and `bands` are what the scoring produced (empty when it did not run).
   */
  method ScoreTickerRisks(apiKey: Option<string>, input: string, load: string -> LoadResult, roll: nat -> nat,
              generate: (nat, string) -> Option<string>, decode: Decoder)
    returns (outcome: Outcome, ghost scores: seq<Json>, ghost bands: seq<Band>)
    ensures !KeyPresent(apiKey) <==> outcome == NoApiKey
    ensures outcome == RiskFileNotFound(Ticker(input)) <==> KeyPresent(apiKey) && load(Ticker(input)) == NotFound
    ensures outcome == RiskFileNotJson(Ticker(input)) <==> KeyPresent(apiKey) && load(Ticker(input)) == NotJson
    ensures outcome.RiskFileNotFound? || outcome.RiskFileNotJson? ==> outcome.ticker == Ticker(input)
    ensures outcome.Saved? <==> (KeyPresent(apiKey) && load(Ticker(input)).Loaded? &&
      forall k :: 0 <= k < |scores| ==> HasBothKeys(scores[k]))
    ensures KeyPresent(apiKey) && load(Ticker(input)).Loaded? ==>
      ScoredBatch(FirstRisks(load(Ticker(input)).risks), scores, bands, generate, decode)
    ensures !(KeyPresent(apiKey) && load(Ticker(input)).Loaded?) ==> scores == [] && bands == []
    ensures outcome.ScoreMissingKey? <==> exists k :: 0 <= k < |scores| && !HasBothKeys(scores[k])
    ensures outcome.ScoreMissingKey? ==> (outcome.index < |scores| && !HasBothKeys(scores[outcome.index]) &&
      forall k :: 0 <= k < outcome.index ==> HasBothKeys(scores[k]))
    ensures outcome.Saved? ==> (load(Ticker(input)).Loaded? &&
      var risks := load(Ticker(input)).risks;
      |outcome.matrix| == Min(|risks|, ScoringCap) &&
      (forall k :: 0 <= k < |outcome.matrix| ==> PairedAt(risks, scores, outcome.matrix, k)) &&
      outcome == SaveMatrix(Ticker(input), outcome.matrix))
  {
    scores, bands := [], [];
    if !KeyPresent(apiKey) {
      return NoApiKey, scores, bands;
    }
    var ticker := Ticker(input);
    var loaded := load(ticker);
    if loaded == NotFound {
      return RiskFileNotFound(ticker), scores, bands;
    } else if loaded == NotJson {
      return RiskFileNotJson(ticker), scores, bands;
    }
    var paired;
    paired, scores, bands := ScoreFirstRisks(loaded.risks, roll, generate, decode);
    if paired.Err? {
      return ScoreMissingKey(paired.error), scores, bands;
    }
    return SaveMatrix(ticker, paired.value), scores, bands;
  }

  // ---------------------------------------------------------------------
  // The band counts as the source computes them, in binary floating point.
  // ---------------------------------------------------------------------

  /** The double `0.70` is exactly `SeventyHundredths / 2^52`. */
  const SeventyHundredths: nat := 3152519739159347
  /** The double `0.28` is exactly `TwentyEightHundredths / 2^52`. */
  const TwentyEightHundredths: nat := 1261007895663739
  const TwoTo52: nat := 0x10_0000_0000_0000
  const TwoTo53: nat := 0x20_0000_0000_0000

  function Pow2(k: nat): (p: nat)
    ensures p >= 1
  {
    if k == 0 then 1 else 2 * Pow2(k - 1)
  }

  /** The number of low bits a double drops from `x`: it keeps 53 significant bits. */
  function DroppedBits(x: nat): nat
    decreases x
  {
    if x < TwoTo53 then 0 else 1 + DroppedBits(x / 2)
  }

  /** `x` rounded to the nearest double, ties to even. */
  function RoundToDouble(x: nat): nat {
    var unit := Pow2(DroppedBits(x));
    var q, r := x / unit, x % unit;
    if 2 * r > unit || (2 * r == unit && q % 2 == 1) then (q + 1) * unit else q * unit
  }

  /** `int(c * total)` for the double `c == m / 2^52`: the product is rounded, then truncated. */
  function FloatShare(m: nat, total: nat): nat {
    RoundToDouble(m * total) / TwoTo52
  }

  /** Past 2^53 a double drops low bits, but never more than `x / 2^52` worth of them. */
  lemma {:induction false} DroppedUnitBound(x: nat)
    ensures DroppedBits(x) == 0 || Pow2(DroppedBits(x)) * TwoTo52 <= x
    decreases x
  {
    if x >= TwoTo53 {
      DroppedUnitBound(x / 2);
      assert DroppedBits(x) == 1 + DroppedBits(x / 2);
      assert Pow2(DroppedBits(x)) == 2 * Pow2(DroppedBits(x / 2));
    }
  }

  /** Rounding `x` to a multiple of `unit` lands at most one unit above it. */
  lemma RoundStep(x: nat, unit: nat)
    requires unit >= 1
    ensures (x / unit) * unit <= x && (x / unit + 1) * unit <= x + unit
    ensures unit == 1 ==> x / unit == x && x % unit == 0
  {
    var q, r := x / unit, x % unit;
    assert x == q * unit + r;
    assert (q + 1) * unit == q * unit + unit;
  }

  /** Rounding to the nearest double raises a value by at most `x / 2^52`. */
  lemma RoundUpBound(x: nat)
    ensures RoundToDouble(x) * TwoTo52 <= x * (TwoTo52 + 1)
  {
    var unit := Pow2(DroppedBits(x));
    RoundStep(x, unit);
    DroppedUnitBound(x);
    assert RoundToDouble(x) <= x + unit;
    if DroppedBits(x) == 0 {
      assert RoundToDouble(x) == x;
    } else {
      assert unit * TwoTo52 <= x;
    }
  }

  /** `int(c * total)` scaled back: at most `x (2^52 + 1) / 2^104` for the exact product `x`. */
  lemma ShareBound(x: nat)
    ensures (RoundToDouble(x) / TwoTo52) * 20282409603651670423947251286016 <= x * 4503599627370497
  {
    RoundUpBound(x);
    var rx := RoundToDouble(x);
    var q := rx / TwoTo52;
    assert TwoTo52 == 4503599627370496;
    assert q * 4503599627370496 <= rx;
    assert q * 20282409603651670423947251286016 == (q * 4503599627370496) * 4503599627370496;
    assert rx * 4503599627370496 <= x * 4503599627370497;
  }

  /**
   * The two rounded shares never add up to more than `total`: 0.70 and 0.28 as
   * doubles sum to less than 0.99, far below what rounding could make up.
   */
  lemma FloatCountsFit(total: nat)
    ensures FloatShare(SeventyHundredths, total) + FloatShare(TwentyEightHundredths, total) <= total
  {
    var a, b := SeventyHundredths * total, TwentyEightHundredths * total;
    ShareBound(a);
    ShareBound(b);
    var low, med := FloatShare(SeventyHundredths, total), FloatShare(TwentyEightHundredths, total);
    assert a + b == total * 4413527634823086;
    assert (low + med) * 20282409603651670423947251286016 <= (a + b) * 4503599627370497;
    assert (low + med) * 20282409603651670423947251286016 <= total * 19876761411578641068707970893742;
  }

  /** `n_low`, `n_med`, `n_high` exactly as the source computes them: `n_high` is never negative. */
  function FloatBandCounts(total: nat): (c: (nat, nat, nat))
    ensures c.0 + c.1 + c.2 == total
  {
    var low := FloatShare(SeventyHundredths, total);
    var med := FloatShare(TwentyEightHundredths, total);
    FloatCountsFit(total);
    (low, med, total - low - med)
  }

  /**
   * For 90 risks, `0.70 * 90` is the double just below 63, so the source asks
   * for 62 low and 3 high scores where 70% is 63 low and 2 high.
   */
  lemma FloatCountsAtNinety()
    ensures FloatBandCounts(90) == (62, 25, 3)
    ensures BandCounts(90) == (63, 25, 2)
  {
    var x := SeventyHundredths * 90;
    assert x == 283726776524341230;
    assert DroppedBits(x) == 5 by {
      assert DroppedBits(x / 32) == 0;
      assert x / 32 == 8866461766385663;
      assert DroppedBits(x / 16) == 1 + DroppedBits(x / 32);
      assert DroppedBits(x / 8) == 1 + DroppedBits(x / 16);
      assert DroppedBits(x / 4) == 1 + DroppedBits(x / 8);
      assert DroppedBits(x / 2) == 1 + DroppedBits(x / 4);
    }
    assert Pow2(5) == 32;
    assert RoundToDouble(x) == 8866461766385663 * 32;
    var y := TwentyEightHundredths * 90;
    assert y == 113490710609736510;
    assert DroppedBits(y) == 4 by {
      assert y / 16 == 7093169413108531;
      assert DroppedBits(y / 16) == 0;
      assert DroppedBits(y / 8) == 1 + DroppedBits(y / 16);
      assert DroppedBits(y / 4) == 1 + DroppedBits(y / 8);
      assert DroppedBits(y / 2) == 1 + DroppedBits(y / 4);
    }
    assert Pow2(4) == 16;
    assert y % 16 == 14;
    assert RoundToDouble(y) == 7093169413108532 * 16;
  }
}
