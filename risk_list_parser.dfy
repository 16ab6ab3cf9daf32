/**
 * `parse_risks_json` of models/risk_extraction/utils.py: decode the whole
 * response; if that fails, decode the span the non-greedy pattern `(\[.*?\])`
 * (with DOTALL) finds; if there is no such span, or it does not decode either,
 * raise.
 */
module RiskListParser {
  import opened Wrappers
  import opened Json

  /** The two `ValueError`s the parser raises. */
  datatype ParseError =
    | NoJsonArray          // "No JSON array found in response."
    | CleanedJsonInvalid   // "Failed to parse cleaned JSON: ..."

  /** The pattern `\[.*?\]` matches `s[i..j + 1]`: it starts at a `[` and ends at the first `]` after it. */
  predicate LazyMatchAt(s: string, i: int, j: int) {
    0 <= i < j < |s| && s[i] == '[' && s[j] == ']' &&
    forall k :: i < k < j ==> s[k] != ']'
  }

  /** Some `[` is followed, somewhere later, by a `]`. */
  predicate HasBracketPair(s: string) {
    exists i, j :: 0 <= i < j < |s| && s[i] == '[' && s[j] == ']'
  }

  /** The first index at or after `from` holding `c`. */
  function IndexOf(s: string, c: char, from: nat): (r: Option<nat>)
    ensures r.Some? ==> from <= r.value < |s| && s[r.value] == c &&
                        forall k :: from <= k < r.value ==> s[k] != c
    ensures r.None? ==> forall k :: from <= k < |s| ==> s[k] != c
    decreases |s| - from
  {
    if from >= |s| then None
    else if s[from] == c then Some(from)
    else IndexOf(s, c, from + 1)
  }

  /**
   * `re.search(r"(\[.*?\])", s, re.DOTALL)`: the match begins at the left-most
   * position where a match is possible and, being lazy, ends at the first `]`.
   */
  function BracketSpan(s: string): (r: Option<(nat, nat)>)
    ensures r.Some? ==> LazyMatchAt(s, r.value.0, r.value.1)
    ensures r.Some? ==> forall k :: 0 <= k < r.value.0 ==> s[k] != '['
  {
    match IndexOf(s, '[', 0)
    case None => None
    case Some(i) =>
      match IndexOf(s, ']', i + 1)
      case None => None
      case Some(j) => Some((i, j))
  }

  /** A span exists exactly when some `[` has a `]` after it. */
  lemma BracketSpanExists(s: string)
    ensures BracketSpan(s).Some? <==> HasBracketPair(s)
  {
    if HasBracketPair(s) {
      var a, b :| 0 <= a < b < |s| && s[a] == '[' && s[b] == ']';
      var first := IndexOf(s, '[', 0);
      assert first.Some?;
      assert first.value <= a;
      assert IndexOf(s, ']', first.value + 1).Some?;
    }
  }

  /** No match of the pattern starts before the span, and none ending earlier starts at it. */
  lemma BracketSpanLeftmostShortest(s: string)
    requires BracketSpan(s).Some?
    ensures forall i, j :: 0 <= i < BracketSpan(s).value.0 && i < j < |s| ==> !LazyMatchAt(s, i, j)
    ensures forall j :: BracketSpan(s).value.0 < j < BracketSpan(s).value.1 ==> s[j] != ']'
  {
  }

  /** `parse_risks_json(raw)`: the decoded value, whatever its type, or the error raised. */
  function ParseRisksJson(raw: string, decode: Decoder): (r: Result<Json, ParseError>)
    ensures decode(raw).Some? ==> r == Ok(decode(raw).value)
    ensures r == Err(NoJsonArray) <==> decode(raw).None? && !HasBracketPair(raw)
    ensures decode(raw).None? && BracketSpan(raw).Some? ==>
      var (i, j) := BracketSpan(raw).value;
      r == (if decode(raw[i..j + 1]).Some? then Ok(decode(raw[i..j + 1]).value) else Err(CleanedJsonInvalid))
    ensures r == Err(CleanedJsonInvalid) <==>
      decode(raw).None? && BracketSpan(raw).Some? &&
      decode(raw[BracketSpan(raw).value.0..BracketSpan(raw).value.1 + 1]).None?
  {
    BracketSpanExists(raw);
    match decode(raw)
    case Some(v) => Ok(v)
    case None =>
      match BracketSpan(raw)
      case None => Err(NoJsonArray)
      case Some((i, j)) =>
        match decode(raw[i..j + 1])
        case Some(v) => Ok(v)
        case None => Err(CleanedJsonInvalid)
  }

  /** A response with prose around the list: the span is exactly the bracketed list. */
  lemma ProseAroundList(decode: Decoder)
    ensures var list := "[\"A risk\", \"Another risk\"]";
      var raw := "Here is the list: " + list;
      BracketSpan(raw) == Some((18, 43)) &&
      (decode(raw).None? ==>
        ParseRisksJson(raw, decode) == (if decode(list).Some? then Ok(decode(list).value) else Err(CleanedJsonInvalid)))
  {
    var list := "[\"A risk\", \"Another risk\"]";
    var raw := "Here is the list: " + list;
    assert |raw| == 44;
    assert raw[18] == '[' && raw[43] == ']';
    assert forall k :: 0 <= k < 18 ==> raw[k] != '[';
    assert forall k :: 18 < k < 43 ==> raw[k] != ']';
    assert raw[18..44] == list;
  }

  /** Text without brackets that does not decode raises "No JSON array found". */
  lemma NoBrackets(decode: Decoder)
    requires decode("no brackets here").None?
    ensures ParseRisksJson("no brackets here", decode) == Err(NoJsonArray)
  {
    var s := "no brackets here";
    assert forall k :: 0 <= k < |s| ==> s[k] != '[';
  }

  /**
   * The lazy span stops at the first `]`, even one inside a quoted risk: the
   * fallback then decodes a truncated list.
   */
  lemma LazySpanStopsAtFirstBracket()
    ensures BracketSpan("x [\"a]\", \"b\"]") == Some((2, 5))
  {
    var s := "x [\"a]\", \"b\"]";
    assert s[2] == '[' && s[5] == ']';
    assert s[0] != '[' && s[1] != '[';
    assert s[3] != ']' && s[4] != ']';
  }

  /**
   * The span starts at the left-most `[`, even when a later `[` would give a
   * list that decodes: `x[[1]` is retried as `[[1]`, never as `[1]`.
   */
  lemma LeftmostBracketWins(decode: Decoder)
    requires decode("x[[1]").None? && decode("[[1]").None?
    ensures BracketSpan("x[[1]") == Some((1, 4))
    ensures ParseRisksJson("x[[1]", decode) == Err(CleanedJsonInvalid)
  {
    var s := "x[[1]";
    assert s[0] != '[' && s[1] == '[';
    assert s[2] != ']' && s[3] != ']' && s[4] == ']';
    assert s[1..5] == "[[1]";
  }
}
