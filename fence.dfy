/**
 * The markdown-fence recovery both `score_risk` functions share:
 * `re.search(r"```json\s*(\{.*\})\s*```", raw_text, re.DOTALL)`, whose group 1
 * is decoded when the pattern matches, and the whole text otherwise.
 */
module Fence {
  import opened Wrappers
  import opened Text

  const Opener: string := "```json"
  const Closer: string := "```"

  /** The first index at or after `i` that is not whitespace (or `|s|`). */
  function SkipSpace(s: string, i: nat): (k: nat)
    requires i <= |s|
    ensures i <= k <= |s|
    ensures forall j :: i <= j < k ==> IsSpace(s[j])
    ensures k < |s| ==> !IsSpace(s[k])
    decreases |s| - i
  {
    if i < |s| && IsSpace(s[i]) then SkipSpace(s, i + 1) else i
  }

  /** Where group 1 would start for a match beginning at `p`. */
  function GroupStart(s: string, p: nat): nat
    requires p + |Opener| <= |s|
  {
    SkipSpace(s, p + |Opener|)
  }

  /** "```json", optional whitespace, then `{`, at position `p`. */
  predicate OpensAt(s: string, p: nat) {
    p + |Opener| <= |s| && s[p..p + |Opener|] == Opener &&
    GroupStart(s, p) < |s| && s[GroupStart(s, p)] == '{'
  }

  /** A `}` at `q`, then optional whitespace, then "```". */
  predicate ClosesAt(s: string, q: nat) {
    q < |s| && s[q] == '}' &&
    var k := SkipSpace(s, q + 1);
    k + |Closer| <= |s| && s[k..k + |Closer|] == Closer
  }

  /** The pattern matches starting at `p` with group 1 ending at `q`. */
  predicate MatchAt(s: string, p: nat, q: nat) {
    OpensAt(s, p) && GroupStart(s, p) <= q && ClosesAt(s, q)
  }

  /** Some match of the pattern starts at `p`. */
  predicate CanMatchAt(s: string, p: nat) {
    OpensAt(s, p) && exists q :: GroupStart(s, p) <= q < |s| && ClosesAt(s, q)
  }

  /** The largest `q` in `[lo, hi)` at which the closing part matches: `.*` is greedy. */
  function LastClose(s: string, lo: nat, hi: nat): (r: Option<nat>)
    requires hi <= |s|
    ensures r.Some? ==> lo <= r.value < hi && ClosesAt(s, r.value) &&
                        forall q :: r.value < q < hi ==> !ClosesAt(s, q)
    ensures r.None? ==> forall q :: lo <= q < hi ==> !ClosesAt(s, q)
    decreases hi
  {
    if hi <= lo then None
    else if ClosesAt(s, hi - 1) then Some(hi - 1)
    else LastClose(s, lo, hi - 1)
  }

  /** The match `re.search` reports, scanning start positions from `from`: (start, group start, group end). */
  function FindFrom(s: string, from: nat): (r: Option<(nat, nat, nat)>)
    ensures r.Some? ==> from <= r.value.0 && MatchAt(s, r.value.0, r.value.2) &&
                        r.value.1 == GroupStart(s, r.value.0)
    ensures r.Some? ==> forall p :: from <= p < r.value.0 ==> !CanMatchAt(s, p)
    ensures r.Some? ==> forall q :: r.value.2 < q < |s| ==> !ClosesAt(s, q)
    ensures r.None? ==> forall p :: from <= p ==> !CanMatchAt(s, p)
    decreases |s| - from
  {
    if from + |Opener| > |s| then None
    else if OpensAt(s, from) && LastClose(s, GroupStart(s, from), |s|).Some? then
      Some((from, GroupStart(s, from), LastClose(s, GroupStart(s, from), |s|).value))
    else FindFrom(s, from + 1)
  }

  /** Group 1 of the fence pattern, if it matches anywhere. */
  function FenceGroup(s: string): (r: Option<string>)
    ensures r.Some? ==> |r.value| >= 2 && r.value[0] == '{' && r.value[|r.value| - 1] == '}'
  {
    match FindFrom(s, 0)
    case None => None
    case Some((_, g, q)) => Some(s[g..q + 1])
  }

  /** The string `score_risk` hands to the decoder: the fenced object, or the text itself. */
  function JsonText(raw: string): (r: string)
    ensures raw != [] ==> r != []
  {
    match FenceGroup(raw)
    case Some(group) => group
    case None => raw
  }

  /**
   * The group is what the regular expression reports: it belongs to the
   * left-most match and extends to the last possible closing brace.
   */
  lemma FenceGroupIsLeftmostGreedy(s: string)
    ensures FenceGroup(s).Some? <==> exists p: nat :: CanMatchAt(s, p)
    ensures FenceGroup(s).Some? ==>
      exists p: nat, q: nat :: MatchAt(s, p, q) && FenceGroup(s).value == s[GroupStart(s, p)..q + 1] &&
        (forall p': nat :: p' < p ==> !CanMatchAt(s, p')) &&
        (forall q': nat :: q < q' < |s| ==> !ClosesAt(s, q'))
  {
    var r := FindFrom(s, 0);
    if r.Some? {
      var p, g, q := r.value.0, r.value.1, r.value.2;
      assert CanMatchAt(s, p);
      assert MatchAt(s, p, q) && FenceGroup(s).value == s[GroupStart(s, p)..q + 1];
    }
  }

  /** A fenced object surrounded by prose. */
  const Example: string := "ok ```json {\"a\":1} ```"

  lemma ExampleOpensAtThree()
    ensures !OpensAt(Example, 0) && !OpensAt(Example, 1) && !OpensAt(Example, 2)
    ensures OpensAt(Example, 3) && GroupStart(Example, 3) == 11
  {
    var s := Example;
    assert s[3..10] == Opener;
    assert SkipSpace(s, 10) == 11;
  }

  lemma ExampleClosesAtSeventeen()
    ensures LastClose(Example, 11, 22) == Some(17)
  {
    var s := Example;
    assert SkipSpace(s, 18) == 19;
    assert s[19..22] == Closer;
    assert ClosesAt(s, 17);
    assert !ClosesAt(s, 21) && !ClosesAt(s, 20) && !ClosesAt(s, 19) && !ClosesAt(s, 18);
  }

  /** The fenced object is found. */
  lemma FencedExample()
    ensures FenceGroup(Example) == Some("{\"a\":1}")
  {
    var s := Example;
    ExampleOpensAtThree();
    ExampleClosesAtSeventeen();
    assert FindFrom(s, 3) == Some((3, 11, 17));
    assert FindFrom(s, 0) == Some((3, 11, 17));
    assert s[11..18] == "{\"a\":1}";
  }
}
