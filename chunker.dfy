/**
 * `chunk_text` of models/risk_extraction/utils.py: the text is encoded into
 * tokens, the token sequence is cut into consecutive windows of `max_tokens`
 * tokens, and each window is decoded back to text.
 *
 * The tokenizer is an oracle: an `encode` and a `decode` function.
 */
module Chunker {

  type Token = int

  /** The default window size of `chunk_text`. */
  const DefaultMaxTokens: nat := 10000

  /** The token windows, in order: full windows of `m` tokens and a shorter remainder. */
  function Windows(tokens: seq<Token>, m: nat): seq<seq<Token>>
    requires m >= 1
    decreases |tokens|
  {
    if tokens == [] then []
    else if |tokens| <= m then [tokens]
    else [tokens[..m]] + Windows(tokens[m..], m)
  }

  /** Concatenation of a sequence of sequences. */
  function Flatten<T>(parts: seq<seq<T>>): seq<T>
    decreases |parts|
  {
    if parts == [] then [] else parts[0] + Flatten(parts[1..])
  }

  function DecodeAll(windows: seq<seq<Token>>, decode: seq<Token> -> string): (texts: seq<string>)
    ensures |texts| == |windows|
    ensures forall k :: 0 <= k < |windows| ==> texts[k] == decode(windows[k])
  {
    seq(|windows|, k requires 0 <= k < |windows| => decode(windows[k]))
  }

  /** `ceil(n / m)`. */
  function CeilDiv(n: nat, m: nat): nat
    requires m >= 1
  {
    (n + m - 1) / m
  }

  /**
   * `chunk_text(text, max_tokens)`: a loop over `range(0, len(tokens), max_tokens)`
   * that decodes the slice `tokens[i:i + max_tokens]` at each step.
   */
  method ChunkText(text: string, maxTokens: nat, encode: string -> seq<Token>, decode: seq<Token> -> string)
    returns (chunks: seq<string>)
    requires maxTokens >= 1
    ensures chunks == DecodeAll(Windows(encode(text), maxTokens), decode)
  {
    var tokens := encode(text);
    chunks := [];
    ghost var done: seq<seq<Token>> := [];
    var i := 0;
    while i < |tokens|
      invariant 0 <= i
      invariant i < |tokens| ==> Windows(tokens, maxTokens) == done + Windows(tokens[i..], maxTokens)
      invariant i >= |tokens| ==> Windows(tokens, maxTokens) == done
      invariant chunks == DecodeAll(done, decode)
      decreases |tokens| - i
    {
      // Python slicing clamps the end of the window to the end of the sequence.
      var end := if i + maxTokens <= |tokens| then i + maxTokens else |tokens|;
      var window := tokens[i..end];
      assert window == tokens[i..][..end - i];
      if end < |tokens| {
        assert tokens[i..][maxTokens..] == tokens[end..];
      } else {
        assert window == tokens[i..];
        assert Windows(tokens[i..], maxTokens) == [window];
      }
      done := done + [window];
      chunks := chunks + [decode(window)];
      i := i + maxTokens;
    }
  }

  /** No token is dropped, repeated or reordered: the windows concatenate to the input. */
  lemma {:induction false} WindowsConcatenate(tokens: seq<Token>, m: nat)
    requires m >= 1
    ensures Flatten(Windows(tokens, m)) == tokens
    decreases |tokens|
  {
    if |tokens| > m {
      WindowsConcatenate(tokens[m..], m);
      assert tokens == tokens[..m] + tokens[m..];
    } else if tokens != [] {
      assert Flatten([tokens]) == tokens + Flatten([]);
    }
  }

  /** There are `ceil(len(tokens) / m)` windows; empty input gives none. */
  lemma {:induction false} WindowsCount(tokens: seq<Token>, m: nat)
    requires m >= 1
    ensures |Windows(tokens, m)| == CeilDiv(|tokens|, m)
    decreases |tokens|
  {
    if |tokens| > m {
      WindowsCount(tokens[m..], m);
      var n := |tokens| - m;
      assert (n + m + m - 1) / m == (n + m - 1) / m + 1 by {
        DivShift(n + m - 1, m);
      }
    } else if tokens != [] {
      assert (|tokens| + m - 1) / m == 1 by {
        DivOne(|tokens| + m - 1, m);
      }
    }
  }

  /** Integer division is determined by quotient and remainder. */
  lemma DivUnique(a: int, m: int, q: int, r: int)
    requires m >= 1 && 0 <= r < m && a == q * m + r
    ensures a / m == q
  {
    var q', r' := a / m, a % m;
    assert a == q' * m + r';
    assert (q' - q) * m == r - r';
    if q' - q >= 1 {
      assert false;
    } else if q' - q <= -1 {
      assert false;
    }
  }

  lemma DivShift(a: nat, m: nat)
    requires m >= 1
    ensures (a + m) / m == a / m + 1
  {
    var q, r := a / m, a % m;
    assert a == q * m + r;
    DivUnique(a + m, m, q + 1, r);
  }

  lemma DivOne(a: nat, m: nat)
    requires m >= 1 && m <= a < 2 * m
    ensures a / m == 1
  {
    DivUnique(a, m, 1, a - m);
  }

  /** Every window but the last holds exactly `m` tokens; the last holds between 1 and `m`. */
  lemma {:induction false} WindowsSizes(tokens: seq<Token>, m: nat)
    requires m >= 1
    ensures forall k :: 0 <= k < |Windows(tokens, m)| - 1 ==> |Windows(tokens, m)[k]| == m
    ensures tokens != [] ==> 1 <= |Windows(tokens, m)[|Windows(tokens, m)| - 1]| <= m
    decreases |tokens|
  {
    if |tokens| > m {
      WindowsSizes(tokens[m..], m);
      var rest := Windows(tokens[m..], m);
      assert Windows(tokens, m) == [tokens[..m]] + rest;
      assert rest != [];
    }
  }

  /**
   * If decoding distributes over concatenation, the decoded chunks concatenate to
   * the tokenizer's own round trip of the whole text.
   */
  lemma ChunksReassemble(text: string, m: nat, encode: string -> seq<Token>, decode: seq<Token> -> string)
    requires m >= 1
    requires decode([]) == []
    requires forall a: seq<Token>, b: seq<Token> :: decode(a + b) == decode(a) + decode(b)
    ensures Flatten(DecodeAll(Windows(encode(text), m), decode)) == decode(encode(text))
  {
    WindowsConcatenate(encode(text), m);
    DecodeFlatten(Windows(encode(text), m), decode);
  }

  lemma {:induction false} DecodeFlatten(ws: seq<seq<Token>>, decode: seq<Token> -> string)
    requires decode([]) == []
    requires forall a: seq<Token>, b: seq<Token> :: decode(a + b) == decode(a) + decode(b)
    ensures Flatten(DecodeAll(ws, decode)) == decode(Flatten(ws))
    decreases |ws|
  {
    if ws != [] {
      DecodeFlatten(ws[1..], decode);
      assert DecodeAll(ws, decode)[1..] == DecodeAll(ws[1..], decode);
      assert decode(ws[0] + Flatten(ws[1..])) == decode(ws[0]) + decode(Flatten(ws[1..]));
    }
  }
}
