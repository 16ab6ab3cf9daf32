/**
 * The two extraction drivers, models/risk_extraction/final.py and
 * models/risk_extraction/10K-trial_extractor.py: find or download the
 * filings, concatenate their texts, chunk the text, ask the model for the
 * risks of each chunk (every chunk in the trial driver, 50 evenly spaced
 * chunks in the final one), and save the concatenation of the lists parsed.
 *
 * Oracles: `extract(path)` is the text of a filing; `encode`/`decodeTokens`
 * are the tokenizer; `generate(i, prompt)` is the model's text for the
 * `i`-th request (`None` when the call or reading its text raises); `decode`
 * is `json.loads`; `template` is the prompt template file's content.
 */
module Extraction {
  import Seqs
  import opened Wrappers
  import opened Text
  import opened Json
  import Chunker
  import RiskListParser
  import Filings
  import RiskMatrix

  const Placeholder: string := "{FILING_TEXT}"

  /** How much of a chunk goes into the prompt. */
  const ExcerptLength: nat := 4000

  /** `text_chunk[:4000]`. */
  function Excerpt(chunk: string): string {
    if |chunk| <= ExcerptLength then chunk else chunk[..ExcerptLength]
  }

  /** The excerpt is the chunk's prefix of at most 4000 characters. */
  lemma ExcerptIsPrefix(chunk: string)
    ensures |Excerpt(chunk)| == RiskMatrix.Min(|chunk|, ExcerptLength)
    ensures Excerpt(chunk) == chunk[..|Excerpt(chunk)|]
  {
  }

  /** `prompt_template.replace("{FILING_TEXT}", text_chunk[:4000])`. */
  function FillPrompt(template: string, chunk: string): string {
    ReplaceAll(template, Placeholder, Excerpt(chunk))
  }

  /**
   * Every placeholder occurrence is replaced by the excerpt: the prompt grows
   * by the excerpt's length less the placeholder's, once per occurrence; a
   * template without the placeholder is sent as it is.
   */
  lemma FillPromptReplacesEach(template: string, chunk: string)
    ensures |FillPrompt(template, chunk)| ==
      |template| + CountOccurrences(template, Placeholder) * (|Excerpt(chunk)| - |Placeholder|)
    ensures !Occurs(template, Placeholder) ==> FillPrompt(template, chunk) == template
  {
    ReplaceLength(template, Placeholder, Excerpt(chunk));
    if !Occurs(template, Placeholder) {
      ReplaceAbsent(template, Placeholder, Excerpt(chunk));
    }
  }

  /**
   * What one chunk adds to `all_risks`: the items of the parsed value, or
   * nothing when the call, the parse or the `extend` raises.
   */
  function ChunkRisks(reply: Option<string>, decode: Decoder): seq<Json> {
    match reply
    case None => []
    case Some(raw) =>
      match RiskListParser.ParseRisksJson(raw, decode)
      case Err(_) => []
      case Ok(v) =>
        match ExtendItems(v)
        case None => []
        case Some(items) => items
  }

  /** A reply that decodes to a list contributes exactly that list's items. */
  lemma ListReplyContributesItems(raw: string, decode: Decoder, items: seq<Json>)
    requires decode(raw) == Some(JArr(items))
    ensures ChunkRisks(Some(raw), decode) == items
  {
  }

  /** What each reply adds to `all_risks`. */
  function Contribution(decode: Decoder): Option<string> -> seq<Json> {
    reply => ChunkRisks(reply, decode)
  }

  /** `all_risks` after a run over the given replies: their contributions, in order. */
  function Accumulated(replies: seq<Option<string>>, decode: Decoder): seq<Json> {
    Seqs.Gather(replies, Contribution(decode))
  }

  /** Accumulation keeps chunk order: two runs back to back give the first's risks, then the second's. */
  lemma AccumulatedAppend(a: seq<Option<string>>, b: seq<Option<string>>, decode: Decoder)
    ensures Accumulated(a + b, decode) == Accumulated(a, decode) + Accumulated(b, decode)
  {
    Seqs.GatherAppend(a, b, Contribution(decode));
  }

  /** A failing chunk adds nothing and does not stop the run: removing it changes nothing. */
  lemma FailedChunkSkipped(a: seq<Option<string>>, reply: Option<string>, b: seq<Option<string>>, decode: Decoder)
    requires ChunkRisks(reply, decode) == []
    ensures Accumulated(a + [reply] + b, decode) == Accumulated(a + b, decode)
  {
    AccumulatedAppend(a + [reply], b, decode);
    AccumulatedAppend(a, [reply], decode);
    AccumulatedAppend(a, b, decode);
    AccumulatedSingle(reply, decode);
    assert Accumulated(a + [reply], decode) == Accumulated(a, decode);
  }

  lemma AccumulatedSingle(reply: Option<string>, decode: Decoder)
    ensures Accumulated([reply], decode) == ChunkRisks(reply, decode)
  {
    var f := Contribution(decode);
    assert [reply][..0] == [];
    assert Seqs.Gather([reply], f) == Seqs.Gather([], f) + f(reply);
  }

  /** The model's replies for the chunks, one request per chunk, in order. */
  function Replies(chunks: seq<string>, template: string, generate: (nat, string) -> Option<string>)
    : (replies: seq<Option<string>>)
    ensures |replies| == |chunks|
  {
    seq(|chunks|, i requires 0 <= i < |chunks| => generate(i, FillPrompt(template, chunks[i])))
  }

  /** The extraction loop: one request per chunk, the parsed risks appended, failures skipped. */
  method AccumulateRisks(chunks: seq<string>, template: string, generate: (nat, string) -> Option<string>,
                         decode: Decoder)
    returns (allRisks: seq<Json>)
    ensures allRisks == Accumulated(Replies(chunks, template, generate), decode)
  {
    ghost var replies := Replies(chunks, template, generate);
    allRisks := [];
    var i := 0;
    while i < |chunks|
      invariant 0 <= i <= |chunks|
      invariant allRisks == Accumulated(replies[..i], decode)
    {
      var reply := generate(i, FillPrompt(template, chunks[i]));
      assert reply == replies[i];
      assert replies[..i + 1][..i] == replies[..i];
      allRisks := allRisks + ChunkRisks(reply, decode);
      i := i + 1;
    }
    assert replies[..i] == replies;
  }

  /** The concatenated text of the filings, in filing order. */
  function FilingsText(files: seq<string>, extract: string -> string): string
    decreases |files|
  {
    if files == [] then "" else FilingsText(files[..|files| - 1], extract) + extract(files[|files| - 1])
  }

  /** Concatenation keeps filing order: each filing's text follows the text of those before it. */
  lemma {:induction false} FilingsTextAppend(a: seq<string>, b: seq<string>, extract: string -> string)
    ensures FilingsText(a + b, extract) == FilingsText(a, extract) + FilingsText(b, extract)
    ensures |FilingsText(a + b, extract)| == |FilingsText(a, extract)| + |FilingsText(b, extract)|
    decreases |b|
  {
    if b == [] {
      assert a + b == a;
    } else {
      var front, last := b[..|b| - 1], b[|b| - 1];
      Seqs.DropLastAppend(a, b);
      FilingsTextAppend(a, front, extract);
      calc {
        FilingsText(a + b, extract);
        FilingsText(a + front, extract) + extract(last);
        FilingsText(a, extract) + FilingsText(front, extract) + extract(last);
        FilingsText(a, extract) + (FilingsText(front, extract) + extract(last));
        FilingsText(a, extract) + FilingsText(b, extract);
      }
    }
  }

  /** `full_text += extract_text_from_filing(file_path)` over the filings. */
  method ConcatFilings(files: seq<string>, extract: string -> string) returns (text: string)
    ensures text == FilingsText(files, extract)
  {
    text := "";
    var i := 0;
    while i < |files|
      invariant 0 <= i <= |files|
      invariant text == FilingsText(files[..i], extract)
    {
      assert files[..i + 1][..i] == files[..i];
      text := text + extract(files[i]);
      i := i + 1;
    }
    assert files[..i] == files;
  }

  /** How many chunks the final driver selects. */
  const SelectionSize: nat := 50

  /** `np.linspace(0, n - 1, 50, dtype=int)`, with the float steps replaced by integer floors. */
  function Linspace(n: nat): seq<int>
    requires n >= 1
  {
    seq(SelectionSize, k requires 0 <= k < SelectionSize => (k * (n - 1)) / (SelectionSize - 1))
  }

  lemma MulMonotone(a: nat, b: nat, c: nat)
    requires a <= b
    ensures a * c <= b * c
  {
  }

  lemma DivMonotone(x: nat, y: nat, d: nat)
    requires x <= y && d >= 1
    ensures x / d <= y / d
  {
    if x / d > y / d {
      assert (x / d) * d <= x;
      assert y < (y / d + 1) * d;
      MulMonotone(y / d + 1, x / d, d);
      assert false;
    }
  }

  /**
   * Exactly 50 indices, non-decreasing, each a valid chunk index; the first is
   * 0 and the last is the last chunk.
   */
  lemma LinspaceSpec(n: nat)
    requires n >= 1
    ensures |Linspace(n)| == 50
    ensures forall k :: 0 <= k < 50 ==> 0 <= Linspace(n)[k] <= n - 1
    ensures forall k, k' :: 0 <= k <= k' < 50 ==> Linspace(n)[k] <= Linspace(n)[k']
    ensures Linspace(n)[0] == 0 && Linspace(n)[49] == n - 1
  {
    var idx := Linspace(n);
    forall k | 0 <= k < 50
      ensures 0 <= idx[k] <= n - 1
    {
      MulMonotone(k, 49, n - 1);
      DivMonotone(k * (n - 1), 49 * (n - 1), 49);
    }
    forall k, k' | 0 <= k <= k' < 50
      ensures idx[k] <= idx[k']
    {
      MulMonotone(k, k', n - 1);
      DivMonotone(k * (n - 1), k' * (n - 1), 49);
    }
  }

  /** `[chunks[i] for i in indices]` with the 50 evenly spaced indices. */
  function Selection(chunks: seq<string>): (selected: seq<string>)
    requires |chunks| >= 1
    ensures |selected| == SelectionSize
  {
    LinspaceSpec(|chunks|);
    var idx := Linspace(|chunks|);
    seq(SelectionSize, k requires 0 <= k < SelectionSize => chunks[idx[k]])
  }

  /** Fewer than 50 chunks are repeated, never skipped at the ends: the first and the last chunk are both selected. */
  lemma SelectionEnds(chunks: seq<string>)
    requires |chunks| >= 1
    ensures Selection(chunks)[0] == chunks[0] && Selection(chunks)[49] == chunks[|chunks| - 1]
  {
    LinspaceSpec(|chunks|);
  }

  /** The driver's input and its oracles. */
  datatype Sources = Sources(
    disk: Filings.Disk,
    extract: string -> string,
    encode: string -> seq<Chunker.Token>,
    decodeTokens: seq<Chunker.Token> -> string,
    template: string,
    generate: (nat, string) -> Option<string>,
    decode: Decoder)

  /** Why a run stopped, or what it saved. */
  datatype Run =
    | NoFilings                                 // "No filings found or downloaded."
    | EmptyText                                 // "Extracted text is empty."
    | NoChunks                                  // `chunks[0]` raised `IndexError`
    | Saved(path: string, risks: seq<Json>, requests: nat)

  /** The filings a run works on: the default call of `ensure_filings_exist`. */
  function FilesOf(ticker: string, src: Sources): seq<string> {
    Filings.Ensure(ticker, src.disk, 1, Filings.DefaultMaxAttempts).0
  }

  /** The chunks of a run's text. */
  function ChunksOf(text: string, src: Sources): seq<string> {
    Chunker.DecodeAll(Chunker.Windows(src.encode(text), Chunker.DefaultMaxTokens), src.decodeTokens)
  }

  /** Finding the filings and joining their texts, common to both drivers. */
  method GatherText(ticker: string, src: Sources) returns (text: Option<string>)
    ensures text.None? <==> FilesOf(ticker, src) == []
    ensures text.Some? ==> text.value == FilingsText(FilesOf(ticker, src), src.extract)
  {
    var files, _ := Filings.EnsureFilingsExist(ticker, src.disk, 1, Filings.DefaultMaxAttempts);
    if files == [] {
      return None;
    }
    var joined := ConcatFilings(files, src.extract);
    return Some(joined);
  }

  /**
   * `run_risk_pipeline` of 10K-trial_extractor.py: every chunk is sent, once,
   * in order, and the risks parsed are saved in that order.
   */
  method RunTrialPipeline(input: string, src: Sources) returns (run: Run)
    ensures var ticker := Upper(input);
      var files := FilesOf(ticker, src);
      (run == NoFilings <==> files == []) &&
      (run == EmptyText <==> files != [] && AllSpace(FilingsText(files, src.extract))) &&
      !run.NoChunks? &&
      (run.Saved? ==>
        var chunks := ChunksOf(FilingsText(files, src.extract), src);
        run.path == RiskMatrix.RisksPath(ticker) && run.requests == |chunks| &&
        run.risks == Accumulated(Replies(chunks, src.template, src.generate), src.decode))
  {
    var ticker := Upper(input);
    var text := GatherText(ticker, src);
    if text.None? {
      return NoFilings;
    }
    StripSpec(text.value);
    if Strip(text.value) == [] {
      return EmptyText;
    }
    var chunks := Chunker.ChunkText(text.value, Chunker.DefaultMaxTokens, src.encode, src.decodeTokens);
    var allRisks := AccumulateRisks(chunks, src.template, src.generate, src.decode);
    return Saved(RiskMatrix.RisksPath(ticker), allRisks, |chunks|);
  }

  /**
   * `run_risk_pipeline` of final.py: the same, but only 50 evenly spaced
   * chunks are sent; with no chunk at all the selection raises.
   */
  method RunFinalPipeline(input: string, src: Sources) returns (run: Run)
    ensures var ticker := Upper(input);
      var files := FilesOf(ticker, src);
      (run == NoFilings <==> files == []) &&
      (run == EmptyText <==> files != [] && AllSpace(FilingsText(files, src.extract))) &&
      (run.NoChunks? ==> ChunksOf(FilingsText(files, src.extract), src) == []) &&
      (run.Saved? ==>
        var chunks := ChunksOf(FilingsText(files, src.extract), src);
        |chunks| >= 1 && run.path == RiskMatrix.RisksPath(ticker) && run.requests == SelectionSize &&
        run.risks == Accumulated(Replies(Selection(chunks), src.template, src.generate), src.decode))
  {
    var ticker := Upper(input);
    var text := GatherText(ticker, src);
    if text.None? {
      return NoFilings;
    }
    StripSpec(text.value);
    if Strip(text.value) == [] {
      return EmptyText;
    }
    var chunks := Chunker.ChunkText(text.value, Chunker.DefaultMaxTokens, src.encode, src.decodeTokens);
    if |chunks| == 0 {
      return NoChunks;
    }
    var selected := Selection(chunks);
    var allRisks := AccumulateRisks(selected, src.template, src.generate, src.decode);
    return Saved(RiskMatrix.RisksPath(ticker), allRisks, |selected|);
  }

  /** A text that is not all whitespace has at least one token if the tokenizer gives one, and then at least one chunk. */
  lemma ChunksExist(text: string, src: Sources)
    requires src.encode(text) != []
    ensures |ChunksOf(text, src)| >= 1
  {
    Chunker.WindowsCount(src.encode(text), Chunker.DefaultMaxTokens);
  }
}
