/**
 * What the two risk-matrix generators (risk-extraction/risk_matrix_generator.py
 * and models/risk_extraction/risk_matrix_generator.py) share: the matrix rows,
 * the CSV text `save_matrix` writes, and the outline of `main` (API key,
 * ticker, risk file, the first 200 risks, the outcome).
 */
module RiskMatrix {
  import opened Wrappers
  import opened Text
  import opened Json

  /** One matrix row: `{"risk": ..., "likelihood": ..., "impact": ...}`. */
  datatype Entry = Entry(risk: string, likelihood: Json, impact: Json)

  /** The CSV header line: the column names, then a line break. */
  const ColumnNames: string := "Risk,Likelihood,Impact"
  const Header: string := ColumnNames + "\n"
  const OutputDir: string := "data/matrix_output"

  function JsonPath(ticker: string): string {
    OutputDir + "/" + ticker + "_risk_matrix.json"
  }

  function CsvPath(ticker: string): string {
    OutputDir + "/" + ticker + "_risk_matrix.csv"
  }

  /** `f"\"{item['risk']}\",{item['likelihood']},{item['impact']}\n"`: the risk is quoted, not escaped. */
  function CsvLine(e: Entry): string {
    "\"" + e.risk + "\"," + Show(e.likelihood) + "," + Show(e.impact) + "\n"
  }

  function CsvLines(entries: seq<Entry>): string
    decreases |entries|
  {
    if entries == [] then "" else CsvLine(entries[0]) + CsvLines(entries[1..])
  }

  /** The CSV file: the header, then one line per entry, in matrix order. */
  function CsvText(entries: seq<Entry>): string {
    Header + CsvLines(entries)
  }

  /** Lines are written in matrix order: the lines of a concatenation are concatenated. */
  lemma {:induction false} CsvLinesAppend(a: seq<Entry>, b: seq<Entry>)
    ensures CsvLines(a + b) == CsvLines(a) + CsvLines(b)
    decreases |a|
  {
    if a != [] {
      assert (a + b)[0] == a[0] && (a + b)[1..] == a[1..] + b;
      CsvLinesAppend(a[1..], b);
      assert CsvLines(a + b) == CsvLine(a[0]) + CsvLines(a[1..] + b);
    } else {
      assert a + b == b;
    }
  }

  predicate IntegerScores(e: Entry) {
    e.likelihood.JNum? && e.impact.JNum?
  }

  /** With integer scores and a single-line risk, a line holds one line break: its last character. */
  lemma LineHasOneBreak(e: Entry)
    requires IntegerScores(e) && '\n' !in e.risk
    ensures multiset(CsvLine(e))['\n'] == 1
  {
    NoBreakInNumber(e.likelihood.n);
    NoBreakInNumber(e.impact.n);
    assert multiset(CsvLine(e)) == multiset("\"") + multiset(e.risk) + multiset("\",") +
      multiset(IntToString(e.likelihood.n)) + multiset(",") + multiset(IntToString(e.impact.n)) + multiset("\n");
  }

  lemma NoBreakInNumber(n: int)
    ensures multiset(IntToString(n))['\n'] == 0
  {
    var s := IntToString(n);
    assert forall i :: 0 <= i < |s| ==> s[i] != '\n';
    assert '\n' !in s;
  }

  /** With integer scores and single-line risks, the file holds exactly one line per entry after the header. */
  lemma {:induction false} CsvLineBreaks(entries: seq<Entry>)
    requires forall k :: 0 <= k < |entries| ==> IntegerScores(entries[k]) && '\n' !in entries[k].risk
    ensures multiset(CsvText(entries))['\n'] == |entries| + 1
  {
    var lines := CsvLines(entries);
    LinesBreaks(entries);
    HeaderHasOneBreak();
    assert CsvText(entries) == Header + lines;
    assert multiset(Header + lines) == multiset(Header) + multiset(lines);
  }

  lemma HeaderHasOneBreak()
    ensures multiset(Header)['\n'] == 1
  {
    assert '\n' !in multiset(ColumnNames);
    assert multiset(Header) == multiset(ColumnNames) + multiset("\n");
  }

  lemma {:induction false} LinesBreaks(entries: seq<Entry>)
    requires forall k :: 0 <= k < |entries| ==> IntegerScores(entries[k]) && '\n' !in entries[k].risk
    ensures multiset(CsvLines(entries))['\n'] == |entries|
    decreases |entries|
  {
    if entries != [] {
      LinesBreaks(entries[1..]);
      LineHasOneBreak(entries[0]);
      assert multiset(CsvLines(entries)) == multiset(CsvLine(entries[0])) + multiset(CsvLines(entries[1..]));
    }
  }

  /**
   * Because an embedded quote is not escaped, two different matrices can be
   * written as the same CSV text: a risk that carries `",x,y` and a line break
   * reads as two rows, so the format cannot always be read back.
   */
  lemma UnescapedQuotesAreAmbiguous(a: string, b: string, x: int, y: int, z: int, w: int)
    ensures var one := [Entry(a + "\"," + IntToString(x) + "," + IntToString(y) + "\n" + "\"" + b, JNum(z), JNum(w))];
      var two := [Entry(a, JNum(x), JNum(y)), Entry(b, JNum(z), JNum(w))];
      one != two && CsvText(one) == CsvText(two)
  {
    var one := [Entry(a + "\"," + IntToString(x) + "," + IntToString(y) + "\n" + "\"" + b, JNum(z), JNum(w))];
    var two := [Entry(a, JNum(x), JNum(y)), Entry(b, JNum(z), JNum(w))];
    assert |one| != |two|;
    assert CsvLines(one) == CsvLine(one[0]) + CsvLines([]);
    assert two[1..] == [two[1]] && two[1..][1..] == [];
    assert CsvLines(two[1..]) == CsvLine(two[1]) + CsvLines([]);
    assert CsvLines(two) == CsvLine(two[0]) + CsvLines(two[1..]);
    Regroup("\"", "\",", ",", "\n", a, b, IntToString(x), IntToString(y), IntToString(z), IntToString(w));
  }

  /** The single long line, regrouped into the two short ones. */
  lemma Regroup(q: string, c: string, m: string, n: string, a: string, b: string,
                X: string, Y: string, Z: string, W: string)
    ensures q + (a + c + X + m + Y + n + q + b) + c + Z + m + W + n ==
            (q + a + c + X + m + Y + n) + (q + b + c + Z + m + W + n)
  {
    var L1 := q + a + c + X + m + Y + n;
    assert q + (a + c + X + m + Y + n + q + b) == L1 + q + b by {
      assert q + (a + c) == q + a + c;
      assert q + (a + c + X) == q + a + c + X;
      assert q + (a + c + X + m) == q + a + c + X + m;
      assert q + (a + c + X + m + Y) == q + a + c + X + m + Y;
      assert q + (a + c + X + m + Y + n) == L1;
      assert q + (a + c + X + m + Y + n + q) == L1 + q;
    }
    assert L1 + (q + b) == L1 + q + b;
    assert L1 + (q + b + c) == L1 + q + b + c;
    assert L1 + (q + b + c + Z) == L1 + q + b + c + Z;
    assert L1 + (q + b + c + Z + m) == L1 + q + b + c + Z + m;
    assert L1 + (q + b + c + Z + m + W) == L1 + q + b + c + Z + m + W;
  }

  /** Python's truthiness of `os.getenv("GEMINI_API_KEY")`: set and non-empty. */
  predicate KeyPresent(apiKey: Option<string>) {
    apiKey.Some? && apiKey.value != []
  }

  /** `input("Enter company ticker: ").strip().upper()`. */
  function Ticker(input: string): string {
    Upper(Strip(input))
  }

  function RisksPath(ticker: string): string {
    "data/processed/" + ticker + "_risks.json"
  }

  /** What `load_risks` found: no file, text that is not JSON, or the list of risks. */
  datatype LoadResult = NotFound | NotJson | Loaded(risks: seq<string>)

  /** Only the first 200 risks are scored: `risks[:200]`. */
  const ScoringCap: nat := 200

  function Min(a: nat, b: nat): nat {
    if a <= b then a else b
  }

  /** `risks[:200]`: Python slicing clamps to the length. */
  function FirstRisks(risks: seq<string>): (subset: seq<string>)
    ensures |subset| == Min(|risks|, ScoringCap) && subset == risks[..|subset|]
  {
    if |risks| <= ScoringCap then risks else risks[..ScoringCap]
  }

  /** Why `main` stopped, or the matrix it saved. */
  datatype Outcome =
    | NoApiKey
    | RiskFileNotFound(ticker: string)
    | RiskFileNotJson(ticker: string)
    | ScoreMissingKey(index: nat)          // `score["likelihood"]` or `score["impact"]` raised: a KeyError
                                           // on a dict lacking the key, a TypeError on any other value
    | Saved(jsonPath: string, csvPath: string, matrix: seq<Entry>, csv: string)

  /** `save_matrix(ticker, matrix)`: the two files it writes, with the CSV text. */
  function SaveMatrix(ticker: string, matrix: seq<Entry>): (o: Outcome)
    ensures o.Saved? && o.matrix == matrix
  {
    Saved(JsonPath(ticker), CsvPath(ticker), matrix, CsvText(matrix))
  }

  /** A score the zip loop can read: `score["likelihood"]` and `score["impact"]` both succeed. */
  predicate HasBothKeys(score: Json) {
    Index(score, "likelihood").Some? && Index(score, "impact").Some?
  }

  /** The matrix row for a risk and a score with both keys. */
  function RowFor(risk: string, score: Json): (e: Entry)
    requires HasBothKeys(score)
    ensures e.risk == risk
    ensures Index(score, "likelihood") == Some(e.likelihood) && Index(score, "impact") == Some(e.impact)
  {
    Entry(risk, Index(score, "likelihood").value, Index(score, "impact").value)
  }
}
