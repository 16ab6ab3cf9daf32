/**
 * risk-extraction/extractor.py: fetch a company's news headlines, build the
 * risk prompt from them, and save the model's reply.
 *
 * Oracles: `feed(url)` is the list of entry titles `feedparser` gives for the
 * URL; `generate(prompt)` is the model's text (`None` when the call raises);
 * `template` is the prompt template file's content.
 */
module News {
  import opened Wrappers
  import opened Text
  import RiskMatrix

  const FeedBase: string := "https://news.google.com/rss/search?q="
  const HeadlineCap: nat := 15
  const NamePlaceholder: string := "{COMPANY_NAME}"
  const HeadlinesPlaceholder: string := "{HEADLINES}"

  /** `company_name.replace(" ", "+")`. */
  function Query(name: string): string {
    ReplaceAll(name, " ", "+")
  }

  /** The query is the name with every space, and nothing else, turned into `+`. */
  lemma QuerySpec(name: string)
    ensures |Query(name)| == |name|
    ensures forall i :: 0 <= i < |name| ==> Query(name)[i] == (if name[i] == ' ' then '+' else name[i])
    ensures ' ' !in Query(name)
  {
    ReplaceChar(name, ' ', '+');
  }

  function FeedUrl(name: string): string {
    FeedBase + Query(name)
  }

  /** `fetch_news_headlines(company_name)`: the first 15 titles, in feed order. */
  function FetchHeadlines(name: string, feed: string -> seq<string>): (headlines: seq<string>)
    ensures var titles := feed(FeedUrl(name));
      |headlines| == RiskMatrix.Min(|titles|, HeadlineCap) && headlines == titles[..|headlines|]
  {
    var titles := feed(FeedUrl(name));
    if |titles| <= HeadlineCap then titles else titles[..HeadlineCap]
  }

  /** `f"- {title}"` for each headline. */
  function Bullets(headlines: seq<string>): (lines: seq<string>)
    ensures |lines| == |headlines|
    ensures forall i :: 0 <= i < |headlines| ==> lines[i] == "- " + headlines[i]
  {
    seq(|headlines|, i requires 0 <= i < |headlines| => "- " + headlines[i])
  }

  /** `"\n".join(f"- {title}" for title in headlines)`. */
  function HeadlineText(headlines: seq<string>): string {
    Join("\n", Bullets(headlines))
  }

  /**
   * One bullet line per headline: the block has exactly one line break between
   * consecutive bullets (beyond any inside the titles), and none after the last.
   */
  lemma HeadlineTextLines(headlines: seq<string>)
    requires headlines != []
    ensures multiset(HeadlineText(headlines))['\n'] ==
      |headlines| - 1 + SumCount(Bullets(headlines), '\n')
    ensures HeadlineText(headlines)[..2] == "- "
  {
    JoinCount('\n', Bullets(headlines));
    JoinStartsWithFirst(Bullets(headlines));
  }

  lemma {:induction false} JoinStartsWithFirst(lines: seq<string>)
    requires lines != [] && |lines[0]| >= 2
    ensures |Join("\n", lines)| >= |lines[0]| && Join("\n", lines)[..|lines[0]|] == lines[0]
  {
    if |lines| > 1 {
      assert Join("\n", lines) == lines[0] + ("\n" + Join("\n", lines[1..]));
    }
  }

  /** The block ends with the last bullet: there is no trailing newline after it. */
  lemma {:induction false} HeadlineTextEnd(headlines: seq<string>)
    requires headlines != []
    ensures var text := HeadlineText(headlines);
      var last := "- " + headlines[|headlines| - 1];
      |text| >= |last| && text[|text| - |last|..] == last
    decreases |headlines|
  {
    var lines := Bullets(headlines);
    if |headlines| > 1 {
      HeadlineTextEnd(headlines[1..]);
      assert Bullets(headlines[1..]) == lines[1..];
      assert HeadlineText(headlines) == lines[0] + "\n" + HeadlineText(headlines[1..]);
    }
  }

  /**
   * `generate_risk_prompt(company_name, headlines)`: the company name is put in
   * first, then the headline block.
   */
  function RiskPrompt(template: string, name: string, headlines: seq<string>): string {
    ReplaceAll(ReplaceAll(template, NamePlaceholder, name), HeadlinesPlaceholder, HeadlineText(headlines))
  }

  /**
   * The order of the substitutions shows: a company name that itself reads
   * `{HEADLINES}` is then replaced by the headline block...
   */
  lemma NameSubstitutedFirst(headlines: seq<string>)
    ensures RiskPrompt(NamePlaceholder, HeadlinesPlaceholder, headlines) == HeadlineText(headlines)
  {
    var h := HeadlineText(headlines);
    assert NamePlaceholder[..|NamePlaceholder|] == NamePlaceholder;
    assert ReplaceAll(NamePlaceholder, NamePlaceholder, HeadlinesPlaceholder) ==
      HeadlinesPlaceholder + ReplaceAll([], NamePlaceholder, HeadlinesPlaceholder);
    assert HeadlinesPlaceholder[..|HeadlinesPlaceholder|] == HeadlinesPlaceholder;
    assert ReplaceAll(HeadlinesPlaceholder, HeadlinesPlaceholder, h) ==
      h + ReplaceAll([], HeadlinesPlaceholder, h);
  }

  /** ...while headlines are never searched for `{COMPANY_NAME}`: they are inserted last, as they are. */
  lemma HeadlinesInsertedAsTheyAre(name: string, headlines: seq<string>)
    ensures RiskPrompt(HeadlinesPlaceholder, name, headlines) == HeadlineText(headlines)
  {
    var h := HeadlineText(headlines);
    assert |HeadlinesPlaceholder| < |NamePlaceholder|;
    assert ReplaceAll(HeadlinesPlaceholder, NamePlaceholder, name) == HeadlinesPlaceholder;
    assert HeadlinesPlaceholder[..|HeadlinesPlaceholder|] == HeadlinesPlaceholder;
    assert ReplaceAll(HeadlinesPlaceholder, HeadlinesPlaceholder, h) ==
      h + ReplaceAll([], HeadlinesPlaceholder, h);
  }

  /** `f"data/processed/{company_name.replace(' ', '_')}_news_risks.json"`. */
  function OutputPath(name: string): string {
    "data/processed/" + ReplaceAll(name, " ", "_") + "_news_risks.json"
  }

  /** The file name carries the company name with every space turned into `_`. */
  lemma OutputPathSpec(name: string)
    ensures var stem := OutputPath(name)[|"data/processed/"|..|OutputPath(name)| - |"_news_risks.json"|];
      |stem| == |name| &&
      forall i :: 0 <= i < |name| ==> stem[i] == (if name[i] == ' ' then '_' else name[i])
  {
    ReplaceChar(name, ' ', '_');
    var mid := ReplaceAll(name, " ", "_");
    assert OutputPath(name) == "data/processed/" + mid + "_news_risks.json";
    assert OutputPath(name)[|"data/processed/"|..|OutputPath(name)| - |"_news_risks.json"|] == mid;
  }

  /** What `extract_risks_for_company` does. */
  datatype NewsRun =
    | NoHeadlines                                  // early return, nothing sent or saved
    | CallFailed(prompt: string)                   // the model call raised
    | Saved(path: string, prompt: string, risks: string)

  /** `extract_risks_for_company(company_name)`. */
  function ExtractRisksForCompany(name: string, feed: string -> seq<string>, template: string,
                                  generate: string -> Option<string>): (run: NewsRun)
    ensures run == NoHeadlines <==> feed(FeedUrl(name)) == []
    ensures run.Saved? <==>
      feed(FeedUrl(name)) != [] && generate(RiskPrompt(template, name, FetchHeadlines(name, feed))).Some?
    ensures run.CallFailed? <==>
      feed(FeedUrl(name)) != [] && generate(RiskPrompt(template, name, FetchHeadlines(name, feed))).None?
    ensures run.Saved? ==>
      run.path == OutputPath(name) &&
      run.prompt == RiskPrompt(template, name, FetchHeadlines(name, feed)) &&
      generate(run.prompt) == Some(run.risks)
  {
    var headlines := FetchHeadlines(name, feed);
    if headlines == [] then NoHeadlines
    else
      var prompt := RiskPrompt(template, name, headlines);
      match generate(prompt)
      case None => CallFailed(prompt)
      case Some(risks) => Saved(OutputPath(name), prompt, risks)
  }
}
