/** The research agent's three LLM-backed steps (agents/researcher.py): decomposing the main
    question into sub-questions, researching one sub-question over web-search results, and
    writing the final report. The language model and the search engine are oracle functions. */
module Researcher {
  import opened Wrappers
  import opened Strs

  /** One web-search hit as the search tool returns it. */
  datatype SearchHit = SearchHit(url: string, content: string)

  /** What `run_researcher` returns: `{"sub_question": ..., "summary": ...}`. */
  datatype ResearchResult = ResearchResult(subQuestion: string, summary: string)

  /** The search tool is created with `max_results=5`. */
  const MaxSearchResults: nat := 5

  /** Oracle types. A search takes the query, the API key and the result limit; the summariser
      takes the sub-question and the context; the writer takes the main question and the
      formatted summaries; the decomposer takes the main question. */
  type Search = (string, string, nat) -> Result<seq<SearchHit>>
  type Summarizer = (string, string) -> Result<string>
  type Writer = (string, string) -> Result<string>
  type Decomposer = string -> Result<string>

  /** The comprehension `[q.strip() for q in lines if q.strip()]`. */
  function CleanLines(lines: seq<string>): seq<string>
  {
    if lines == [] then []
    else
      var q := Strip(lines[0]);
      (if q != "" then [q] else []) + CleanLines(lines[1..])
  }

  /** Every kept line is non-empty and stripped, and no line is invented. */
  lemma {:induction false} CleanLinesClean(lines: seq<string>)
    ensures |CleanLines(lines)| <= |lines|
    ensures forall k :: 0 <= k < |CleanLines(lines)| ==>
      CleanLines(lines)[k] != "" && IsStripped(CleanLines(lines)[k])
  {
    if lines != [] {
      CleanLinesClean(lines[1..]);
      StripIsStripped(lines[0]);
      var q := Strip(lines[0]);
      var rest := CleanLines(lines[1..]);
      assert CleanLines(lines) == (if q != "" then [q] else []) + rest;
    }
  }

  /** Order is preserved: cleaning distributes over concatenation. */
  lemma {:induction false} CleanLinesAppend(a: seq<string>, b: seq<string>)
    ensures CleanLines(a + b) == CleanLines(a) + CleanLines(b)
  {
    if a != [] {
      var head := if Strip(a[0]) != "" then [Strip(a[0])] else [];
      assert (a + b)[0] == a[0];
      assert (a + b)[1..] == a[1..] + b;
      assert CleanLines(a + b) == head + CleanLines(a[1..] + b);
      assert CleanLines(a) == head + CleanLines(a[1..]);
      CleanLinesAppend(a[1..], b);
      assert head + (CleanLines(a[1..]) + CleanLines(b)) == (head + CleanLines(a[1..])) + CleanLines(b);
    } else {
      assert a + b == b;
    }
  }

  /** A single line yields its stripped text, or nothing when it is blank. */
  lemma CleanLinesOne(line: string)
    ensures CleanLines([line]) == if IsBlank(line) then [] else [Strip(line)]
  {
    StripEmptyIffBlank(line);
    assert [line][1..] == [];
  }

  /** Every line that is not blank contributes; the result is empty exactly when all are blank. */
  lemma {:induction false} CleanLinesEmptyIffAllBlank(lines: seq<string>)
    ensures CleanLines(lines) == [] <==> forall k :: 0 <= k < |lines| ==> IsBlank(lines[k])
  {
    if lines != [] {
      CleanLinesEmptyIffAllBlank(lines[1..]);
      StripEmptyIffBlank(lines[0]);
      assert forall k :: 1 <= k < |lines| ==> lines[k] == lines[1..][k - 1];
    }
  }

  /** The post-processing of `get_sub_questions`: the non-blank lines of the stripped output,
      each stripped, in order. */
  function SubQuestionsOf(output: string): seq<string>
  {
    CleanLines(Split(Strip(output), '\n'))
  }

  /** Every sub-question is non-empty and has no surrounding whitespace. */
  lemma SubQuestionsClean(output: string)
    ensures forall k :: 0 <= k < |SubQuestionsOf(output)| ==>
      SubQuestionsOf(output)[k] != "" && IsStripped(SubQuestionsOf(output)[k])
  {
    CleanLinesClean(Split(Strip(output), '\n'));
  }

  /** `get_sub_questions`: one decomposer call, then line post-processing; a failing call raises. */
  function GetSubQuestions(mainQuestion: string, decompose: Decomposer): (r: Result<seq<string>>)
    ensures r.Err? <==> decompose(mainQuestion).Err?
    ensures r.Ok? ==> r.value == SubQuestionsOf(decompose(mainQuestion).value)
  {
    var out :- decompose(mainQuestion);
    Ok(SubQuestionsOf(out))
  }

  /** A sub-question list written one per line comes back unchanged. */
  lemma {:induction false} SubQuestionsRoundTrip(qs: seq<string>)
    requires |qs| >= 1
    requires forall k :: 0 <= k < |qs| ==> qs[k] != "" && IsStripped(qs[k]) && '\n' !in qs[k]
    ensures SubQuestionsOf(Join(qs, "\n")) == qs
  {
    var text := Join(qs, "\n");
    JoinStripped(qs);
    StripOfStripped(text);
    SplitJoin(qs, '\n');
    forall k | 0 <= k < |qs| ensures Strip(qs[k]) == qs[k] {
      StripOfStripped(qs[k]);
    }
    CleanLinesOfClean(qs);
  }

  /** Lines that are already non-empty and their own `strip()` are kept as they are. */
  lemma {:induction false} CleanLinesOfClean(qs: seq<string>)
    requires forall k :: 0 <= k < |qs| ==> qs[k] != "" && Strip(qs[k]) == qs[k]
    ensures CleanLines(qs) == qs
  {
    if qs != [] {
      var rest := qs[1..];
      CleanLinesOfClean(rest);
      assert CleanLines(qs) == [qs[0]] + rest;
      assert qs == [qs[0]] + rest;
    }
  }

  /** Joining stripped, non-empty lines with a newline gives a stripped text. */
  lemma {:induction false} JoinStripped(qs: seq<string>)
    requires |qs| >= 1
    requires forall k :: 0 <= k < |qs| ==> qs[k] != "" && IsStripped(qs[k])
    ensures IsStripped(Join(qs, "\n"))
  {
    if |qs| > 1 {
      JoinStripped(qs[1..]);
      var rest := Join(qs[1..], "\n");
      assert Join(qs, "\n") == qs[0] + "\n" + rest;
      assert rest != [] by { JoinLength(qs[1..], "\n"); }
    }
  }

  /** One `"URL: {url}\nContent: {content}"` block. */
  function HitBlock(h: SearchHit): string {
    "URL: " + h.url + "\nContent: " + h.content
  }

  function HitBlocks(hits: seq<SearchHit>): (r: seq<string>)
    ensures |r| == |hits|
    ensures forall k :: 0 <= k < |hits| ==> r[k] == HitBlock(hits[k])
  {
    seq(|hits|, k requires 0 <= k < |hits| => HitBlock(hits[k]))
  }

  /** The search context: one block per hit, in search order, separated by a blank line. */
  function BuildContext(hits: seq<SearchHit>): string {
    Join(HitBlocks(hits), "\n\n")
  }

  /** No hits give an empty context; each further hit appends its block after a blank line. */
  lemma ContextShape(hits: seq<SearchHit>, h: SearchHit)
    ensures BuildContext([]) == ""
    ensures BuildContext([h]) == HitBlock(h)
    ensures BuildContext(hits + [h]) ==
      if hits == [] then HitBlock(h) else BuildContext(hits) + "\n\n" + HitBlock(h)
  {
    assert HitBlocks(hits + [h]) == HitBlocks(hits) + [HitBlock(h)];
    JoinSnoc(HitBlocks(hits), HitBlock(h), "\n\n");
  }

  /** `run_researcher`: search (limit 5), build the context, summarise; the result pairs the
      unchanged sub-question with the summary. Either call failing makes the whole call fail. */
  function RunResearcher(subQuestion: string, apiKey: string, search: Search, summarize: Summarizer)
    : (r: Result<ResearchResult>)
    ensures r.Ok? <==>
      search(subQuestion, apiKey, MaxSearchResults).Ok?
      && summarize(subQuestion, BuildContext(search(subQuestion, apiKey, MaxSearchResults).value)).Ok?
    ensures r.Ok? ==> r.value.subQuestion == subQuestion
    ensures r.Ok? ==> (r.value.summary ==
      summarize(subQuestion, BuildContext(search(subQuestion, apiKey, MaxSearchResults).value)).value)
  {
    var hits :- search(subQuestion, apiKey, MaxSearchResults);
    var summary :- summarize(subQuestion, BuildContext(hits));
    Ok(ResearchResult(subQuestion, summary))
  }

  /** `asyncio.gather` over `run_researcher`, one task per sub-question. */
  function GatherResearch(subQuestions: seq<string>, apiKey: string, search: Search, summarize: Summarizer)
    : Result<seq<ResearchResult>>
  {
    if subQuestions == [] then Ok([])
    else
      match RunResearcher(subQuestions[0], apiKey, search, summarize)
      case Err(e) => Err(e)
      case Ok(first) =>
        match GatherResearch(subQuestions[1..], apiKey, search, summarize)
        case Err(e) => Err(e)
        case Ok(rest) => Ok([first] + rest)
  }

  /** The gather succeeds exactly when every sub-research does; its results come back in
      sub-question order, each paired with its own sub-question; a failure is the first failing
      sub-research's, in list order. */
  lemma {:induction false} GatherResearchSpec(subQuestions: seq<string>, apiKey: string, search: Search,
                                              summarize: Summarizer)
    ensures var r := GatherResearch(subQuestions, apiKey, search, summarize);
      && (r.Ok? <==> forall i :: 0 <= i < |subQuestions| ==>
            RunResearcher(subQuestions[i], apiKey, search, summarize).Ok?)
      && (r.Ok? ==> |r.value| == |subQuestions|)
      && (r.Ok? ==> forall i :: 0 <= i < |subQuestions| ==>
            r.value[i] == RunResearcher(subQuestions[i], apiKey, search, summarize).value
            && r.value[i].subQuestion == subQuestions[i])
      && (r.Err? ==>
            exists i :: 0 <= i < |subQuestions|
              && RunResearcher(subQuestions[i], apiKey, search, summarize) == Err(r.error)
              && forall j :: 0 <= j < i ==> RunResearcher(subQuestions[j], apiKey, search, summarize).Ok?)
  {
    if subQuestions != [] {
      var tail := subQuestions[1..];
      GatherResearchSpec(tail, apiKey, search, summarize);
      assert forall i :: 1 <= i < |subQuestions| ==> subQuestions[i] == tail[i - 1];
      match RunResearcher(subQuestions[0], apiKey, search, summarize)
      case Err(e) =>
      case Ok(first) =>
        match GatherResearch(tail, apiKey, search, summarize)
        case Err(e) =>
          var i :| 0 <= i < |tail|
            && RunResearcher(tail[i], apiKey, search, summarize) == Err(e)
            && forall j :: 0 <= j < i ==> RunResearcher(tail[j], apiKey, search, summarize).Ok?;
          assert RunResearcher(subQuestions[i + 1], apiKey, search, summarize) == Err(e);
        case Ok(rest) =>
    }
  }

  /** One `"### {sub_question}\n{summary}"` section. */
  function Section(res: ResearchResult): string {
    "### " + res.subQuestion + "\n" + res.summary
  }

  function Sections(results: seq<ResearchResult>): (r: seq<string>)
    ensures |r| == |results|
    ensures forall k :: 0 <= k < |results| ==> r[k] == Section(results[k])
  {
    seq(|results|, k requires 0 <= k < |results| => Section(results[k]))
  }

  /** The summaries handed to the writer: one section per result, in order, blank-line separated. */
  function FormatSummaries(results: seq<ResearchResult>): string {
    Join(Sections(results), "\n\n")
  }

  lemma FormatSummariesShape(results: seq<ResearchResult>, res: ResearchResult)
    ensures FormatSummaries([]) == ""
    ensures FormatSummaries(results + [res]) ==
      if results == [] then Section(res) else FormatSummaries(results) + "\n\n" + Section(res)
  {
    assert Sections(results + [res]) == Sections(results) + [Section(res)];
    JoinSnoc(Sections(results), Section(res), "\n\n");
  }

  /** `write_report`: the writer sees the main question unchanged and the formatted summaries. */
  function WriteReport(results: seq<ResearchResult>, mainQuestion: string, writer: Writer): Result<string> {
    writer(mainQuestion, FormatSummaries(results))
  }
}
