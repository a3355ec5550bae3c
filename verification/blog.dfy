/** The blog-post generator page state (state/blog_state.py): a product keyword yields title
    candidates, a chosen title yields an outline, and title plus outline yield the posting.
    The language-model chains are oracle functions; a failing call is an `Err`, which the
    handler re-raises after its `finally` block has lowered the busy flag. */
module Blog {
  import opened Wrappers
  import opened Strs

  /** The number of ASCII digits `s` starts with. */
  function LeadingDigits(s: string): (n: nat)
    ensures n <= |s|
  {
    if s != [] && IsDigit(s[0]) then 1 + LeadingDigits(s[1..]) else 0
  }

  lemma {:induction false} LeadingDigitsSpec(s: string)
    ensures forall k :: 0 <= k < LeadingDigits(s) ==> IsDigit(s[k])
    ensures LeadingDigits(s) < |s| ==> !IsDigit(s[LeadingDigits(s)])
  {
    if s != [] && IsDigit(s[0]) {
      LeadingDigitsSpec(s[1..]);
    }
  }

  /** Drops one closing quote from a capture of two or more characters. */
  function DropClosingQuote(v: string): string {
    if |v| >= 2 && v[|v| - 1] == '"' then v[..|v| - 1] else v
  }

  /** What group 1 of `"?(.+?)"?$` captures from a non-empty text that does not start with
      whitespace: an opening quote is consumed when something follows it, and the lazy group
      leaves a closing quote to `"?` when it can. */
  function Captured(r: string): string
    requires r != []
  {
    if r[0] == '"' && |r| >= 2 then DropClosingQuote(r[1..]) else DropClosingQuote(r)
  }

  /** One candidate from one response line: `re.match(r'\d+\.\s*"?(.+?)"?$', line.strip())`
      gives its capture stripped; a line that does not match gives the line stripped. */
  function CleanTitle(line: string): string {
    TitleOfStripped(Strip(line))
  }

  /** The pattern applied to an already stripped line `t`. */
  function TitleOfStripped(t: string): string {
    var n := LeadingDigits(t);
    if n == 0 || n == |t| || t[n] != '.' then t
    else
      var rest := TrimLeft(t[n + 1..]);
      if rest == [] then t else Strip(Captured(rest))
  }

  /** A title that was numbered and possibly quoted comes back as it was. */
  lemma CleanTitleOfNumbered(number: string, title: string, quoted: bool)
    requires number != [] && forall k :: 0 <= k < |number| ==> IsDigit(number[k])
    requires title != [] && IsStripped(title) && title[0] != '"' && title[|title| - 1] != '"'
    ensures CleanTitle(number + ". " + (if quoted then "\"" + title + "\"" else title)) == title
  {
    var body := if quoted then "\"" + title + "\"" else title;
    var line := number + ". " + body;
    CapturedOfQuoted(title, quoted);
    assert IsStripped(line) by {
      assert line[0] == number[0];
      assert line[|line| - 1] == body[|body| - 1];
    }
    StripOfStripped(line);
    TitleOfNumbered(number, body);
  }

  /** After a number and a dot, the pattern captures from the first non-blank character on. */
  lemma TitleOfNumbered(number: string, body: string)
    requires number != [] && forall k :: 0 <= k < |number| ==> IsDigit(number[k])
    requires body != [] && !IsSpace(body[0])
    ensures TitleOfStripped(number + ". " + body) == Strip(Captured(body))
  {
    var line := number + ". " + body;
    assert line == number + (". " + body);
    LeadingDigitsOfPrefix(number, ". " + body);
    assert line[|number|] == '.';
    assert line[|number| + 1..] == " " + body;
    TrimOneSpace(body);
  }

  /** One leading blank before a text that starts with a non-blank is trimmed. */
  lemma TrimOneSpace(body: string)
    requires body != [] && !IsSpace(body[0])
    ensures TrimLeft(" " + body) == body
  {
    assert (" " + body)[1..] == body;
    assert LeadingSpace(body) == 0;
  }

  /** The capture of an optionally quoted title is the title. */
  lemma CapturedOfQuoted(title: string, quoted: bool)
    requires title != [] && IsStripped(title) && title[0] != '"' && title[|title| - 1] != '"'
    ensures var body := if quoted then "\"" + title + "\"" else title;
      body != [] && Strip(Captured(body)) == title
  {
    if quoted {
      var body := "\"" + title + "\"";
      assert body[1..] == title + "\"";
      assert (title + "\"")[..|title|] == title;
    }
    StripOfStripped(title);
  }

  /** A run of digits followed by a non-digit is counted exactly. */
  lemma {:induction false} LeadingDigitsOfPrefix(number: string, tail: string)
    requires forall k :: 0 <= k < |number| ==> IsDigit(number[k])
    requires tail != [] && !IsDigit(tail[0])
    ensures LeadingDigits(number + tail) == |number|
  {
    if number != [] {
      assert (number + tail)[1..] == number[1..] + tail;
      LeadingDigitsOfPrefix(number[1..], tail);
    } else {
      assert number + tail == tail;
    }
  }

  /** A line without a leading `N.` is only stripped. */
  lemma CleanTitleUnnumbered(line: string)
    requires LeadingDigits(Strip(line)) == 0
    ensures CleanTitle(line) == Strip(line)
  {
  }

  /** A blank line gives an empty candidate. */
  lemma CleanTitleBlank(line: string)
    requires IsBlank(line)
    ensures CleanTitle(line) == ""
  {
    StripEmptyIffBlank(line);
  }

  /** The candidates from a list of lines: one per line, in order. */
  function CleanTitles(lines: seq<string>): (r: seq<string>)
    ensures |r| == |lines|
    ensures forall k :: 0 <= k < |lines| ==> r[k] == CleanTitle(lines[k])
  {
    seq(|lines|, k requires 0 <= k < |lines| => CleanTitle(lines[k]))
  }

  /** The response lines: `response.content.strip().split("\n")`. */
  function ResponseLines(content: string): seq<string> {
    Split(Strip(content), '\n')
  }

  /** The cleaning loop of `generate_titles`: one candidate per response line, appended in order. */
  method CleanResponseTitles(content: string) returns (titles: seq<string>)
    ensures titles == CleanTitles(ResponseLines(content))
  {
    var lines := ResponseLines(content);
    titles := [];
    var i := 0;
    while i < |lines|
      invariant 0 <= i <= |lines|
      invariant titles == CleanTitles(lines[..i])
    {
      titles := titles + [CleanTitle(lines[i])];
      i := i + 1;
    }
    assert lines[..i] == lines;
  }

  datatype View = View(
    productKeyword: string, titleCandidates: seq<string>, selectedTitle: string,
    generatedOutline: string, finalPosting: string, isGeneratingTitles: bool,
    isGeneratingOutline: bool, isGeneratingPosting: bool, isFinished: bool)

  const InitialView := View("", [], "", "", "", false, false, false, false)

  type TitleChain = string -> Result<string>
  type OutlineChain = string -> Result<string>
  type PostingChain = (string, string) -> Result<string>

  class BlogState {
    var productKeyword: string
    var titleCandidates: seq<string>
    var selectedTitle: string
    var generatedOutline: string
    var finalPosting: string
    var isGeneratingTitles: bool
    var isGeneratingOutline: bool
    var isGeneratingPosting: bool
    var isFinished: bool

    function Snapshot(): View
      reads this
    {
      View(productKeyword, titleCandidates, selectedTitle, generatedOutline, finalPosting,
           isGeneratingTitles, isGeneratingOutline, isGeneratingPosting, isFinished)
    }

    constructor()
      ensures Snapshot() == InitialView
    {
      productKeyword, titleCandidates, selectedTitle := "", [], "";
      generatedOutline, finalPosting := "", "";
      isGeneratingTitles, isGeneratingOutline, isGeneratingPosting, isFinished := false, false, false, false;
    }

    method SetProductKeyword(value: string)
      modifies this
      ensures Snapshot() == old(Snapshot()).(productKeyword := value)
    {
      productKeyword := value;
    }

    /** `reset_all`: every field back to its initial value. */
    method ResetAll()
      modifies this
      ensures Snapshot() == InitialView
    {
      productKeyword, titleCandidates, selectedTitle := "", [], "";
      generatedOutline, finalPosting := "", "";
      isGeneratingTitles, isGeneratingOutline, isGeneratingPosting, isFinished := false, false, false, false;
    }

    /** `generate_titles`. A blank keyword changes nothing. Otherwise the previous results are
        cleared, and on success the candidates are the cleaned response lines; on failure they
        stay empty and the error is returned. The busy flag is down at the end. */
    method GenerateTitles(titleChain: TitleChain) returns (outcome: Outcome)
      modifies this
      ensures IsBlank(old(productKeyword)) ==> Snapshot() == old(Snapshot()) && outcome == Pass
      ensures !IsBlank(old(productKeyword)) ==>
        var cleared := old(Snapshot()).(titleCandidates := [], selectedTitle := "", generatedOutline := "",
                                        finalPosting := "", isFinished := false, isGeneratingTitles := false);
        match titleChain(old(productKeyword))
        case Ok(content) =>
          outcome == Pass && Snapshot() == cleared.(titleCandidates := CleanTitles(ResponseLines(content)))
        case Err(e) => outcome == Fail(e) && Snapshot() == cleared
    {
      StripEmptyIffBlank(productKeyword);
      if Strip(productKeyword) == "" {
        return Pass;
      }
      isGeneratingTitles := true;
      titleCandidates := [];
      selectedTitle := "";
      generatedOutline := "";
      finalPosting := "";
      isFinished := false;
      match titleChain(productKeyword) {
        case Err(e) =>
          outcome := Fail(e);
        case Ok(content) =>
          titleCandidates := CleanResponseTitles(content);
          outcome := Pass;
      }
      isGeneratingTitles := false;
    }

    /** `select_title_and_generate_outline`: the title is stored first, so it stays selected even
        when the outline call fails. */
    method SelectTitleAndGenerateOutline(title: string, outlineChain: OutlineChain) returns (outcome: Outcome)
      modifies this
      ensures match outlineChain(title)
        case Ok(outline) =>
          outcome == Pass
          && Snapshot() == old(Snapshot()).(selectedTitle := title, generatedOutline := outline,
                                            isGeneratingOutline := false)
        case Err(e) =>
          outcome == Fail(e)
          && Snapshot() == old(Snapshot()).(selectedTitle := title, isGeneratingOutline := false)
    {
      selectedTitle := title;
      isGeneratingOutline := true;
      match outlineChain(selectedTitle) {
        case Ok(outline) =>
          generatedOutline := outline;
          outcome := Pass;
        case Err(e) =>
          outcome := Fail(e);
      }
      isGeneratingOutline := false;
    }

    /** `generate_final_posting`: the posting is written from the selected title and the outline;
        `is_finished` is raised only when it is produced. */
    method GenerateFinalPosting(postingChain: PostingChain) returns (outcome: Outcome)
      modifies this
      ensures match postingChain(old(selectedTitle), old(generatedOutline))
        case Ok(posting) =>
          outcome == Pass
          && Snapshot() == old(Snapshot()).(finalPosting := posting, isFinished := true,
                                            isGeneratingPosting := false)
        case Err(e) =>
          outcome == Fail(e) && Snapshot() == old(Snapshot()).(isGeneratingPosting := false)
    {
      isGeneratingPosting := true;
      match postingChain(selectedTitle, generatedOutline) {
        case Ok(posting) =>
          finalPosting := posting;
          isFinished := true;
          outcome := Pass;
        case Err(e) =>
          outcome := Fail(e);
      }
      isGeneratingPosting := false;
    }
  }
}
