# AIAgentForge core, modelled in Dafny

AIAgentForge is a Reflex web application. Its pages are backed by state classes that call
OpenAI, Tavily, Supabase and the YouTube transcript API. This project models the sequential
logic under that glue and proves what each piece promises. Every external call is an oracle:
a parameter of the model (a function, a value, or a finite list of stream chunks).

- **Research agent.** `Research` models the `ResearchState` stage machine:
  initial → editing_subquestions → researching → complete. It covers sub-question editing and
  the fail-fast run over the sub-questions, where `asyncio.gather` is an ordered map.
  `Researcher` models the three LLM steps of `agents/researcher.py`. `LocalResearcher` models the
  plan/research/report graph of `agents/lresearcher.py`.
- **Single-pass pages.**
  - `Blog`: keyword → titles → outline → posting, including title-line cleaning.
  - `Youtube`: video-id extraction, then translation or skip, then the summary, with the
    mapping from errors to statuses.
  - `Chat`: the history, and the streamed answer built at its front.
- **n8n converter.** `N8nState` models the page that turns an n8n workflow into LangGraph
  source. `N8nUtils` models the helpers that build tools from nodes and the graph builder.
  `PyDict` is Python's insertion-ordered `dict` with string keys.
- **Validators and small state machines.**
  - `I18n`: locale lookup with fallbacks and `{name}` formatting.
  - `Post`: normalisation of timestamps, comments and the author check.
  - `TextExtractor` and `Utf8`: MIME dispatch, and UTF-8 as RFC 3629 defines it in section 3
    (encoding) and section 4 (syntax).
  - `Auth`: token and role transitions.
  - `Admin`: the allow-list, the user editor, the writes made by `save_user` and the board
    payload.
  - `Collection`: the delete-confirm modal and the create guard.
  - `Document`: per-file upload bookkeeping and document deletion.
  - `Dashboard`: the user list and `int()` of the age.
  - `NavBar`: the mobile-menu flag.
- `Strs` models the parts of Python's `str` that the code relies on. `Wrappers` holds `Option`
  and `Result`; `Err` stands for a raised exception.

Each state class becomes a Dafny `class`. It has the same fields and a `Snapshot()` view of
them. Its handlers are `modifies this` methods that state the whole new state, either
directly or as a specification function of the old state. The lemmas beside them prove what
the source promises about that function. Loops are methods with invariants, proved against
recursive specification functions. `yield` is a no-op, and each handler is one atomic step.

Where the repository's own description and its code differ, the model follows the code:

- `run_research_on_sub_questions` stores the gathered results (`research_state.py:110-111`)
  before it writes the report. A failing report call therefore keeps the results: the report
  stays "" and the stage stays "researching". Only a failed sub-research leaves the results
  empty.
- A decomposition that returns no lines moves to "editing_subquestions" with an empty list. It
  is not an error.
- `check_auth` has no `return` after the "no refresh token" reset and redirect. The refresh is
  still attempted, with the now-empty token.
- `check_auth` awaits `refresh_session` on the module-wide client, which `create_client` builds
  synchronously (`base.py:30`). The refresh therefore always ends in the reset and the /login
  redirect. `Auth.CheckAuthAsWritten` models this; `Auth.CheckAuth` is the intended flow (see
  "## Findings").
- The admin handlers call the `async` method `admin_client` without `await`. `open_user_editor`
  therefore always shows empty profile fields, `save_user` never reaches the service, and
  `create_board` never inserts or reloads. `Admin.AdminHandlersAsWritten` states this.
- `handle_upload` sets up its storage client (`_get_supabase_client`, `base.py:55-65`) outside
  any `try`. When nobody is signed in it raises before the user check, so the handler ends with
  that error and no alert.
- In `document_state.handle_upload`, `document_id` is bound only when an insert returns a row,
  and it persists across the loop. A later file whose insert returns no row writes its sections
  under the previous file's document id. `Document.DocumentIdAfter` carries this id from file
  to file.
- In `post_state`, the `split('+')` unpacking is outside the `try`. A timestamp with two `+`
  signs and a `.` therefore raises instead of yielding the "date format error" text.

## Model

| member | source | states |
|---|---|---|
| Research.NothingToResearchIffAllBlank | AIAgentForge/state/research_state.py:93 | the run guard holds exactly when every sub-question is blank (vacuously for an empty list) |
| Research.ResearchState.constructor | AIAgentForge/state/research_state.py:21-31 | empty texts and lists, not generating, stage initial |
| Research.ResearchState.IsFormValid | AIAgentForge/state/research_state.py:33-36 | the form is valid exactly when the main question has a non-whitespace character |
| Research.ResearchState.UpdateSubQuestion | AIAgentForge/state/research_state.py:39-42 | an index in range replaces only that entry; any other index changes nothing |
| Research.ResearchState.DeleteSubQuestion | AIAgentForge/state/research_state.py:44-47 | an index in range removes exactly that entry, later ones shifting down; any other index changes nothing |
| Research.ResearchState.AddSubQuestion | AIAgentForge/state/research_state.py:49-51 | exactly the placeholder "새로운 질문을 입력하세요..." is appended at the end |
| Research.ResearchState.GenerateSubQuestionsForEditing | AIAgentForge/state/research_state.py:54-87 | the stripped question is stored; a blank one changes nothing else; otherwise the previous task is cleared, success moves to editing with exactly the decomposed list (even empty), failure stays initial with the error status; is_generating ends false on both paths |
| Research.ResearchState.BeginResearch | AIAgentForge/state/research_state.py:97-101 | the run starts: generating, stage researching, results and report cleared, the count status |
| Research.ResearchState.StoreResults | AIAgentForge/state/research_state.py:110-117 | the gathered results are stored and the report-writing status shown; nothing else changes |
| Research.ResearchState.RunResearchOnSubQuestions | AIAgentForge/state/research_state.py:89-137 | nothing to research changes only the status; a failed sub-research leaves results and report empty at stage researching; a failed report keeps the results but no report; success stores one result per sub-question in order, the report, and stage complete; is_generating ends false |
| Researcher.CleanLinesClean | AIAgentForge/agents/researcher.py:24 | cleaning keeps at most as many lines as it was given, and every kept line is non-empty and stripped |
| Researcher.CleanLinesAppend | AIAgentForge/agents/researcher.py:24 | cleaning preserves order: it distributes over concatenation |
| Researcher.CleanLinesOne | AIAgentForge/agents/researcher.py:24 | one line yields its stripped text, or nothing when it is blank |
| Researcher.CleanLinesEmptyIffAllBlank | AIAgentForge/agents/researcher.py:24 | the cleaned list is empty exactly when every line is blank |
| Researcher.SubQuestionsClean | AIAgentForge/agents/researcher.py:24 | every sub-question returned is non-empty and has no surrounding whitespace |
| Researcher.GetSubQuestions | AIAgentForge/agents/researcher.py:16-24 | get_sub_questions raises exactly when the model call does, and otherwise returns the cleaned lines of the model's output |
| Researcher.SubQuestionsRoundTrip | AIAgentForge/agents/researcher.py:24 | a list of clean one-line questions, written one per line, comes back unchanged |
| Researcher.CleanLinesOfClean | AIAgentForge/agents/researcher.py:24 | lines that are already non-empty and stripped are kept as they are |
| Researcher.JoinStripped | AIAgentForge/agents/researcher.py:24 | joining non-empty stripped lines with newlines gives a stripped text |
| Researcher.ContextShape | AIAgentForge/agents/researcher.py:36 | no hits give ""; one hit gives its "URL: …\nContent: …" block; each further hit appends its block after a blank line, in search order |
| Researcher.RunResearcher | AIAgentForge/agents/researcher.py:26-46 | the search is made with max_results 5; the call succeeds exactly when the search and the summary both do; the result carries the sub-question unchanged and the summary of the built context |
| Researcher.GatherResearchSpec | AIAgentForge/state/research_state.py:106-108 | the gather succeeds exactly when every sub-research does; results come in sub-question order, each paired with its own sub-question; a failure is the first failing sub-research's error |
| Researcher.FormatSummariesShape | AIAgentForge/agents/researcher.py:52-55 | no results give ""; each further result appends its "### {sub_question}\n{summary}" section after a blank line, in input order |
| LocalResearcher.ResearchedSteps | AIAgentForge/agents/lresearcher.py:109-111 | the researched lines are at most the plan lines and none of them is empty |
| LocalResearcher.DraftsSpec | AIAgentForge/agents/lresearcher.py:104-125 | exactly one draft per non-empty plan line, in plan order, each that line's draft; the step succeeds exactly when every such line's search and draft do |
| LocalResearcher.BlankLineIsResearched | AIAgentForge/agents/lresearcher.py:110-111 | a whitespace-only interior line is still researched; only an empty line is skipped |
| LocalResearcher.ResearchStep | AIAgentForge/agents/lresearcher.py:104-125 | the loop's drafts, or the first error, are those of the drafts specification over the stripped plan's lines |
| LocalResearcher.FailureSticks | AIAgentForge/agents/lresearcher.py:109-123 | once a prefix of the lines fails, the whole step fails with that error |
| LocalResearcher.DraftsTextShape | AIAgentForge/agents/lresearcher.py:130 | no drafts give ""; each further draft is appended after "\n\n---\n\n", in draft order |
| LocalResearcher.Successor | AIAgentForge/agents/lresearcher.py:148-152 | a node's successor is along one of the graph's edges; a node with none has no outgoing edge |
| LocalResearcher.ExecutionOrder | AIAgentForge/agents/lresearcher.py:136-155 | from the entry point the graph visits planner, researcher, reporter and then ends |
| LocalResearcher.GraphRun | AIAgentForge/agents/lresearcher.py:97-155 | a successful run keeps the query, plans for it, drafts from that plan's lines, and writes the report from those drafts |
| Blog.LeadingDigits | AIAgentForge/state/blog_state.py:90 | the count of leading digits never exceeds the length |
| Blog.LeadingDigitsSpec | AIAgentForge/state/blog_state.py:90 | the counted characters are digits and the next one, if any, is not: \d+ takes the whole leading run |
| Blog.CleanTitleOfNumbered | AIAgentForge/state/blog_state.py:89-92 | a numbered title, quoted or not, comes back as the title: the leading "N." and surrounding quotes are removed |
| Blog.TitleOfNumbered | AIAgentForge/state/blog_state.py:90-91 | after digits, a dot and a blank, the candidate is the stripped capture of the rest |
| Blog.TrimOneSpace | AIAgentForge/state/blog_state.py:90 | \s* consumes a single blank before a non-blank text |
| Blog.CapturedOfQuoted | AIAgentForge/state/blog_state.py:90 | the capture of an optionally quoted title is the title |
| Blog.LeadingDigitsOfPrefix | AIAgentForge/state/blog_state.py:90 | a digit run followed by a non-digit is counted exactly |
| Blog.CleanTitleUnnumbered | AIAgentForge/state/blog_state.py:90-91 | a line that does not start with a digit does not match and is only stripped |
| Blog.CleanTitleBlank | AIAgentForge/state/blog_state.py:89-92 | a blank line gives an empty candidate |
| Blog.CleanTitles | AIAgentForge/state/blog_state.py:88-94 | one candidate per line, in order, each the cleaning of its line |
| Blog.CleanResponseTitles | AIAgentForge/state/blog_state.py:88-94 | the loop's candidates are the cleaned lines of the stripped response, one per line, in order |
| Blog.BlogState.constructor | AIAgentForge/state/blog_state.py:31-41 | every field starts at its initial value |
| Blog.BlogState.SetProductKeyword | AIAgentForge/state/blog_state.py:43-44 | only the keyword changes, to the value |
| Blog.BlogState.ResetAll | AIAgentForge/state/blog_state.py:52-62 | all nine fields are back at their initial values |
| Blog.BlogState.GenerateTitles | AIAgentForge/state/blog_state.py:64-97 | a blank keyword changes nothing; otherwise candidates, title, outline, posting and is_finished are cleared, success stores the cleaned response lines, a failure leaves them cleared and is re-raised; the busy flag ends false |
| Blog.BlogState.SelectTitleAndGenerateOutline | AIAgentForge/state/blog_state.py:99-130 | the title is stored before generation, so it stays even when the outline call fails; success stores the outline; the busy flag ends false |
| Blog.BlogState.GenerateFinalPosting | AIAgentForge/state/blog_state.py:132-159 | is_finished becomes true only when the posting is produced from the selected title and outline; a failure changes nothing but the busy flag, which ends false |
| Youtube.CaptureAt | AIAgentForge/state/youtube_state.py:37-41 | the captured group is eleven characters of `[0-9A-Za-z_-]` |
| Youtube.FirstMatch | AIAgentForge/state/youtube_state.py:37 | the result is the leftmost index that matches the pattern, and none means no index matches |
| Youtube.ExtractVideoIdSpec | AIAgentForge/state/youtube_state.py:36-41 | there is no id exactly when no index matches; otherwise the id is the capture of the leftmost match |
| Youtube.WatchUrlId | AIAgentForge/state/youtube_state.py:37 | a `watch?v=` URL yields its eleven-character id |
| Youtube.LongIdTruncated | AIAgentForge/state/youtube_state.py:37 | a longer id run is cut to its first eleven characters |
| Youtube.ShortSegmentRejected | AIAgentForge/state/youtube_state.py:37-40 | a path segment shorter than eleven characters gives no id |
| Youtube.LanguageNameSpec | AIAgentForge/state/youtube_state.py:114-115 | the five known codes get a name different from the code; every other code is shown unchanged |
| Youtube.RunBlankUrl | AIAgentForge/state/youtube_state.py:92-94 | a blank URL only sets the "enter a URL" status |
| Youtube.RunEndsIdle | AIAgentForge/state/youtube_state.py:153-154 | every non-blank run ends with the busy flag down and the URL kept |
| Youtube.RunInvalidUrl | AIAgentForge/state/youtube_state.py:96-146 | a URL without an id clears the outputs and sets the invalid-URL status, with no error text |
| Youtube.RunKorean | AIAgentForge/state/youtube_state.py:111-138 | Korean captions skip translation: the skip notice is the translation and the summary is made from the original transcript |
| Youtube.RunTranslated | AIAgentForge/state/youtube_state.py:111-138 | other captions are translated chunk by chunk; when the translation completes the summary is made from exactly that text, otherwise the summary stays empty |
| Youtube.RunSucceeds | AIAgentForge/state/youtube_state.py:140-141 | a run whose calls all succeed ends with an empty status and no error text |
| Youtube.ExceptErrorText | AIAgentForge/state/youtube_state.py:143-152 | only exceptions other than ValueError fill the error text, with their message; the invalid-URL ValueError gets its own status, every other exception the prefixed message |
| Youtube.Accumulate | AIAgentForge/state/youtube_state.py:127-137 | the chunk loop yields the chunks concatenated in arrival order |
| Youtube.YoutubeState.constructor | AIAgentForge/state/youtube_state.py:73-81 | every field starts empty and the busy flag down |
| Youtube.YoutubeState.SetVideoUrl | AIAgentForge/state/youtube_state.py:84-85 | only the URL changes, to the value |
| Youtube.YoutubeState.Handle | AIAgentForge/state/youtube_state.py:143-152 | the fields after the except clauses are the ones the error mapping gives |
| Youtube.YoutubeState.Summarize | AIAgentForge/state/youtube_state.py:132-141 | the fields after the summary step are those of the step's specification |
| Youtube.YoutubeState.ProcessTranscript | AIAgentForge/state/youtube_state.py:111-141 | the fields after translation-or-skip and summary are those of the specification |
| Youtube.YoutubeState.Reset | AIAgentForge/state/youtube_state.py:96-108 | outputs cleared, busy flag raised, status "extracting"; the URL is kept |
| Youtube.YoutubeState.Run | AIAgentForge/state/youtube_state.py:88-155 | the fields after `run` are the ones its specification gives for the same inputs, whose properties the Run lemmas state |
| N8nState.SanitizeNameSpec | AIAgentForge/state/n8n2langgraph_state.py:40-42 | a function name is never empty, uses only `[a-z0-9_]`, is "tool" for a blank name, and sanitizing it again changes nothing |
| N8nState.ToolsOfSpec | AIAgentForge/state/n8n2langgraph_state.py:62-97 | exactly one tool per HTTP tool node, in node order |
| N8nState.ToolOfSpec | AIAgentForge/state/n8n2langgraph_state.py:67-89 | a tool's function name is sanitized, its method defaults to GET, and each secret is a secret-like, non-query name read from `FUNC_NAME` in upper case |
| N8nState.HintsKeys | AIAgentForge/state/n8n2langgraph_state.py:91-92 | a function name has hints exactly when some tool of that name has secrets |
| N8nState.HintsLast | AIAgentForge/state/n8n2langgraph_state.py:91-92 | the hints of a name are the variable names of the last tool of that name that has secrets |
| N8nState.ModelOfSpec | AIAgentForge/state/n8n2langgraph_state.py:53-60 | the first chat-model node decides the model, whatever later nodes say |
| N8nState.ModelOfDefault | AIAgentForge/state/n8n2langgraph_state.py:54 | without a chat-model node the model is "gpt-4.1-mini" |
| N8nState.Escape | AIAgentForge/state/n8n2langgraph_state.py:171-172 | every double quote in the escaped text is preceded by a backslash |
| N8nState.EscapeRoundTrip | AIAgentForge/state/n8n2langgraph_state.py:171-172 | escaping loses nothing: unescaping gives back the description or URL |
| N8nState.EnvLinesSpec | AIAgentForge/state/n8n2langgraph_state.py:127-132 | three lines per secret, in the order of the secrets, each group the check for that secret |
| N8nState.ToolsBlockSpec | AIAgentForge/state/n8n2langgraph_state.py:182 | `tools_block` lists the names in order, and names the empty list exactly when there is no tool |
| N8nState.FindModel | AIAgentForge/state/n8n2langgraph_state.py:54-60 | the model loop gives the model of its specification |
| N8nState.CollectTools | AIAgentForge/state/n8n2langgraph_state.py:62-97 | the tool loop gives the tools and the hints of their specifications |
| N8nState.MakeTool | AIAgentForge/state/n8n2langgraph_state.py:67-97 | one pass of the tool loop builds the tool of the node |
| N8nState.RenderTools | AIAgentForge/state/n8n2langgraph_state.py:114-180 | the code loop gives one rendered definition and one name per tool, in order |
| N8nState.ConvertWorkflow | AIAgentForge/state/n8n2langgraph_state.py:50-203 | `_convert` gives header, tool definitions and tail joined, and the hints, or the model error |
| N8nState.DownloadOf | AIAgentForge/state/n8n2langgraph_state.py:222-226 | nothing is downloaded exactly when there is no code |
| N8nState.ConvertViewSpec | AIAgentForge/state/n8n2langgraph_state.py:205-220 | a conversion either fails with a message and no code or succeeds with code and no error; the text and file name are kept; a parse failure leaves no hints |
| N8nState.ConvertThenDownload | AIAgentForge/state/n8n2langgraph_state.py:205-226 | after a successful conversion the code is offered as `langgraph_app.py` and the hints are those of the tools |
| N8nState.UploadViewSpec | AIAgentForge/state/n8n2langgraph_state.py:24-37 | no file changes nothing; otherwise the file name is stored, decoded UTF-8 text replaces the JSON text, and a read or decode failure keeps the text and reports the error |
| N8nState.N8nConvertState.constructor | AIAgentForge/state/n8n2langgraph_state.py:9-13 | every field starts empty |
| N8nState.N8nConvertState.SetJsonText | AIAgentForge/state/n8n2langgraph_state.py:21-22 | only the JSON text changes, to the value |
| N8nState.N8nConvertState.HandleUpload | AIAgentForge/state/n8n2langgraph_state.py:24-37 | the fields after an upload are those of its specification |
| N8nState.N8nConvertState.Convert | AIAgentForge/state/n8n2langgraph_state.py:205-220 | the fields after `convert` are those of its specification |
| N8nState.N8nConvertState.DownloadPy | AIAgentForge/state/n8n2langgraph_state.py:222-226 | the download is the one its specification gives for the current state |
| N8nUtils.First | AIAgentForge/utils/n8n2langgraph.py:96 | the index found is the first node satisfying the test, and none means no node does |
| N8nUtils.PickModel | AIAgentForge/utils/n8n2langgraph.py:80-84 | a model name is never empty; a non-empty `value` wins; only a model parameter that is a bare string raises |
| N8nUtils.SanitizeSpec | AIAgentForge/utils/n8n2langgraph.py:49 | a blank name gives the fallback; otherwise one character per character of the stripped name, letters lower-cased, digits and `_` kept, everything else `_` |
| N8nUtils.SanitizeIdent | AIAgentForge/utils/n8n2langgraph.py:49 | with a fallback of the same alphabet the tool name is never empty and uses only `[a-z0-9_]` |
| N8nUtils.SanitizeIdempotent | AIAgentForge/utils/n8n2langgraph.py:49 | sanitizing a sanitized name changes nothing |
| N8nUtils.TrimLeftUnderscores | AIAgentForge/utils/n8n2langgraph.py:11 | the result is a suffix that does not start with `_`, and everything removed was `_` |
| N8nUtils.TrimRightUnderscores | AIAgentForge/utils/n8n2langgraph.py:11 | the result is a prefix that does not end with `_`, and everything removed was `_` |
| N8nUtils.CollapseShape | AIAgentForge/utils/n8n2langgraph.py:11 | letters and digits are kept, each run of other characters becomes one `_`, never two in a row |
| N8nUtils.CollapseAlnums | AIAgentForge/utils/n8n2langgraph.py:11 | the substitution keeps every letter and digit, in order |
| N8nUtils.SnakeEnvShape | AIAgentForge/utils/n8n2langgraph.py:10-12 | `snake_env` gives a non-empty name of `[A-Z0-9_]` that neither starts nor ends with `_` and has no two `_` in a row |
| N8nUtils.SnakeEnvAlnums | AIAgentForge/utils/n8n2langgraph.py:10-12 | apart from the `HTTP_TOOL` fallback, `snake_env` keeps every letter and digit of the name, upper-cased and in order |
| N8nUtils.CloseAt | AIAgentForge/utils/n8n2langgraph.py:18 | the lazy match stops at the first `}}` after the braces, and there is none when a newline comes first |
| N8nUtils.RemoveExprs | AIAgentForge/utils/n8n2langgraph.py:18 | removing expressions never lengthens the text |
| N8nUtils.RemoveExprsPlain | AIAgentForge/utils/n8n2langgraph.py:14-19 | text without `{{` keeps everything but its outer whitespace |
| N8nUtils.RemoveExprsOne | AIAgentForge/utils/n8n2langgraph.py:18 | an expression on one line is removed whole and the text before it is kept |
| N8nUtils.StripValueSpec | AIAgentForge/utils/n8n2langgraph.py:14-19 | non-string values pass unchanged; a string stays a string no longer than before |
| N8nUtils.SecretNameMarkers | AIAgentForge/utils/n8n2langgraph.py:42 | the secret test amounts to containing "key", "token" or "secret" |
| N8nUtils.ClassifyParams | AIAgentForge/utils/n8n2langgraph.py:30-46 | the parameter loop gives the classification of its specification |
| N8nUtils.ClassifyQueryNone | AIAgentForge/utils/n8n2langgraph.py:38-40 | there is no query name exactly when no parameter is query-like |
| N8nUtils.ClassifyQueryLast | AIAgentForge/utils/n8n2langgraph.py:38-40 | the query name is that of the last query-like parameter |
| N8nUtils.ClassifyFixedKeys | AIAgentForge/utils/n8n2langgraph.py:45-46 | a name is fixed exactly when some parameter of that name is neither query-like nor secret |
| N8nUtils.ClassifyFixedLast | AIAgentForge/utils/n8n2langgraph.py:35-46 | a fixed value is that of the last parameter of its name, with its expressions removed |
| N8nUtils.ClassifySecretsSound | AIAgentForge/utils/n8n2langgraph.py:42-44 | every secret is secret-like, not query-like, and read from `PREFIX_NAME` |
| N8nUtils.ClassifySecretsComplete | AIAgentForge/utils/n8n2langgraph.py:42-44 | every secret-like, non-query parameter is among the secrets |
| N8nUtils.BuildHttpTool | AIAgentForge/utils/n8n2langgraph.py:22-49 | `build_http_tool` gives the tool of its specification, or the error of a missing id |
| N8nUtils.HttpToolName | AIAgentForge/utils/n8n2langgraph.py:49 | a tool's name is never empty and uses only `[a-z0-9_]` |
| N8nUtils.HttpToolQuery | AIAgentForge/utils/n8n2langgraph.py:26-40 | a missing method is GET, and the query name, when there is one, is query-like |
| N8nUtils.HttpToolSecret | AIAgentForge/utils/n8n2langgraph.py:42-44 | each secret of a tool is read from `SNAKE_ENV(name)_NAME` and is not query-like |
| N8nUtils.ClassifyKeyEnv | AIAgentForge/utils/n8n2langgraph.py:42-44 | every entry of `key_env_map` is a secret-like name mapped to `PREFIX_NAME` |
| N8nUtils.TopLines | AIAgentForge/utils/n8n2langgraph.py:73 | no more result lines than entries |
| N8nUtils.Invoke | AIAgentForge/utils/n8n2langgraph.py:52-75 | the tool's answer is that of its specification for the same environment and network |
| N8nUtils.FillEnv | AIAgentForge/utils/n8n2langgraph.py:60-64 | the secrets loop gives the parameters, or the answer for the first unset variable |
| N8nUtils.InvokeNoUrl | AIAgentForge/utils/n8n2langgraph.py:54-55 | without a URL the answer is "No URL configured." |
| N8nUtils.EnvParamsMissing | AIAgentForge/utils/n8n2langgraph.py:60-63 | the first unset variable decides the answer, before any request |
| N8nUtils.InvokeMissingEnv | AIAgentForge/utils/n8n2langgraph.py:54-63 | with a URL and an unset variable the answer names the first unset variable |
| N8nUtils.EnvParamsSet | AIAgentForge/utils/n8n2langgraph.py:56-64 | when every variable is set, each secret is sent with its variable's value and every other parameter keeps its value |
| N8nUtils.SummaryItems | AIAgentForge/utils/n8n2langgraph.py:71-74 | an answer with items lists at most five lines under the heading, or "No results" |
| N8nUtils.SummaryOther | AIAgentForge/utils/n8n2langgraph.py:75 | any other answer is its text cut to its first 4000 characters |
| N8nUtils.HttpNodes | AIAgentForge/utils/n8n2langgraph.py:103-104 | the HTTP tool nodes are no more than the nodes |
| N8nUtils.BuildGraph | AIAgentForge/utils/n8n2langgraph.py:87-132 | the builder gives the graph of its specification: model, tools and trigger name, or the first error |
| N8nUtils.CollectHttpTools | AIAgentForge/utils/n8n2langgraph.py:102-105 | the tool loop gives the tools of its specification, or the first error |
| N8nUtils.HttpToolsFailureSticks | AIAgentForge/utils/n8n2langgraph.py:103-105 | once a tool node raises, the whole loop does, with that error |
| N8nUtils.BuildGraphNoModel | AIAgentForge/utils/n8n2langgraph.py:96-98 | without a chat-model node the builder raises |
| N8nUtils.BuildGraphModel | AIAgentForge/utils/n8n2langgraph.py:96-117 | a built graph uses the model of the first chat-model node and, without a chat trigger, the default trigger name |
| N8nUtils.HttpToolsSpec | AIAgentForge/utils/n8n2langgraph.py:102-105 | a built graph has one tool per HTTP tool node, in order |
| PyDict.Get | AIAgentForge/utils/n8n2langgraph.py:56 | a lookup misses exactly when the key is not in the dict |
| PyDict.Put | AIAgentForge/utils/n8n2langgraph.py:56-64 | after `d[k] = v` the key maps to `v`, every other key is unchanged, an existing key keeps its place, a new key goes last, and no key is doubled |
| PyDict.FromPairsKeys | AIAgentForge/utils/n8n2langgraph.py:44 | a dict filled from pairs has exactly the keys of the pairs |
| PyDict.FromPairsLast | AIAgentForge/utils/n8n2langgraph.py:44 | each key maps to the value of its last pair |
| PyDict.FromPairsUnique | AIAgentForge/utils/n8n2langgraph.py:44 | a dict filled from pairs has no key twice |
| Strs.LeadingSpaceSpec | AIAgentForge/state/research_state.py:36 | the leading run `lstrip` removes is whitespace and is maximal |
| Strs.TrailingSpaceSpec | AIAgentForge/state/research_state.py:36 | the trailing run `rstrip` removes is whitespace and is maximal |
| Strs.StripIsStripped | AIAgentForge/state/research_state.py:36 | `strip()` leaves neither leading nor trailing whitespace |
| Strs.StripIsSlice | AIAgentForge/state/research_state.py:36 | `strip()` removes only whitespace: its result is a slice between a blank prefix and a blank suffix |
| Strs.StripIdempotent | AIAgentForge/state/research_state.py:36 | stripping twice is stripping once |
| Strs.StripEmptyIffBlank | AIAgentForge/state/research_state.py:36 | `s.strip()` is empty exactly when every character of `s` is whitespace |
| Strs.IndexOf | AIAgentForge/state/blog_state.py:89 | the index found is the first occurrence, and none means the character does not occur |
| Strs.Split | AIAgentForge/state/blog_state.py:89 | `split` on one character gives at least one piece and no piece contains the separator |
| Strs.JoinSplit | AIAgentForge/state/blog_state.py:89 | joining the pieces of a split with its separator gives back the text |
| Strs.SplitJoin | AIAgentForge/agents/researcher.py:24 | splitting a join of separator-free pieces gives back the pieces |
| Strs.JoinSnoc | AIAgentForge/agents/researcher.py:36 | joining a list extended by one piece appends the separator and the piece |
| Strs.ConcatAppend | AIAgentForge/state/youtube_state.py:127-130 | concatenating two runs of chunks is concatenating their concatenations |
| Strs.Contains | AIAgentForge/utils/n8n2langgraph.py:42 | `t in s` holds exactly when `t` occurs at some index of `s` |
| Strs.Lower | AIAgentForge/utils/n8n2langgraph.py:38 | `lower()` keeps the length and lower-cases each character |
| Strs.Upper | AIAgentForge/utils/n8n2langgraph.py:43 | `upper()` keeps the length and upper-cases each character |
| Strs.NatToStringDigits | AIAgentForge/state/dashboard_state.py:16 | the decimal rendering of a natural number is a non-empty run of digits |
| Admin.RequireAdminSpec | AIAgentForge/state/admin_state.py:34-46 | a caller that is not signed in, or has no user, is never admin; an empty allow-list admits every signed-in user; otherwise admission holds exactly when the lower-cased email is in the allow-list |
| Admin.LowerCharSpec | AIAgentForge/state/admin_state.py:39 | lower-casing a character keeps whitespace as whitespace, never makes or removes a comma, and leaves no ASCII capital |
| Admin.AllowListEntries | AIAgentForge/state/admin_state.py:39 | every allow-list entry is non-empty, has no surrounding whitespace, holds no comma and no ASCII capital |
| Admin.AllowListOfJoin | AIAgentForge/state/admin_state.py:39 | the allow-list of comma-joined entries is the set of their trimmed, lower-cased, non-blank members |
| Admin.RequireAdminIgnoresCase | AIAgentForge/state/admin_state.py:42-43 | two users whose emails differ only in ASCII case get the same admission |
| Admin.RequireAdminListed | AIAgentForge/state/admin_state.py:39-43 | a signed-in user whose email is listed, in any case and with any surrounding spaces, is admitted |
| Admin.FindUserSpec | AIAgentForge/state/admin_state.py:88 | the lookup finds nothing exactly when no user has that id; otherwise it returns the first user with that id |
| Admin.SaveRequestsSpec | AIAgentForge/state/admin_state.py:127-137 | save_user sends the email update exactly when the email is non-empty, then one profile upsert for the edited id whose fields are null exactly when they are empty |
| Admin.AttemptedPrefix | AIAgentForge/state/admin_state.py:123-139 | the writes actually made are a prefix of the planned writes, and a non-empty one whenever there is a planned write |
| Admin.AttemptedPassed | AIAgentForge/state/admin_state.py:123-139 | every write made before the last one went through |
| Admin.AttemptedAll | AIAgentForge/state/admin_state.py:123-139 | when no write raises, every planned write is made |
| Admin.AttemptedSpec | AIAgentForge/state/admin_state.py:123-139 | the three facts above together: a prefix, non-empty when writes are planned, each write before the last passed, all made when none fails |
| Admin.BoardPayloadSpec | AIAgentForge/state/admin_state.py:178-183 | the board payload defaults missing or empty name and description to "" and both permissions to "user", and otherwise copies the form values |
| Admin.SentThrough | AIAgentForge/state/admin_state.py:122-141 | the writes made through a handle are a prefix of the planned writes, and none at all through the un-awaited coroutine |
| Admin.ProfileOf | AIAgentForge/state/admin_state.py:92-104 | the profile data read through the coroutine is always the empty dict |
| Admin.CreateBoardSpec | AIAgentForge/state/admin_state.py:173-187 | a write is made exactly for an admin holding a client, and it is the insert of the form's payload; boards are reloaded exactly when, in addition, that insert went through |
| Admin.AdminHandlersAsWritten | AIAgentForge/state/admin_state.py:85-187 | as written, save_user and create_board make no write, create_board yields no reload, and open_user_editor leaves the three profile fields "" |
| Admin.AdminHandlersIntended | AIAgentForge/state/admin_state.py:85-187 | with an awaited client whose writes go through, save_user makes every planned write, create_board inserts the payload and reloads, and open_user_editor shows the stored profile |
| Admin.OnLoadAdminSpec | AIAgentForge/state/admin_state.py:49-54 | a non-admin is redirected to "/" and only then; an admin gets both loads |
| Admin.AdminState.OpenUserEditor | AIAgentForge/state/admin_state.py:85-111 | a non-admin or an unknown id changes nothing; otherwise the edit fields are filled from the first matching user and the profile read through the handle (missing values and an unreadable profile as "") and the editor opens, nothing else changes |
| Admin.AdminState.CancelUserEditor | AIAgentForge/state/admin_state.py:113-115 | only editor_open changes, to false |
| Admin.AdminState.SetEditorOpen | AIAgentForge/state/admin_state.py:199-201 | only editor_open changes, to the given value |
| Admin.AdminState.SetEditEmail | AIAgentForge/state/admin_state.py:203-205 | only edit_email changes, to the value or "" when it is null |
| Admin.AdminState.SetEditUsername | AIAgentForge/state/admin_state.py:207-209 | only edit_username changes, to the value or "" when it is null |
| Admin.AdminState.SetEditFullName | AIAgentForge/state/admin_state.py:211-213 | only edit_full_name changes, to the value or "" when it is null |
| Admin.AdminState.SetEditAvatarUrl | AIAgentForge/state/admin_state.py:215-217 | only edit_avatar_url changes, to the value or "" when it is null |
| Admin.AdminState.SaveUser | AIAgentForge/state/admin_state.py:117-142 | a non-admin or an empty edit_user_id sends nothing and changes nothing; otherwise the writes are made through the handle until one raises (none through the coroutine), the editor always closes and the users are reloaded |
| Admin.AdminState.constructor | AIAgentForge/state/admin_state.py:11-24 | every field starts empty or false |
| Auth.RoleSpec | AIAgentForge/state/auth_state.py:28-36 | an unauthenticated caller or a missing user is "guest"; "admin" is returned only for a signed-in user whose metadata role is "admin"; non-empty metadata without a role gives "user" |
| Auth.UserEmailSpec | AIAgentForge/state/auth_state.py:23-26 | user_email is "" without a user and the user's email otherwise |
| Auth.ResetSpec | AIAgentForge/state/auth_state.py:104-109 | the reset clears both tokens, the flag and the user, keeps the form feedback, and is idempotent; the role becomes "guest" and the email "" |
| Auth.CheckAuthNoAccessToken | AIAgentForge/state/auth_state.py:44-51 | without an access token the only redirect is to /login, the flag ends false, a stale sign-in loses its user, an already signed-out state is unchanged |
| Auth.CheckAuthVerified | AIAgentForge/state/auth_state.py:53-59 | a token that yields a user signs that user in, keeps both tokens and yields no redirect |
| Auth.CheckAuthRefresh | AIAgentForge/state/auth_state.py:64-90 | in the intended flow, with a rejected token and a refresh token, a new session replaces both tokens and the user with no redirect; any failure signs out and redirects to /login |
| Auth.CheckAuthNoRefreshToken | AIAgentForge/state/auth_state.py:56-90 | for an access token that get_user rejects or that yields no user, without a refresh token the first redirect is /login; the refresh is still tried with the emptied token, so the state is signed in only if the service hands out a session, and otherwise ends signed out with two /login redirects |
| Auth.AwaitSync | AIAgentForge/state/auth_state.py:74 | awaiting what a synchronous client call gave always raises: the call's own error when it raised, otherwise the not-awaitable error |
| Auth.AwaitedSync | AIAgentForge/state/auth_state.py:74 | the refresh as the handler issues it on the synchronous client raises for every token, passing on the service's own error when it raised |
| Auth.CheckAuthAsWrittenSignsOut | AIAgentForge/state/auth_state.py:64-90 | as written, a rejected access token always ends signed out, with one /login redirect when there was a refresh token and two when there was none, whatever the service answers |
| Auth.RefreshLostAsWritten | AIAgentForge/state/auth_state.py:72-90 | a service that hands out a session is signed in by the intended flow with no redirect, but as written the state is reset and sent to /login |
| Auth.CheckAuthKeepsFeedback | AIAgentForge/state/auth_state.py:38-90 | check_auth never changes error_message or is_loading |
| Auth.CheckAdminSpec | AIAgentForge/state/auth_state.py:92-102 | check_admin ends with the home redirect exactly when the final role is not "admin", and leaves the state check_auth leaves |
| Auth.LoginSpec | AIAgentForge/state/auth_state.py:111-137 | loading ends false on every path; a home redirect means signed in with no error; no redirect leaves tokens, user and flag unchanged; the message is "" or the fixed error, and the error never comes with a redirect; a form without "email" fails with the fixed message |
| Auth.LoginSession | AIAgentForge/state/auth_state.py:117-131 | a successful sign-in stores the session's tokens and user, signs in, clears the message and redirects home |
| Auth.LogoutSpec | AIAgentForge/state/auth_state.py:139-147 | logout always signs out and keeps the message; the /login redirect is yielded exactly when the service sign-out does not raise |
| Auth.SignupSpec | AIAgentForge/state/auth_state.py:149-175 | loading ends false; the sign-in flag changes only on the path that redirects home, and that path is signed in with no message |
| Auth.AuthState.constructor | AIAgentForge/state/auth_state.py:16-21 | empty tokens, signed out, no message, not loading |
| Auth.AuthState.ResetAuthState | AIAgentForge/state/auth_state.py:104-109 | the new state is the reset of the old one |
| Auth.AuthState.TryRefresh | AIAgentForge/state/auth_state.py:72-90 | the new state and redirects are those of the refresh step: a session is installed, anything else resets and redirects to /login |
| Auth.AuthState.CheckAuthHandler | AIAgentForge/state/auth_state.py:38-90 | the new state and the redirects are those of the check_auth specification function, whose properties are the lemmas above |
| Auth.AuthState.CheckAdminHandler | AIAgentForge/state/auth_state.py:92-102 | the new state and redirects are those of the check_admin specification |
| Auth.AuthState.HandleLogin | AIAgentForge/state/auth_state.py:111-137 | the new state and redirects are those of the login specification |
| Auth.AuthState.HandleSignup | AIAgentForge/state/auth_state.py:149-175 | the new state and redirects are those of the signup specification |
| Auth.AuthState.HandleLogout | AIAgentForge/state/auth_state.py:139-147 | the new state and redirects are those of the logout specification |
| Collection.ModalSpec | AIAgentForge/state/collection_state.py:35-51 | the modal flag takes the given value; closing clears the chosen id, opening keeps it and changes nothing else; show_confirm stores the id and opens; cancelling after show_confirm closes and clears the id |
| Collection.ConfirmDeleteSpec | AIAgentForge/state/collection_state.py:54-71 | confirm_delete always closes the modal and forgets the id; it deletes exactly the chosen id, reloads exactly when that delete passes, touches the alert only when it fails, and never changes the list or the name field |
| Collection.ShowThenConfirm | AIAgentForge/state/collection_state.py:43-65 | choosing a collection and then confirming deletes that collection |
| Collection.DeleteCollectionSpec | AIAgentForge/state/collection_state.py:73-90 | delete_collection always shows an alert and ends not loading; it reloads exactly when the delete passes; the list itself is not edited |
| Collection.LoadCollectionsSpec | AIAgentForge/state/collection_state.py:92-116 | loading ends false; without a user nothing else changes; a successful fetch replaces the list and leaves the alert; a failure shows the alert and keeps the list; the list changes only after a successful fetch |
| Collection.CreateCollectionSpec | AIAgentForge/state/collection_state.py:118-156 | a blank name sets the empty-name key, shows the alert, inserts nothing and leaves is_loading; otherwise loading ends false, the insert carries the name and the user's id, success (and only success) sets the success key, clears the name and reloads; a failure clears the key and keeps the name |
| Collection.CollectionState.constructor | AIAgentForge/state/collection_state.py:20-29 | the list is empty, every flag false, every text empty and no id chosen |
| Collection.CollectionState.SetNewCollectionName | AIAgentForge/state/collection_state.py:31-33 | only the name field changes, to the value |
| Collection.CollectionState.SetShowConfirmModal | AIAgentForge/state/collection_state.py:35-40 | the new state is the modal specification's |
| Collection.CollectionState.ShowConfirmHandler | AIAgentForge/state/collection_state.py:42-46 | the new state is show_confirm's specification |
| Collection.CollectionState.CancelDeleteHandler | AIAgentForge/state/collection_state.py:48-51 | the new state is cancel_delete's specification |
| Collection.CollectionState.ConfirmDeleteHandler | AIAgentForge/state/collection_state.py:54-71 | the new state, the id sent and the reload flag are confirm_delete's specification |
| Collection.CollectionState.DeleteCollectionHandler | AIAgentForge/state/collection_state.py:73-90 | the new state and reload flag are delete_collection's specification |
| Collection.CollectionState.LoadCollectionsHandler | AIAgentForge/state/collection_state.py:92-116 | the new state is load_collections' specification |
| Collection.CollectionState.CreateCollectionHandler | AIAgentForge/state/collection_state.py:118-156 | the new state, the insert sent and the reload flag are create_collection's specification |
| Dashboard.DropUnderscoresDigits | AIAgentForge/state/dashboard_state.py:16 | removing the underscores from a run of digits and underscores leaves only digits |
| Dashboard.DropUnderscoresOfDigits | AIAgentForge/state/dashboard_state.py:16 | a run of digits has no underscores to remove |
| Dashboard.DigitsValueOfNat | AIAgentForge/state/dashboard_state.py:16 | the decimal rendering of a natural number is all digits and reads back as that number |
| Dashboard.RenderedRun | AIAgentForge/state/dashboard_state.py:16 | the rendering of a natural number is a digit run accepted by int(), with nothing to drop, whose value is the number |
| Dashboard.ParseDigitsOfNat | AIAgentForge/state/dashboard_state.py:16 | the digit-run parser reads the rendering of n back as n |
| Dashboard.ParseUnsigned | AIAgentForge/state/dashboard_state.py:16 | int(str(n)) == n for a natural number |
| Dashboard.ParseNegated | AIAgentForge/state/dashboard_state.py:16 | a minus sign before an accepted digit run negates its value |
| Dashboard.ParseIntOfString | AIAgentForge/state/dashboard_state.py:16 | int(str(i)) == i for every integer |
| Dashboard.GroupedDigits | AIAgentForge/state/dashboard_state.py:16 | digit-group underscores are dropped: "1_000" reads as 1000 |
| Dashboard.ParseIntGrouped | AIAgentForge/state/dashboard_state.py:16 | surrounding whitespace, a plus sign and group underscores are accepted: " +1_000 " reads as 1000 |
| Dashboard.ParseIntDoubleUnderscore | AIAgentForge/state/dashboard_state.py:16 | a doubled underscore makes int() raise |
| Dashboard.ParseIntBlank | AIAgentForge/state/dashboard_state.py:16 | an empty or blank age makes int() raise |
| Dashboard.DashboardState.constructor | AIAgentForge/state/dashboard_state.py:6-9 | the list starts with the two initial users |
| Dashboard.DashboardState.AddUser | AIAgentForge/state/dashboard_state.py:10-23 | a missing or empty name or age returns the alert and leaves the list; an age int() rejects raises and leaves the list; otherwise exactly one record with int(age) and role "신규 사용자" is appended after the unchanged entries, and total_users grows by one |
| Document.LastSegmentSpec | AIAgentForge/state/document_state.py:105 | the collection id of a URL ending in "/segment", where the segment has no slash, is exactly that segment |
| Document.LastSegmentOfTrailingSlash | AIAgentForge/state/document_state.py:105-112 | a URL ending in "/" yields the empty id, which the upload rejects |
| Document.StripBucketPrefixSpec | AIAgentForge/state/document_state.py:287-290 | one leading "document-files/" is removed, a path without it is kept, and a doubled prefix loses only one copy |
| Document.FileRunSpec | AIAgentForge/state/document_state.py:140-251 | every file's progress climbs without decreasing and ends at 100, with status done or failed; a file is counted exactly when the same-name check, the storage upload and the insert all passed; the error is absent exactly on the full success path |
| Document.FailedTraceClimbs | AIAgentForge/state/document_state.py:157-250 | any prefix of the success progress values followed by 100 never decreases |
| Document.FileRunTrace | AIAgentForge/state/document_state.py:140-251 | the progress written for any file is non-empty, never decreases and ends at 100 |
| Document.FileRunSuccess | AIAgentForge/state/document_state.py:153-245 | the success path writes 10, 20, 30, 50, 60, 80, 100, ends done, counted, without an error |
| Document.FileRunDuplicate | AIAgentForge/state/document_state.py:145-151 | a name already in the collection fails at once at 100 with the same-name error, uncounted |
| Document.FileRunWithoutRow | AIAgentForge/state/document_state.py:183-228 | an insert that returns no row reuses the previous file's document id; with none, the file fails, still counted, with the unbound-name error |
| Document.RunFilesLength | AIAgentForge/state/document_state.py:140 | the loop yields one result per file |
| Document.RunFilesAt | AIAgentForge/state/document_state.py:140-251 | the k-th result is the k-th file's own run, with the document id the earlier files left, so a failing file does not stop the others |
| Document.CountIsStored | AIAgentForge/state/document_state.py:190-253 | successful_uploads is the number of files whose document row was stored, even when a later step failed |
| Document.MarkWaitingSpec | AIAgentForge/state/document_state.py:132-136 | every file of the batch shows "waiting" at progress 0 with no error |
| Document.MarkWaitingOthers | AIAgentForge/state/document_state.py:132-136 | entries of names outside the batch are unchanged |
| Document.RecordAllSpec | AIAgentForge/state/document_state.py:147-250 | after the loop every file stands at 100; with distinct names each shows its own final status and its error |
| Document.WithoutSpec | AIAgentForge/state/document_state.py:299 | the filter succeeds exactly when every document has an id; it keeps exactly the documents whose id differs, and never adds one |
| Document.DeleteDocumentSpec | AIAgentForge/state/document_state.py:265-310 | loading ends and an alert shows; a path is removed only for the owner, and it is the row's path without the bucket prefix; the list changes only on the full success path and then exactly by the filter; the upload maps are untouched |
| Document.DeleteDocumentNotOwner | AIAgentForge/state/document_state.py:282-306 | another user's document is never removed: nothing is sent, the list is kept and the no-permission failure is shown |
| Document.DocumentState.constructor | AIAgentForge/state/document_state.py:32-42 | an empty list, empty maps, nothing loading or uploading, no alert |
| Document.DocumentState.MarkFilesWaiting | AIAgentForge/state/document_state.py:132-136 | only the three maps change, to the waiting specification of the batch |
| Document.DocumentState.RecordFile | AIAgentForge/state/document_state.py:147-250 | only the maps change: one file's final progress, status and error are written |
| Document.DocumentState.ProcessFiles | AIAgentForge/state/document_state.py:139-251 | the results are the loop specification, the count is the number of counted results, and only the maps change, by writing every result |
| Document.DocumentState.ProcessFile | AIAgentForge/state/document_state.py:141-251 | one file's result and the document id carried on are the per-file specification; only the maps change |
| Document.DocumentState.HandleUpload | AIAgentForge/state/document_state.py:104-263 | a URL without an id shows the missing-id alert; an empty batch changes nothing; a storage client set-up that raises (nobody signed in, or `set_session` failing) ends the handler with that error and no change; no user shows the not-found alert; otherwise the results are the loop specification, the maps shown are the waiting maps overwritten by the results, the count alert and reload happen exactly when at least one file was stored, and uploading ends with the maps emptied |
| Document.DocumentState.ProcessBatch | AIAgentForge/state/document_state.py:130-251 | uploading turns on, and the maps become the waiting maps overwritten by every result |
| Document.DocumentState.FinishUpload | AIAgentForge/state/document_state.py:253-263 | the count alert and reload happen exactly when the count is at least one; uploading ends and the three maps are emptied |
| Document.DocumentState.DeleteDocumentHandler | AIAgentForge/state/document_state.py:265-310 | the new state and the path sent are delete_document's specification |
| I18n.FormatPrefix | AIAgentForge/state/language_state.py:649 | format copies text without braces unchanged in front of whatever the rest formats to |
| I18n.FormatPlain | AIAgentForge/state/language_state.py:649 | a text without braces formats to itself |
| I18n.FormatField | AIAgentForge/state/language_state.py:649 | a {name} field is replaced by that argument's value |
| I18n.FormatMissingArgument | AIAgentForge/state/language_state.py:649 | a field whose name has no argument makes format raise |
| I18n.FormatLeadingField | AIAgentForge/state/language_state.py:649 | text followed by a field formats to the text, then the field's value, then the formatted rest |
| I18n.FormatOneField | AIAgentForge/state/language_state.py:649 | a one-field template such as "오류 발생: {error}" gets its value in place |
| I18n.FormatTwoFields | AIAgentForge/state/language_state.py:649 | a two-field template such as "리서치 완료 ({done}/{total})" gets both values in place |
| I18n.TrStrUnknownLocale | AIAgentForge/state/language_state.py:647-649 | tr_str with an unknown locale reads the "ko" table |
| I18n.TrStrLookup | AIAgentForge/state/language_state.py:647-649 | a key missing from the locale's table formats the key itself; a present key formats its entry |
| I18n.TrStrMissingKey | AIAgentForge/state/language_state.py:649 | a missing key without braces comes back verbatim |
| I18n.LanguageState.constructor | AIAgentForge/state/language_state.py:8-9 | the locale starts as "ko" over the given tables |
| I18n.LanguageState.SetLocale | AIAgentForge/state/language_state.py:634-636 | the locale becomes the argument unchanged and the tables are kept |
| Utf8.EncodeChar | AIAgentForge/utils/text_extractor.py:34 | one character encodes to as many bytes as section 3 of RFC 3629 gives for its range |
| Utf8.DecodeOne | AIAgentForge/utils/text_extractor.py:34 | a decoded first character consumes between 1 and all of the bytes, exactly its encoded length |
| Utf8.DecodeOneOfEncoded | AIAgentForge/utils/text_extractor.py:34 | a character's encoding, followed by anything, decodes back to that character and its length |
| Utf8.EncodeOfDecodedOne | AIAgentForge/utils/text_extractor.py:34 | the character read from well-formed bytes re-encodes to exactly the bytes consumed |
| Utf8.DecodeEncode | AIAgentForge/utils/text_extractor.py:34 | decoding undoes encoding for every string |
| Utf8.EncodeDecode | AIAgentForge/utils/text_extractor.py:34 | a byte sequence that decodes is the encoding of its result, so decoding is injective |
| Utf8.DecodeAscii | AIAgentForge/utils/text_extractor.py:34 | ASCII bytes decode to the same characters, one per byte |
| Utf8.IllFormedExamples | AIAgentForge/utils/text_extractor.py:33-36 | a lone continuation byte, an overlong form, an encoded surrogate and a lead byte above F4 are all rejected, as section 4 of RFC 3629 requires |
| TextExtractor.PdfTextIsConcat | AIAgentForge/utils/text_extractor.py:6-13 | the PDF text is the concatenation of the page texts in order, a page without text adding "" |
| TextExtractor.DocxTextIsJoin | AIAgentForge/utils/text_extractor.py:15-22 | the DOCX text is every paragraph followed by a newline: the newline-join of the paragraphs plus a final newline, "" for none |
| TextExtractor.DocxTextAsJoin | AIAgentForge/utils/text_extractor.py:15-22 | the DOCX text is the newline-join of the paragraphs and one empty piece |
| TextExtractor.DocxTextLines | AIAgentForge/utils/text_extractor.py:15-22 | splitting the DOCX text on newlines gives back the paragraphs, then an empty piece, when no paragraph holds a newline |
| TextExtractor.OtherMimeSpec | AIAgentForge/utils/text_extractor.py:31-36 | any other MIME type never fails: bytes that decode give a text whose encoding is those bytes, ill-formed bytes give the fixed message |
| TextExtractor.PlainTextRoundTrip | AIAgentForge/utils/text_extractor.py:33-34 | a UTF-8 text file is read back as the text that was saved |
| TextExtractor.DispatchSpec | AIAgentForge/utils/text_extractor.py:24-29 | the PDF MIME type goes to the PDF reader and the DOCX MIME type to the DOCX reader, whose failures propagate |
| Post.EndsWithZ | AIAgentForge/state/post_state.py:190 | endswith('Z') is decided by the last character |
| Post.SplitTwo | AIAgentForge/state/post_state.py:195 | splitting "a+b" on '+' when neither part has one gives exactly the two parts |
| Post.SplitFirst | AIAgentForge/state/post_state.py:196 | the first piece of a split is the text before the first separator |
| Post.NoZulu | AIAgentForge/state/post_state.py:190-191 | text whose last character is not 'Z' is not rewritten |
| Post.NormalizeKeepsOffset | AIAgentForge/state/post_state.py:190-197 | with a '.' and a '+', the fractional seconds are removed and the "+offset" kept |
| Post.DropFractionOffset | AIAgentForge/state/post_state.py:192-197 | with a '.' and one '+', the fraction goes and the offset stays |
| Post.NormalizeZulu | AIAgentForge/state/post_state.py:190-197 | a trailing 'Z' becomes "+00:00", the fraction removed |
| Post.NormalizeNoPlus | AIAgentForge/state/post_state.py:198-199 | with a '.' and no '+', everything from the first '.' is dropped |
| Post.NormalizeNoFraction | AIAgentForge/state/post_state.py:189-192 | text with no '.' and no trailing 'Z' is left as it is |
| Post.NormalizeTwoPlus | AIAgentForge/state/post_state.py:194-195 | two '+' next to a '.' make the two-name unpacking raise |
| Post.DropFractionTwoPlus | AIAgentForge/state/post_state.py:194-195 | the split into more than two parts fails the unpacking |
| Post.FormatTimestampSpec | AIAgentForge/state/post_state.py:185-207 | a missing or empty created_at formats to ""; otherwise the normalised text is rendered, or "날짜 형식 오류" when the parse rejects it; an unpacking error propagates |
| Post.FormatCommentsSpec | AIAgentForge/state/post_state.py:223-246 | formatting succeeds exactly when every comment's timestamp does; then the comments keep their count and order and each gains its formatted_created_at ("" when missing) |
| Post.IsAuthor | AIAgentForge/state/post_state.py:209-214 | is_author holds exactly when authenticated, a user exists, the post is non-empty, and the post's user_id equals the user's id |
| Post.FormatCommentsFailureSticks | AIAgentForge/state/post_state.py:224-248 | once a prefix of the comments fails to format, the whole load fails |
| Post.PostDetailState.constructor | AIAgentForge/state/post_state.py:170-175 | an empty post, loading, not editing, no comments, an empty comment field |
| Post.PostDetailState.NoComments | AIAgentForge/state/post_state.py:180-183 | no_comments holds exactly when the comment list is empty |
| Post.PostDetailState.ToggleEdit | AIAgentForge/state/post_state.py:297-299 | is_editing becomes its negation, so toggling twice restores it; nothing else changes |
| Post.PostDetailState.LoadComments | AIAgentForge/state/post_state.py:217-248 | a failed query or a timestamp that raises leaves the list; otherwise the list becomes the formatted comments; the post, the flags and the comment draft are kept |
| Chat.StreamedTextStopsAtEnd | AIAgentForge/state/chat_state.py:69-73 | nothing after the first None content is read |
| Chat.StreamedTextAppend | AIAgentForge/state/chat_state.py:69-77 | a stream part without an end marker contributes its text and then the rest's |
| Chat.ContentDeltas | AIAgentForge/state/chat_state.py:69-74 | the stream of pieces has one content delta per piece, in order |
| Chat.StreamedOne | AIAgentForge/state/chat_state.py:74 | one content delta contributes its text |
| Chat.StreamedPieces | AIAgentForge/state/chat_state.py:62-77 | the answer of a stream of pieces is their concatenation |
| Chat.ChatState.constructor | AIAgentForge/state/chat_state.py:24-34 | an empty question, an empty history, not processing |
| Chat.ChatState.SetQuestion | AIAgentForge/state/chat_state.py:29-31 | only the question changes, to the value |
| Chat.ChatState.Answer | AIAgentForge/state/chat_state.py:36-78 | a blank question changes nothing; otherwise the user message with the original text goes in front; if the stream opens, the question is cleared and the assistant entry in front of it is the streamed text; the older entries follow unchanged in order |
| NavBar.NavBarState.constructor | AIAgentForge/components/navbar.py:8-9 | the mobile menu starts closed |
| NavBar.NavBarState.Toggle | AIAgentForge/components/navbar.py:11-12 | the flag becomes its negation, so toggling twice restores it |
| NavBar.NavBarState.Close | AIAgentForge/components/navbar.py:14-15 | the menu is closed afterwards whatever it was, so closing twice equals closing once |

## Left out

- Concurrency: background events, `async with self`, `asyncio.to_thread`, `asyncio.gather` scheduling and the interleaving of stale tasks. Each handler is one atomic step, `yield` is a no-op, and gather is an ordered sequential map.
- `asyncio.sleep(5)` in the upload flow: delays do not change state.
- Language models, web search, the transcript service, the PDF and DOCX readers, the database, storage, embeddings and chunking: all are oracle parameters, because their behaviour is not in this repository.
- A YouTube stream that fails part-way through is modelled as its delivered chunks followed by one exception (`Youtube.Stream`).
- Chat.ChatState.Answer: the chat stream either fails as it is opened or delivers all of its pieces. A failure part-way through the stream is not modelled.
- Prompt texts (`agents/prompts.py`) and the `prompt | llm` chains: an oracle sees only the values that the code passes in.
- The literal text of the generated tool source in `_convert` (`n8n2langgraph_state.py:144-178`), of the header and of the tail: `N8nState.Render` is a parameter. The values filled into the tool template are modelled (`N8nState.FillOf`), and so is `tools_block`.
- `env_hints_list` of `N8nConvertState`: a display conversion of `env_hints`.
- `invoke_chat` and the compiled LangGraph app of `build_langgraph_from_n8n`: LLM calls. The builder's checks on the model, tools and trigger are modelled.
- The JSON workflow is taken as already decoded into the fields the code reads (`N8nUtils.Node`). `json.loads` is an oracle, and JSON shapes on which `.get` raises are modelled only where the model parameter is a bare string or the workflow is not an object.
- Auth.RefreshStep: states the intended refresh, where a session from the service is installed. As written the awaited call always raises, which `Auth.CheckAuthAsWritten` models (see "## Findings").
- Auth.CheckAuthRefresh: its success case is the intended flow. As written it cannot happen; `Auth.CheckAuthAsWrittenSignsOut` states what does.
- Auth.CheckAuthNoRefreshToken: its signed-in case is the intended flow. As written the state always ends signed out with two /login redirects, as `Auth.CheckAuthAsWrittenSignsOut` states.
- Auth.AuthState.TryRefresh: proved against `Auth.RefreshStep` for any refresh oracle. The behaviour as written is this method given `Auth.AwaitedSync` of the service.
- Auth.AuthState.CheckAuthHandler: proved against `Auth.CheckAuth` for any refresh oracle. The behaviour as written is this method given `Auth.AwaitedSync` of the service.
- Dashboard.ParseInt: only ASCII digits are accepted. Python's `int()` also accepts every other Unicode decimal digit, so an age such as "３０" is read as 30 there but is modelled as a raise.
- Dashboard.DashboardState.AddUser: inherits the ASCII-only digits of `Dashboard.ParseInt`.
- N8nUtils.IsSecretName: case mapping is ASCII only. Python's `lower()` and `upper()` also map non-ASCII letters.
- Strs.Lower: ASCII only, for the same reason; `Strs.Upper` likewise.
- Blog.LeadingDigitsSpec: `\d` is modelled as the ASCII digits, whereas Python's `re` also matches other Unicode decimal digits.
- Python's `str.format` beyond `{name}` fields and `{{`/`}}` escapes: `I18n.Format` takes the whole text between the braces as the argument name, so format specs, conversions and indexing are not interpreted.
- The translation tables in `language_state.py`: the model takes them as a constructor parameter rather than the roughly 600 literal entries.
- `LanguageState.tr` (`language_state.py:643-645`) indexes a class-level computed var and does not work as written.
- `handle_key_down` of `BlogState` (`blog_state.py:161-164`) calls an async generator without iterating it, so it does nothing.
- `BaseState.admin_client` (`base.py:67-70`): its body is not modelled. Its four callers in `admin_state.py` call it without `await`, so they hold a coroutine object, `Admin.Coroutine`. As written, the profile read, the user writes, the board insert and the board delete all raise `AttributeError` before reaching the service, and the `except` clauses swallow it. The handlers also accept an awaited client (`Admin.Client`), the intended behaviour (see "## Findings").
- `delete_user`, `load_all_users`, `load_all_boards` and `delete_board` of `AdminState`: they only forward to the database. As written, `delete_board` goes through the un-awaited `admin_client()`, so it never deletes and never reloads the boards.
- The `oauth_start`/`oauth_callback` pair of `auth_state.py`: redirect-URL construction that depends on the environment.
- `load_documents_on_page_load`, `init_on_load` and the display toggles of `document_state.py`: database reads and UI flags.
- The uuid part of storage file names in `document_state.py`: random. It is an input of the per-file oracle.
- `datetime.fromisoformat` and `strftime` in `post_state.py`: an oracle that renders or rejects the normalised string.
- Exception message texts and Python's `repr`: an error is carried as an opaque message string.
- The UI: every page and component layout, and the navbar rendering.

## Findings

| source | as written | input that shows it | evidently intended | confidence | as-written member | corrected member |
|---|---|---|---|---|---|---|
| AIAgentForge/state/auth_state.py:74 | `await` on `refresh_session` of the synchronous client built at `base.py:30`, so the `await` raises on every response | an access token that `get_user` rejects, with a refresh token the service accepts | the new session replaces both tokens and the user stays signed in | not executed | Auth.CheckAuthAsWritten (Auth.RefreshLostAsWritten, Auth.CheckAuthAsWrittenSignsOut) | Auth.CheckAuth (Auth.CheckAuthRefresh) |
| AIAgentForge/state/admin_state.py:124 | `self.admin_client()` without `await` (also at lines 94, 177 and 193) yields a coroutine object, which has no `auth` or `from_`; `admin_client` (`base.py:67-70`) also names its parameter `slef` while its body reads `self` | any admin saving a user, opening the editor of a user with a stored profile, or creating a board | the service client's writes and reads reach the database | not executed | Admin.AdminHandlersAsWritten | Admin.AdminHandlersIntended |
