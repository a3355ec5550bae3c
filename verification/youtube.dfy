/** The YouTube summariser page state (state/youtube_state.py): a video URL is turned into a
    transcript, translated into Korean unless it already is Korean, and summarised. The
    transcript service and the two streaming LLM chains are oracles; `lang.tr_str` is the
    translator of the current language state, passed in as a function. */
module Youtube {
  import opened Wrappers
  import opened Strs
  import opened I18n

  /** A character of `[0-9A-Za-z_-]`. */
  predicate IsIdChar(c: char) {
    ('0' <= c <= '9') || ('A' <= c <= 'Z') || ('a' <= c <= 'z') || c == '_' || c == '-'
  }

  /** Eleven id characters start at index `k`. */
  predicate IdAt(s: string, k: nat) {
    k + 11 <= |s| && forall j :: k <= j < k + 11 ==> IsIdChar(s[j])
  }

  /** `(?:v=|/)([0-9A-Za-z_-]{11})` matches at index `i`. */
  predicate MatchAt(s: string, i: nat) {
    (i + 2 <= |s| && s[i] == 'v' && s[i + 1] == '=' && IdAt(s, i + 2))
    || (i < |s| && s[i] == '/' && IdAt(s, i + 1))
  }

  /** Group 1 of a match at index `i`. */
  function CaptureAt(s: string, i: nat): (id: string)
    requires MatchAt(s, i)
    ensures |id| == 11 && forall k :: 0 <= k < 11 ==> IsIdChar(id[k])
  {
    if s[i] == 'v' then s[i + 2..i + 13] else s[i + 1..i + 12]
  }

  /** The leftmost match at or after index `from`, as `re.search` scans. */
  function FirstMatch(s: string, from: nat): (r: Option<nat>)
    requires from <= |s|
    ensures r.Some? ==> from <= r.value < |s| && MatchAt(s, r.value)
    ensures r.Some? ==> forall j :: from <= j < r.value ==> !MatchAt(s, j)
    ensures r.None? ==> forall j :: from <= j < |s| ==> !MatchAt(s, j)
    decreases |s| - from
  {
    if from == |s| then None
    else if MatchAt(s, from) then Some(from)
    else FirstMatch(s, from + 1)
  }

  /** `extract_video_id`: the eleven id characters after the leftmost `v=` or `/` that is
      followed by eleven of them; `None` where the source raises `ValueError`. */
  function ExtractVideoId(url: string): Option<string> {
    match FirstMatch(url, 0)
    case None => None
    case Some(i) => Some(CaptureAt(url, i))
  }

  /** The extracted id is the capture of the leftmost match, and there is none exactly when no
      index matches. */
  lemma ExtractVideoIdSpec(url: string)
    ensures var r := ExtractVideoId(url);
      && (r.None? <==> forall j :: 0 <= j < |url| ==> !MatchAt(url, j))
      && (r.Some? ==> exists i :: 0 <= i < |url| && MatchAt(url, i) && r.value == CaptureAt(url, i)
                               && forall j :: 0 <= j < i ==> !MatchAt(url, j))
  {
    var m := FirstMatch(url, 0);
    if m.Some? {
      assert MatchAt(url, m.value);
    }
  }

  /** A watch query yields its id. */
  lemma WatchUrlId()
    ensures ExtractVideoId("watch?v=dQw4w9WgXcQ") == Some("dQw4w9WgXcQ")
  {
    var u := "watch?v=dQw4w9WgXcQ";
    assert MatchAt(u, 6);
    assert FirstMatch(u, 6) == Some(6);
    assert FirstMatch(u, 0) == Some(6);
    assert u[8..19] == "dQw4w9WgXcQ";
  }

  /** A longer id run is cut to its first eleven characters. */
  lemma LongIdTruncated()
    ensures ExtractVideoId("v=AAAAAAAAAAAAAAA") == Some("AAAAAAAAAAA")
  {
    var w := "v=AAAAAAAAAAAAAAA";
    assert MatchAt(w, 0);
    assert w[2..13] == "AAAAAAAAAAA";
  }

  /** A path segment shorter than eleven characters is no id. */
  lemma ShortSegmentRejected()
    ensures ExtractVideoId("youtu.be/short") == None
  {
    var b := "youtu.be/short";
    assert !MatchAt(b, 8);
  }

  /** `language_map.get(lang_code, lang_code)` */
  function LanguageName(code: string): string {
    if code == "en" then "English"
    else if code == "ja" then "Japanese"
    else if code == "es" then "Spanish"
    else if code == "fr" then "French"
    else if code == "ko" then "Korean"
    else code
  }

  /** The five known codes get names; any other code is shown as it is. */
  lemma LanguageNameSpec(code: string)
    ensures code in {"en", "ja", "es", "fr", "ko"} ==> LanguageName(code) != code
    ensures code !in {"en", "ja", "es", "fr", "ko"} ==> LanguageName(code) == code
  {
  }

  /** The message `extract_video_id` raises on an unrecognised URL. */
  const InvalidUrlMessage := "INVALID_YOUTUBE_URL"

  /** An exception raised inside the `try`: a `ValueError` or any other kind. */
  datatype ErrorKind = ValueError | OtherError
  datatype Failure = Failure(kind: ErrorKind, message: string)

  /** A transcript: the joined caption text and its language code. */
  datatype Transcript = Transcript(text: string, code: string)

  /** The transcript service's answer for a video id. */
  datatype Fetched = Fetched(transcript: Transcript) | FetchFailed(failure: Failure)

  /** A chat-model stream: the chunks it delivers, then possibly an exception. */
  datatype Stream = Stream(chunks: seq<string>, failure: Option<Failure>)

  type TranscriptService = string -> Fetched
  type Chain = string -> Stream

  datatype View = View(
    videoUrl: string, originalTranscript: string, translatedText: string, summaryText: string,
    sourceLanguage: string, isProcessing: bool, statusText: string, errorText: string)

  /** The `except` clauses: an invalid URL gets its own message; any other `ValueError` the
      prefixed message; any other exception the prefixed message and `error_text`. */
  function Except(v: View, f: Failure, tr: Translator): View {
    match f.kind
    case ValueError =>
      if f.message == InvalidUrlMessage then v.(statusText := tr("yt_err_invalid_url", map[]))
      else v.(statusText := tr("yt_err_prefix", map["error" := f.message]))
    case OtherError =>
      v.(statusText := tr("yt_err_prefix", map["error" := f.message]), errorText := f.message)
  }

  /** Step 3: the summary stream over `input`. */
  function SummaryStep(v: View, input: string, summarize: Chain, tr: Translator): View {
    var st := summarize(input);
    var v1 := v.(summaryText := Concat(st.chunks));
    match st.failure
    case Some(f) => Except(v1, f, tr)
    case None => v1.(statusText := "")
  }

  /** Steps 2 and 3 once the transcript is known. */
  function TranscriptSteps(v: View, t: Transcript, translate: Chain, summarize: Chain, tr: Translator): View {
    var v1 := v.(originalTranscript := t.text, sourceLanguage := LanguageName(t.code));
    if t.code == "ko" then
      SummaryStep(v1.(translatedText := tr("yt_skip_translation", map[])), t.text, summarize, tr)
    else
      var st := translate(t.text);
      var v2 := v1.(translatedText := Concat(st.chunks));
      match st.failure
      case Some(f) => Except(v2, f, tr)
      case None => SummaryStep(v2, Concat(st.chunks), summarize, tr)
  }

  /** The handlers overwrite the status and leave the busy flag alone. */
  lemma ExceptFrame(v: View, f: Failure, tr: Translator, busy: bool, status: string)
    ensures Except(v.(isProcessing := busy, statusText := status), f, tr) == Except(v, f, tr).(isProcessing := busy)
  {
  }

  /** Step 3 overwrites the status it starts from. */
  lemma SummaryStepStatus(v: View, input: string, summarize: Chain, tr: Translator, status: string)
    ensures SummaryStep(v.(statusText := status), input, summarize, tr) == SummaryStep(v, input, summarize, tr)
  {
  }

  lemma TranscriptStepsFrame(v: View, t: Transcript, translate: Chain, summarize: Chain, tr: Translator,
                             busy: bool, status: string)
    ensures TranscriptSteps(v.(isProcessing := busy, statusText := status), t, translate, summarize, tr)
         == TranscriptSteps(v, t, translate, summarize, tr).(isProcessing := busy)
  {
  }

  /** The state `run` leaves behind. */
  function RunResult(v: View, fetch: TranscriptService, translate: Chain, summarize: Chain, tr: Translator): View {
    if Strip(v.videoUrl) == "" then v.(statusText := tr("yt_err_enter_url", map[]))
    else
      var reset := v.(isProcessing := false, statusText := "", errorText := "", originalTranscript := "",
                      translatedText := "", summaryText := "", sourceLanguage := "");
      match ExtractVideoId(v.videoUrl)
      case None => Except(reset, Failure(ValueError, InvalidUrlMessage), tr)
      case Some(id) =>
        match fetch(id)
        case FetchFailed(f) => Except(reset, f, tr)
        case Fetched(t) => TranscriptSteps(reset, t, translate, summarize, tr)
  }

  /** A blank URL only sets the "enter a URL" status. */
  lemma RunBlankUrl(v: View, fetch: TranscriptService, translate: Chain, summarize: Chain, tr: Translator)
    requires IsBlank(v.videoUrl)
    ensures RunResult(v, fetch, translate, summarize, tr) == v.(statusText := tr("yt_err_enter_url", map[]))
  {
    StripEmptyIffBlank(v.videoUrl);
  }

  /** Any other run ends with the busy flag down and the URL kept, whatever happened. */
  lemma RunEndsIdle(v: View, fetch: TranscriptService, translate: Chain, summarize: Chain, tr: Translator)
    requires !IsBlank(v.videoUrl)
    ensures var r := RunResult(v, fetch, translate, summarize, tr);
      !r.isProcessing && r.videoUrl == v.videoUrl
  {
    StripEmptyIffBlank(v.videoUrl);
  }

  /** A URL without a video id gets the invalid-URL status; nothing else is filled in. */
  lemma RunInvalidUrl(v: View, fetch: TranscriptService, translate: Chain, summarize: Chain, tr: Translator)
    requires !IsBlank(v.videoUrl) && ExtractVideoId(v.videoUrl).None?
    ensures RunResult(v, fetch, translate, summarize, tr)
         == v.(isProcessing := false, statusText := tr("yt_err_invalid_url", map[]), errorText := "",
               originalTranscript := "", translatedText := "", summaryText := "", sourceLanguage := "")
  {
    StripEmptyIffBlank(v.videoUrl);
  }

  /** Korean captions skip translation: the translation field holds the skip notice and the
      summary is made from the original transcript. */
  lemma RunKorean(v: View, fetch: TranscriptService, translate: Chain, summarize: Chain, tr: Translator)
    requires !IsBlank(v.videoUrl) && ExtractVideoId(v.videoUrl).Some?
    requires fetch(ExtractVideoId(v.videoUrl).value).Fetched?
    requires fetch(ExtractVideoId(v.videoUrl).value).transcript.code == "ko"
    ensures var t := fetch(ExtractVideoId(v.videoUrl).value).transcript;
      var r := RunResult(v, fetch, translate, summarize, tr);
      && r.originalTranscript == t.text
      && r.sourceLanguage == "Korean"
      && r.translatedText == tr("yt_skip_translation", map[])
      && r.summaryText == Concat(summarize(t.text).chunks)
  {
    StripEmptyIffBlank(v.videoUrl);
  }

  /** Other captions are translated: the translation is the concatenation of the translation
      chunks, and when that stream completes the summary is made from exactly that text. */
  lemma RunTranslated(v: View, fetch: TranscriptService, translate: Chain, summarize: Chain, tr: Translator)
    requires !IsBlank(v.videoUrl) && ExtractVideoId(v.videoUrl).Some?
    requires fetch(ExtractVideoId(v.videoUrl).value).Fetched?
    requires fetch(ExtractVideoId(v.videoUrl).value).transcript.code != "ko"
    ensures var t := fetch(ExtractVideoId(v.videoUrl).value).transcript;
      var r := RunResult(v, fetch, translate, summarize, tr);
      var translated := Concat(translate(t.text).chunks);
      && r.originalTranscript == t.text
      && r.sourceLanguage == LanguageName(t.code)
      && r.translatedText == translated
      && (translate(t.text).failure.None? ==> r.summaryText == Concat(summarize(translated).chunks))
      && (translate(t.text).failure.Some? ==> r.summaryText == "")
  {
    StripEmptyIffBlank(v.videoUrl);
  }

  /** A run whose calls all succeed ends with an empty status and no error. */
  lemma RunSucceeds(v: View, fetch: TranscriptService, translate: Chain, summarize: Chain, tr: Translator)
    requires !IsBlank(v.videoUrl) && ExtractVideoId(v.videoUrl).Some?
    requires fetch(ExtractVideoId(v.videoUrl).value).Fetched?
    requires var t := fetch(ExtractVideoId(v.videoUrl).value).transcript;
      t.code != "ko" ==> translate(t.text).failure.None?
    requires var t := fetch(ExtractVideoId(v.videoUrl).value).transcript;
      var input := if t.code == "ko" then t.text else Concat(translate(t.text).chunks);
      summarize(input).failure.None?
    ensures var r := RunResult(v, fetch, translate, summarize, tr);
      r.statusText == "" && r.errorText == ""
  {
    StripEmptyIffBlank(v.videoUrl);
  }

  /** Only exceptions other than `ValueError` fill `error_text`, with their message. */
  lemma ExceptErrorText(v: View, f: Failure, tr: Translator)
    ensures Except(v, f, tr).errorText == if f.kind == OtherError then f.message else v.errorText
    ensures f.kind == ValueError && f.message == InvalidUrlMessage ==>
      Except(v, f, tr).statusText == tr("yt_err_invalid_url", map[])
    ensures !(f.kind == ValueError && f.message == InvalidUrlMessage) ==>
      Except(v, f, tr).statusText == tr("yt_err_prefix", map["error" := f.message])
  {
  }

  /** The chunk loop: each chunk's content appended in arrival order. */
  method Accumulate(chunks: seq<string>) returns (text: string)
    ensures text == Concat(chunks)
  {
    text := "";
    var i := 0;
    while i < |chunks|
      invariant 0 <= i <= |chunks|
      invariant text == Concat(chunks[..i])
    {
      assert chunks[..i + 1][..i] == chunks[..i];
      text := text + chunks[i];
      i := i + 1;
    }
    assert chunks[..i] == chunks;
  }

  class YoutubeState {
    var videoUrl: string
    var originalTranscript: string
    var translatedText: string
    var summaryText: string
    var sourceLanguage: string
    var isProcessing: bool
    var statusText: string
    var errorText: string

    function Snapshot(): View
      reads this
    {
      View(videoUrl, originalTranscript, translatedText, summaryText, sourceLanguage, isProcessing,
           statusText, errorText)
    }

    constructor()
      ensures Snapshot() == View("", "", "", "", "", false, "", "")
    {
      videoUrl, originalTranscript, translatedText, summaryText := "", "", "", "";
      sourceLanguage, isProcessing, statusText, errorText := "", false, "", "";
    }

    method SetVideoUrl(value: string)
      modifies this
      ensures Snapshot() == old(Snapshot()).(videoUrl := value)
    {
      videoUrl := value;
    }

    /** The `except` clauses applied to the fields. */
    method Handle(f: Failure, tr: Translator)
      modifies this
      ensures Snapshot() == Except(old(Snapshot()), f, tr)
    {
      if f.kind == ValueError {
        if f.message == InvalidUrlMessage {
          statusText := tr("yt_err_invalid_url", map[]);
        } else {
          statusText := tr("yt_err_prefix", map["error" := f.message]);
        }
      } else {
        statusText := tr("yt_err_prefix", map["error" := f.message]);
        errorText := f.message;
      }
    }

    /** Step 3: streaming the summary of `input` into `summary_text`. */
    method Summarize(input: string, summarize: Chain, tr: Translator)
      requires summaryText == ""
      modifies this
      ensures Snapshot() == SummaryStep(old(Snapshot()), input, summarize, tr)
    {
      statusText := tr("yt_status_summarizing", map[]);
      var st := summarize(input);
      var text := Accumulate(st.chunks);
      summaryText := summaryText + text;
      match st.failure {
        case Some(f) => Handle(f, tr);
        case None => statusText := "";
      }
    }

    /** Steps 2 and 3 once the transcript is known. */
    method ProcessTranscript(t: Transcript, translate: Chain, summarize: Chain, tr: Translator)
      modifies this
      requires translatedText == "" && summaryText == ""
      ensures Snapshot() == TranscriptSteps(old(Snapshot()), t, translate, summarize, tr)
    {
      ghost var v1 := Snapshot().(originalTranscript := t.text, sourceLanguage := LanguageName(t.code));
      originalTranscript := t.text;
      sourceLanguage := LanguageName(t.code);
      assert Snapshot() == v1;
      if t.code == "ko" {
        translatedText := tr("yt_skip_translation", map[]);
        Summarize(originalTranscript, summarize, tr);
      } else {
        var translating := tr("yt_status_translating", map[]);
        statusText := translating;
        var st := translate(originalTranscript);
        var text := Accumulate(st.chunks);
        assert translatedText + text == text;
        translatedText := translatedText + text;
        ghost var v2 := v1.(translatedText := Concat(st.chunks));
        assert Snapshot() == v2.(statusText := translating);
        var scriptToSummarize := text;
        match st.failure {
          case Some(f) =>
            assert Except(v2.(statusText := translating), f, tr) == Except(v2, f, tr);
            Handle(f, tr);
          case None =>
            SummaryStepStatus(v2, scriptToSummarize, summarize, tr, translating);
            Summarize(scriptToSummarize, summarize, tr);
        }
      }
    }

    /** The reset at the start of a non-blank run, up to the "extracting" status. */
    method Reset(tr: Translator)
      modifies this
      ensures Snapshot() == old(Snapshot()).(isProcessing := true, statusText := tr("yt_status_extracting", map[]),
        errorText := "", originalTranscript := "", translatedText := "", summaryText := "", sourceLanguage := "")
    {
      isProcessing := true;
      statusText := "";
      errorText := "";
      originalTranscript := "";
      translatedText := "";
      summaryText := "";
      sourceLanguage := "";
      statusText := tr("yt_status_extracting", map[]);
    }

    /** `run`: extraction, translation or skip, summary; errors mapped to statuses; the busy flag
        is down at the end of every non-blank run. */
    method Run(fetch: TranscriptService, translate: Chain, summarize: Chain, tr: Translator)
      modifies this
      ensures Snapshot() == RunResult(old(Snapshot()), fetch, translate, summarize, tr)
    {
      if Strip(videoUrl) == "" {
        statusText := tr("yt_err_enter_url", map[]);
        return;
      }
      ghost var reset := old(Snapshot()).(isProcessing := false, statusText := "", errorText := "",
        originalTranscript := "", translatedText := "", summaryText := "", sourceLanguage := "");
      ghost var extracting := tr("yt_status_extracting", map[]);
      Reset(tr);
      assert Snapshot() == reset.(isProcessing := true, statusText := extracting);
      ghost var after: View;
      match ExtractVideoId(videoUrl) {
        case None =>
          ExceptFrame(reset, Failure(ValueError, InvalidUrlMessage), tr, true, extracting);
          Handle(Failure(ValueError, InvalidUrlMessage), tr);
          after := Except(reset, Failure(ValueError, InvalidUrlMessage), tr);
        case Some(id) =>
          match fetch(id) {
            case FetchFailed(f) =>
              ExceptFrame(reset, f, tr, true, extracting);
              Handle(f, tr);
              after := Except(reset, f, tr);
            case Fetched(t) =>
              TranscriptStepsFrame(reset, t, translate, summarize, tr, true, extracting);
              ProcessTranscript(t, translate, summarize, tr);
              after := TranscriptSteps(reset, t, translate, summarize, tr);
          }
      }
      assert after == RunResult(old(Snapshot()), fetch, translate, summarize, tr);
      assert Snapshot() == after.(isProcessing := true);
      isProcessing := false;
    }
  }
}
