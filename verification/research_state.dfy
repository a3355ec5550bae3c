/** The deep-research page state (state/research_state.py): the main question, the editable
    sub-question list, the per-sub-question results and the final report, driven through the
    stages initial -> editing_subquestions -> researching -> complete. */
module Research {
  import opened Wrappers
  import opened Strs
  import opened Researcher

  datatype Stage = Initial | EditingSubquestions | Researching | Complete

  /** Placeholder text appended by "add sub-question". */
  const NewSubQuestionText := "새로운 질문을 입력하세요..."
  const StatusGenerating := "초기 하위 질문 생성 중..."
  const StatusReview := "생성된 하위 질문을 검토하고 수정하세요."
  const StatusNothingToResearch := "리서치를 진행할 하위 질문이 없습니다."
  const StatusWritingReport := "최종 보고서 작성 중..."
  const StatusDone := "리서치 완료!"

  /** `f"오류 발생: {e}"` */
  function ErrorStatus(e: string): string { "오류 발생: " + e }

  /** `f"{len(self.sub_questions)}개의 하위 질문에 대해 리서치 진행 중..."` */
  function ResearchingStatus(n: nat): string { NatToString(n) + "개의 하위 질문에 대해 리서치 진행 중..." }

  /** The guard of `run_research_on_sub_questions`: the list is empty or every entry is blank. */
  predicate NothingToResearch(qs: seq<string>) {
    qs == [] || forall k :: 0 <= k < |qs| ==> Strip(qs[k]) == ""
  }

  /** The guard holds exactly when no sub-question has a non-whitespace character. */
  lemma NothingToResearchIffAllBlank(qs: seq<string>)
    ensures NothingToResearch(qs) <==> forall k :: 0 <= k < |qs| ==> IsBlank(qs[k])
  {
    forall k | 0 <= k < |qs| ensures Strip(qs[k]) == "" <==> IsBlank(qs[k]) {
      StripEmptyIffBlank(qs[k]);
    }
  }

  /** All fields of the state at once, so that a method can say which ones it changes. */
  datatype View = View(
    mainQuestion: string, tavilyApiKey: string, subQuestions: seq<string>,
    researchResults: seq<ResearchResult>, report: string, isGenerating: bool,
    currentStatus: string, researchStage: Stage)

  class ResearchState {
    var mainQuestion: string
    var tavilyApiKey: string
    var subQuestions: seq<string>
    var researchResults: seq<ResearchResult>
    var report: string
    var isGenerating: bool
    var currentStatus: string
    var researchStage: Stage

    function Snapshot(): View
      reads this
    {
      View(mainQuestion, tavilyApiKey, subQuestions, researchResults, report, isGenerating,
           currentStatus, researchStage)
    }

    constructor()
      ensures Snapshot() == View("", "", [], [], "", false, "", Initial)
    {
      mainQuestion, tavilyApiKey, subQuestions, researchResults := "", "", [], [];
      report, isGenerating, currentStatus, researchStage := "", false, "", Initial;
    }

    /** `is_form_valid`: the main question has a non-whitespace character. */
    function IsFormValid(): (r: bool)
      reads this
      ensures r <==> !IsBlank(mainQuestion)
    {
      StripEmptyIffBlank(mainQuestion);
      Strip(mainQuestion) != ""
    }

    /** `update_sub_question`: replaces one entry; an index out of range changes nothing. */
    method UpdateSubQuestion(index: int, value: string)
      modifies this
      ensures 0 <= index < |old(subQuestions)| ==>
        Snapshot() == old(Snapshot()).(subQuestions := old(subQuestions)[index := value])
      ensures !(0 <= index < |old(subQuestions)|) ==> Snapshot() == old(Snapshot())
    {
      if 0 <= index < |subQuestions| {
        subQuestions := subQuestions[index := value];
      }
    }

    /** `delete_sub_question`: removes one entry, keeping the others in order. */
    method DeleteSubQuestion(index: int)
      modifies this
      ensures 0 <= index < |old(subQuestions)| ==>
        Snapshot() == old(Snapshot()).(subQuestions := old(subQuestions)[..index] + old(subQuestions)[index + 1..])
      ensures !(0 <= index < |old(subQuestions)|) ==> Snapshot() == old(Snapshot())
    {
      if 0 <= index < |subQuestions| {
        subQuestions := subQuestions[..index] + subQuestions[index + 1..];
      }
    }

    /** `add_sub_question`: appends the placeholder question. */
    method AddSubQuestion()
      modifies this
      ensures Snapshot() == old(Snapshot()).(subQuestions := old(subQuestions) + [NewSubQuestionText])
    {
      subQuestions := subQuestions + [NewSubQuestionText];
    }

    /** `generate_sub_questions_for_editing`. The form's main question is stripped and stored;
        a blank one stops there. Otherwise the previous task is cleared and the decomposer runs:
        on success its questions are offered for editing, on failure only the status changes.
        The busy flag is down again at the end either way. */
    method GenerateSubQuestionsForEditing(formData: map<string, string>, decompose: Decomposer)
      modifies this
      ensures var mq := Strip(if "main_question" in formData then formData["main_question"] else "");
        mainQuestion == mq
        && (mq == "" ==> Snapshot() == old(Snapshot()).(mainQuestion := mq))
        && (mq != "" ==>
              var cleared := old(Snapshot()).(mainQuestion := mq, researchResults := [], report := "",
                                              isGenerating := false);
              match GetSubQuestions(mq, decompose)
              case Ok(qs) =>
                Snapshot() == cleared.(subQuestions := qs, researchStage := EditingSubquestions,
                                       currentStatus := StatusReview)
              case Err(e) =>
                Snapshot() == cleared.(subQuestions := [], researchStage := Initial,
                                       currentStatus := ErrorStatus(e)))
    {
      var mq := Strip(if "main_question" in formData then formData["main_question"] else "");
      mainQuestion := mq;
      if mainQuestion == "" {
        return;
      }
      isGenerating := true;
      subQuestions := [];
      researchResults := [];
      report := "";
      researchStage := Initial;
      currentStatus := StatusGenerating;
      match GetSubQuestions(mainQuestion, decompose) {
        case Ok(qs) =>
          subQuestions := qs;
          researchStage := EditingSubquestions;
          currentStatus := StatusReview;
        case Err(e) =>
          currentStatus := ErrorStatus(e);
      }
      isGenerating := false;
    }

    /** The reset at the start of a research run. */
    method BeginResearch()
      modifies this
      ensures Snapshot() == old(Snapshot()).(isGenerating := true, researchStage := Researching,
        researchResults := [], report := "", currentStatus := ResearchingStatus(|old(subQuestions)|))
    {
      isGenerating := true;
      researchStage := Researching;
      researchResults := [];
      report := "";
      currentStatus := ResearchingStatus(|subQuestions|);
    }

    /** Storing the gathered results, with the progress messages shown before the report is written. */
    method StoreResults(rs: seq<ResearchResult>)
      modifies this
      ensures Snapshot() == old(Snapshot()).(researchResults := rs, currentStatus := StatusWritingReport)
    {
      researchResults := rs;
      currentStatus := "리서치 완료 (" + NatToString(|subQuestions|) + "/" + NatToString(|subQuestions|) + ")";
      currentStatus := StatusWritingReport;
    }

    /** `run_research_on_sub_questions`. With nothing to research only the status changes.
        Otherwise every sub-question is researched (results in sub-question order, any failure
        fails the batch), the results are stored, and the report is written from them. A failed
        batch leaves the results empty; a failed report leaves the results in place, the report
        empty and the stage at researching. */
    method RunResearchOnSubQuestions(search: Search, summarize: Summarizer, writer: Writer)
      modifies this
      ensures NothingToResearch(old(subQuestions)) ==>
        Snapshot() == old(Snapshot()).(currentStatus := StatusNothingToResearch)
      ensures !NothingToResearch(old(subQuestions)) ==>
        var started := old(Snapshot()).(researchStage := Researching, researchResults := [], report := "",
                                        isGenerating := false);
        match GatherResearch(old(subQuestions), old(tavilyApiKey), search, summarize)
        case Err(e) => Snapshot() == started.(currentStatus := ErrorStatus(e))
        case Ok(rs) =>
          match WriteReport(rs, old(mainQuestion), writer)
          case Err(e) => Snapshot() == started.(researchResults := rs, currentStatus := ErrorStatus(e))
          case Ok(rep) =>
            Snapshot() == started.(researchResults := rs, report := rep, researchStage := Complete,
                                   currentStatus := StatusDone)
      ensures !NothingToResearch(old(subQuestions)) && researchStage == Complete ==>
        |researchResults| == |subQuestions|
        && forall i :: 0 <= i < |subQuestions| ==> researchResults[i].subQuestion == subQuestions[i]
    {
      if NothingToResearch(subQuestions) {
        currentStatus := StatusNothingToResearch;
        return;
      }
      var gathered := GatherResearch(subQuestions, tavilyApiKey, search, summarize);
      GatherResearchSpec(subQuestions, tavilyApiKey, search, summarize);
      BeginResearch();
      match gathered {
        case Err(e) =>
          currentStatus := ErrorStatus(e);
        case Ok(rs) =>
          var written := WriteReport(rs, mainQuestion, writer);
          StoreResults(rs);
          match written {
            case Err(e) =>
              currentStatus := ErrorStatus(e);
            case Ok(rep) =>
              report := rep;
              researchStage := Complete;
              currentStatus := StatusDone;
          }
      }
      isGenerating := false;
    }
  }
}
