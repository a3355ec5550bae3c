/** The chat page state (state/chat_state.py): a question is put at the front of the history,
    sent to the chat model as a stream, and the assistant's answer grows at the front of the
    history while the stream's deltas arrive. */
module Chat {
  import opened Wrappers
  import opened Strs

  datatype Message = Message(role: string, content: string)

  function UserMessage(text: string): Message { Message("user", text) }
  function AssistantMessage(text: string): Message { Message("assistant", text) }

  /** One streamed item's delta: without a `content` attribute, with `content` None (the end
      of the response), or with a piece of text. */
  datatype Delta = NoContent | EndOfResponse | Content(text: string)

  /** Opening the completion stream for a question: its items, or the error raised. */
  type Completion = string -> Result<seq<Delta>>

  /** The answer text a stream produces: the pieces received before the first `None` content,
      in order; deltas without a `content` attribute contribute nothing. */
  function StreamedText(items: seq<Delta>): string {
    if items == [] then ""
    else
      match items[0]
      case EndOfResponse => ""
      case NoContent => StreamedText(items[1..])
      case Content(t) => t + StreamedText(items[1..])
  }

  /** Nothing after the end marker is read. */
  lemma {:induction false} StreamedTextStopsAtEnd(before: seq<Delta>, after: seq<Delta>)
    requires forall k :: 0 <= k < |before| ==> before[k] != EndOfResponse
    ensures StreamedText(before + [EndOfResponse] + after) == StreamedText(before)
  {
    if before != [] {
      assert (before + [EndOfResponse] + after)[1..] == before[1..] + [EndOfResponse] + after;
      StreamedTextStopsAtEnd(before[1..], after);
    }
  }

  /** A stream without an end marker contributes all its text pieces, in order. */
  lemma {:induction false} StreamedTextAppend(a: seq<Delta>, b: seq<Delta>)
    requires forall k :: 0 <= k < |a| ==> a[k] != EndOfResponse
    ensures StreamedText(a + b) == StreamedText(a) + StreamedText(b)
  {
    if a == [] {
      assert a + b == b;
    } else {
      assert (a + b)[1..] == a[1..] + b;
      StreamedTextAppend(a[1..], b);
    }
  }

  /** A stream that delivers each piece as a content delta. */
  function ContentDeltas(pieces: seq<string>): (r: seq<Delta>)
    ensures |r| == |pieces| && forall k :: 0 <= k < |r| ==> r[k] == Content(pieces[k])
  {
    seq(|pieces|, k requires 0 <= k < |pieces| => Content(pieces[k]))
  }

  /** A single content delta contributes its text. */
  lemma StreamedOne(p: string)
    ensures StreamedText([Content(p)]) == p
  {
    assert [Content(p)][1..] == [];
  }

  /** The text pieces are concatenated: the answer of a stream of pieces is their join. */
  lemma {:induction false} StreamedPieces(pieces: seq<string>)
    ensures StreamedText(ContentDeltas(pieces)) == Concat(pieces)
  {
    if pieces != [] {
      var init := pieces[..|pieces| - 1];
      var last := pieces[|pieces| - 1];
      var initItems := ContentDeltas(init);
      assert ContentDeltas(pieces) == initItems + [Content(last)];
      StreamedTextAppend(initItems, [Content(last)]);
      StreamedPieces(init);
      StreamedOne(last);
    }
  }

  class ChatState {
    var question: string
    var chatHistory: seq<Message>
    var processing: bool

    constructor()
      ensures question == "" && chatHistory == [] && !processing
    {
      question, chatHistory, processing := "", [], false;
    }

    method SetQuestion(value: string)
      modifies this
      ensures question == value && chatHistory == old(chatHistory) && processing == old(processing)
    {
      question := value;
    }

    /** `answer`. A blank question changes nothing. Otherwise the user message goes to the
        front of the history, then the completion is requested with the original text; when it
        opens, the question is cleared and the assistant entry in front of the user message
        ends as the streamed text. The older entries keep their order behind the two. */
    method Answer(complete: Completion) returns (outcome: Outcome)
      modifies this
      ensures IsBlank(old(question)) ==>
        outcome == Pass && question == old(question) && chatHistory == old(chatHistory)
      ensures !IsBlank(old(question)) ==>
        match complete(old(question))
        case Err(e) =>
          outcome == Fail(e) && question == old(question)
          && chatHistory == [UserMessage(old(question))] + old(chatHistory)
        case Ok(items) =>
          outcome == Pass && question == ""
          && chatHistory == [AssistantMessage(StreamedText(items)), UserMessage(old(question))] + old(chatHistory)
      ensures processing == old(processing)
    {
      StripEmptyIffBlank(question);
      if Strip(question) == "" {
        return Pass;
      }
      var text := question;
      chatHistory := [UserMessage(text)] + chatHistory;
      var older := old(chatHistory);
      match complete(question) {
        case Err(e) =>
          return Fail(e);
        case Ok(items) =>
          question := "";
          var answer := "";
          chatHistory := [AssistantMessage(answer)] + chatHistory;
          var i := 0;
          while i < |items|
            invariant 0 <= i <= |items|
            invariant answer + StreamedText(items[i..]) == StreamedText(items)
            invariant chatHistory == [AssistantMessage(answer), UserMessage(text)] + older
            invariant question == "" && processing == old(processing)
          {
            assert items[i..][1..] == items[i + 1..];
            match items[i] {
              case NoContent =>
              case EndOfResponse =>
                assert answer == StreamedText(items);
                break;
              case Content(t) =>
                answer := answer + t;
                chatHistory := chatHistory[0 := AssistantMessage(answer)];
            }
            i := i + 1;
          }
          assert answer == StreamedText(items);
          outcome := Pass;
      }
    }
  }
}
