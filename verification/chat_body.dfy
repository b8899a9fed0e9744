/**
 The conversation session (src/Components/ChatBody.jsx): the message list,
 the `processing` flag and the `questionAsked` flag, the events that change
 them, and the choice of renderer for each block.
 */
module ChatBody {
  import opened Wrappers
  import opened Blocks
  import History

  datatype Session = Session(messages: seq<MessageBlock>, processing: bool, questionAsked: bool)

  /** The state on first render. */
  const Initial: Session := Session([], false, false)

  /** The status the upload widget reports when the page-limit check passed. */
  const StatusPageCheckPassed: string := "File page limit check succeeded."
  /** The status the upload widget reports for an oversized file. */
  const StatusSizeExceeded: string := "File size limit exceeded."

  const ReplyCheckingSize: string := "Checking file size."
  const ReplySizeExceeded: string := "File size limit exceeded. Please upload a smaller file."
  const ReplyNetworkError: string := "Network Error. Please try again later."

  /** `getBotResponse`: a BOT/TEXT/PROCESSING placeholder whose text is the prompt itself. */
  function BotResponse(messages: seq<MessageBlock>, prompt: string): (r: seq<MessageBlock>)
    ensures |r| == |messages| + 1 && r[..|messages|] == messages
    ensures r[|messages|].sentBy == Bot && r[|messages|].messageType == Text
    ensures r[|messages|].state == Processing && r[|messages|].message == prompt
  {
    messages + [CreateMessageBlock(prompt, Bot, Text, Processing)]
  }

  /**
   `handleSendMessage`: sets `processing` and `questionAsked`, appends a
   USER/TEXT/SENT block with the text and then the placeholder carrying the
   same text; the list grows by exactly two and its old prefix is untouched.
   */
  function SendMessage(s: Session, text: string): (r: Session)
    ensures r.processing && r.questionAsked
    ensures |r.messages| == |s.messages| + 2
    ensures r.messages[..|s.messages|] == s.messages
    ensures r.messages[|s.messages|] == MessageBlock(text, User, Text, Sent, None, None)
    ensures r.messages[|s.messages| + 1] == MessageBlock(text, Bot, Text, Processing, None, None)
  {
    var withUser := s.messages + [CreateMessageBlock(text, User, Text, Sent)];
    Session(BotResponse(withUser, text), true, true)
  }

  /** `handlePromptClick`: a clicked suggestion is sent exactly as typed text would be. */
  function PromptClick(s: Session, prompt: string): (r: Session)
    ensures r.processing && r.questionAsked
    ensures r.messages == s.messages + [MessageBlock(prompt, User, Text, Sent, None, None),
                                        MessageBlock(prompt, Bot, Text, Processing, None, None)]
  {
    SendMessage(s, prompt)
  }

  /**
   `handleFileUploadComplete`, first half: a USER/FILE/SENT block naming the
   file is appended and `questionAsked` is set; `processing` is left alone.
   */
  function CompleteFileUpload(s: Session, fileName: string, fileStatus: string): (r: Session)
    ensures r.processing == s.processing && r.questionAsked
    ensures r.messages == s.messages + [MessageBlock("File uploaded: " + fileName, User, File, Sent,
                                                     Some(fileName), Some(fileStatus))]
  {
    var block := CreateMessageBlock("File uploaded: " + fileName, User, File, Sent, Some(fileName), Some(fileStatus));
    s.(messages := s.messages + [block], questionAsked := true)
  }

  /** The bot's reply text to an upload status. */
  function FileReplyText(fileStatus: string): (r: string)
    ensures r in {ReplyCheckingSize, ReplySizeExceeded, ReplyNetworkError}
  {
    if fileStatus == StatusPageCheckPassed then ReplyCheckingSize
    else if fileStatus == StatusSizeExceeded then ReplySizeExceeded
    else ReplyNetworkError
  }

  /** The mapping in both directions: each reply text is produced by exactly its status class. */
  lemma FileReplyTextCases(fileStatus: string)
    ensures FileReplyText(fileStatus) == ReplyCheckingSize <==> fileStatus == StatusPageCheckPassed
    ensures FileReplyText(fileStatus) == ReplySizeExceeded <==> fileStatus == StatusSizeExceeded
    ensures FileReplyText(fileStatus) == ReplyNetworkError <==>
              fileStatus != StatusPageCheckPassed && fileStatus != StatusSizeExceeded
  {
    assert |ReplyCheckingSize| == 19 && |ReplySizeExceeded| == 55 && |ReplyNetworkError| == 38;
  }

  /**
   `handleFileUploadComplete`, the delayed half: a BOT/FILE/RECEIVED block
   with the mapped reply and the same file name and status is appended;
   nothing else changes.
   */
  function DeliverFileReply(s: Session, fileName: string, fileStatus: string): (r: Session)
    ensures r.processing == s.processing && r.questionAsked == s.questionAsked
    ensures |r.messages| == |s.messages| + 1 && r.messages[..|s.messages|] == s.messages
    ensures var b := r.messages[|s.messages|];
            b.sentBy == Bot && b.messageType == File && b.state == Received
            && b.fileName == Some(fileName) && b.fileStatus == Some(fileStatus)
            && b.message in {ReplyCheckingSize, ReplySizeExceeded, ReplyNetworkError}
    ensures r.messages == s.messages + [MessageBlock(FileReplyText(fileStatus), Bot, File, Received,
                                                     Some(fileName), Some(fileStatus))]
  {
    var block := CreateMessageBlock(FileReplyText(fileStatus), Bot, File, Received, Some(fileName), Some(fileStatus));
    s.(messages := s.messages + [block])
  }

  /** The FAQ panel shows only while the feature is on and nothing has been asked. */
  predicate ShowFaq(allowFaq: bool, s: Session) {
    allowFaq && !s.questionAsked
  }

  /** The events the session reacts to; `FileReplyDue` is the upload's timer firing. */
  datatype Event =
    | Send(text: string)
    | Prompt(prompt: string)
    | Upload(fileName: string, fileStatus: string)
    | FileReplyDue(fileName: string, fileStatus: string)

  function Apply(s: Session, e: Event): Session {
    match e
    case Send(text) => SendMessage(s, text)
    case Prompt(p) => PromptClick(s, p)
    case Upload(n, st) => CompleteFileUpload(s, n, st)
    case FileReplyDue(n, st) => DeliverFileReply(s, n, st)
  }

  function ApplyAll(s: Session, es: seq<Event>): Session
    decreases |es|
  {
    if es == [] then s else ApplyAll(Apply(s, es[0]), es[1..])
  }

  predicate AsksQuestion(e: Event) {
    e.Send? || e.Prompt? || e.Upload?
  }

  /**
   `questionAsked` is never reset, and it is set by any send, prompt click or
   upload: after such an event the FAQ panel stays hidden for good.
   */
  lemma {:induction false} QuestionAskedSticky(s: Session, es: seq<Event>)
    requires s.questionAsked || exists i :: 0 <= i < |es| && AsksQuestion(es[i])
    ensures ApplyAll(s, es).questionAsked
    ensures forall allowFaq: bool :: !ShowFaq(allowFaq, ApplyAll(s, es))
    decreases |es|
  {
    if es != [] {
      var s' := Apply(s, es[0]);
      if !s'.questionAsked {
        var i :| 0 <= i < |es| && AsksQuestion(es[i]);
        assert i != 0;
        assert AsksQuestion(es[1..][i - 1]);
      }
      QuestionAskedSticky(s', es[1..]);
    }
  }

  /** With no event at all the FAQ panel shows exactly when the feature is on. */
  lemma FaqInitiallyShown(allowFaq: bool)
    ensures ShowFaq(allowFaq, Initial) == allowFaq
  {
  }

  /** The renderer chosen for a block. */
  datatype Render =
    | UserReply(message: string)
    | Streaming(initialMessage: string)
    | BotReply(message: string)
    | FileCheckReply(message: string, fileName: Option<string>, fileStatus: Option<string>, messageType: string)

  /**
   The render branch for one block: total over (sender, state). A USER block
   of any type is a user reply, BOT+PROCESSING streams with the block's text
   as prompt, BOT+FINISHED is a bot reply, and anything else is a file-check
   reply, whose type is always "bot_response" since USER blocks never reach it.
   */
  function Classify(b: MessageBlock): (r: Render)
    ensures r.UserReply? <==> b.sentBy == User
    ensures r.Streaming? <==> b.sentBy == Bot && b.state == Processing
    ensures r.BotReply? <==> b.sentBy == Bot && b.state == Finished
    ensures r.FileCheckReply? <==> b.sentBy == Bot && (b.state.Sent? || b.state.Received?)
    ensures r.FileCheckReply? ==> r.messageType == "bot_response"
    ensures r.FileCheckReply? ==> r.fileName == b.fileName && r.fileStatus == b.fileStatus
    ensures r.Streaming? ==> r.initialMessage == b.message
    ensures r.UserReply? || r.BotReply? || r.FileCheckReply? ==> r.message == b.message
  {
    if b.sentBy == User then UserReply(b.message)
    else if b.sentBy == Bot && b.state == Processing then Streaming(b.message)
    else if b.sentBy == Bot && b.state == Finished then BotReply(b.message)
    else FileCheckReply(b.message, b.fileName, b.fileStatus,
                        if b.sentBy == User then "user_doc_upload" else "bot_response")
  }

  /**
   The request the streaming component rendered for block `i` sends when it
   connects: the block's text as prompt, the default language, and the whole
   current list as history.
   */
  function StreamRequestAt(messages: seq<MessageBlock>, i: nat): (r: Option<History.Request>)
    requires i < |messages|
    ensures r.Some? <==> Classify(messages[i]).Streaming?
    ensures r.Some? ==> r.value.prompt == messages[i].message && r.value.language == History.DefaultLanguage
    ensures r.Some? ==> r.value.action == "sendMessage" && r.value.chatHistory == History.FormatHistory(messages)
  {
    match Classify(messages[i])
    case Streaming(prompt) => Some(History.OpenRequest(prompt, None, messages))
    case _ => None
  }

  /**
   After a send on a list of whole turns, the new placeholder streams the
   prompt, and because the component is handed the list that already holds the
   new user block and the placeholder, its history ends with the pair
   (prompt, prompt).
   */
  lemma SendStreamsPrompt(s: Session, text: string)
    requires |s.messages| % 2 == 0
    ensures var r := SendMessage(s, text);
            var req := StreamRequestAt(r.messages, |s.messages| + 1);
            && req.Some?
            && req.value.prompt == text
            && req.value.chatHistory == History.FormatHistory(s.messages) + [History.Turn(text, text)]
  {
    var r := SendMessage(s, text);
    assert r.messages == s.messages + [r.messages[|s.messages|], r.messages[|s.messages| + 1]];
    History.FormatHistoryAppendTurn(s.messages, r.messages[|s.messages|], r.messages[|s.messages| + 1]);
  }

  /**
   The core does not itself keep a single turn in flight: each send adds one
   more PROCESSING block, whatever was already pending.
   */
  lemma {:induction false} SendAddsOnePending(s: Session, text: string)
    ensures CountProcessing(SendMessage(s, text).messages) == CountProcessing(s.messages) + 1
  {
    var r := SendMessage(s, text).messages;
    assert r == s.messages + [r[|s.messages|], r[|s.messages| + 1]];
    CountProcessingAppend(s.messages, [r[|s.messages|], r[|s.messages| + 1]]);
    var tail := [r[|s.messages|], r[|s.messages| + 1]];
    assert tail[1..] == [r[|s.messages| + 1]];
    assert tail[1..][1..] == [];
    assert CountProcessing(tail[1..]) == 1;
    assert CountProcessing(tail) == 1;
  }

  lemma {:induction false} CountProcessingAppend(a: seq<MessageBlock>, b: seq<MessageBlock>)
    ensures CountProcessing(a + b) == CountProcessing(a) + CountProcessing(b)
  {
    if a == [] {
      assert a + b == b;
    } else {
      assert (a + b)[1..] == a[1..] + b;
      CountProcessingAppend(a[1..], b);
    }
  }
}
