/**
 Whole-turn behaviour across the session and the streaming component: a send
 followed by the frames of one reply.
 */
module Scenarios {
  import opened Wrappers
  import opened Blocks
  import History
  import Ingest
  import ChatBody

  /**
   Send "Hello" on an empty conversation, then receive `start`, the deltas
   "Hi" and " there", and `end`, one frame per chunk: the placeholder is
   finished with "Hi there", the user block is untouched and `processing` is
   false.
   */
  lemma HelloHiThere(parse: string -> Ingest.ParseOutcome, start: string, d1: string, d2: string, end: string)
    requires parse(start) == Ingest.Frame(Some("start"), None)
    requires parse(d1) == Ingest.Frame(Some("delta"), Some("Hi"))
    requires parse(d2) == Ingest.Frame(Some("delta"), Some(" there"))
    requires parse(end) == Ingest.Frame(Some("end"), None)
    ensures var s := ChatBody.SendMessage(ChatBody.Initial, "Hello");
            var r := Ingest.Run(parse, Ingest.Mount(s.processing, s.messages), [start, d1, d2, end]);
            && r.messages == [MessageBlock("Hello", User, Text, Sent, None, None),
                              MessageBlock("Hi there", Bot, Text, Finished, None, None)]
            && !r.processing
  {
    var s := ChatBody.SendMessage(ChatBody.Initial, "Hello");
    var m := Ingest.Mount(s.processing, s.messages);
    assert s.messages == [MessageBlock("Hello", User, Text, Sent, None, None),
                          MessageBlock("Hello", Bot, Text, Processing, None, None)];
    var texts := [Some("Hi"), Some(" there")];
    Ingest.StreamedTurn(parse, m, start, [d1, d2], texts, end);
    assert [start] + [d1, d2] + [end] == [start, d1, d2, end];
    assert Ingest.Fragments(texts) == ["Hi", " there"];
    assert Ingest.Join(["Hi", " there"]) == "Hi there" by {
      assert ["Hi", " there"][1..] == [" there"];
      assert [" there"][1..] == [];
    }
  }

  /**
   The opening request of the placeholder created by a send on a conversation
   of whole turns: action "sendMessage", the sent text as prompt, language
   "auto", and as history the earlier turns followed by (text, text).
   */
  lemma SendOpensRequest(s: ChatBody.Session, text: string)
    requires |s.messages| % 2 == 0
    ensures var r := ChatBody.SendMessage(s, text);
            var req := ChatBody.StreamRequestAt(r.messages, |s.messages| + 1);
            && req == Some(History.Request("sendMessage", text, "auto",
                                           History.FormatHistory(s.messages) + [History.Turn(text, text)]))
  {
    ChatBody.SendStreamsPrompt(s, text);
  }

  /**
   An upload followed by its timer: two file blocks are appended, the reply
   for an oversized file reads "File size limit exceeded. Please upload a
   smaller file.", and `processing` is untouched.
   */
  lemma UploadOversized(s: ChatBody.Session, name: string)
    ensures var r := ChatBody.ApplyAll(s, [ChatBody.Upload(name, "File size limit exceeded."),
                                           ChatBody.FileReplyDue(name, "File size limit exceeded.")]);
            && r.processing == s.processing
            && r.questionAsked
            && r.messages == s.messages + [
                 MessageBlock("File uploaded: " + name, User, File, Sent, Some(name), Some("File size limit exceeded.")),
                 MessageBlock("File size limit exceeded. Please upload a smaller file.", Bot, File, Received,
                              Some(name), Some("File size limit exceeded."))]
  {
    var es := [ChatBody.Upload(name, "File size limit exceeded."),
               ChatBody.FileReplyDue(name, "File size limit exceeded.")];
    var status := "File size limit exceeded.";
    assert es[1..] == [ChatBody.FileReplyDue(name, status)];
    assert es[1..][1..] == [];
    var s1 := ChatBody.CompleteFileUpload(s, name, status);
    assert ChatBody.ApplyAll(s, es) == ChatBody.ApplyAll(s1, es[1..]);
    assert ChatBody.ApplyAll(s1, es[1..]) == ChatBody.DeliverFileReply(s1, name, status);
    ChatBody.FileReplyTextCases(status);
  }
}
