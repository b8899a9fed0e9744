/**
 The inbound side of the streaming component
 (src/Components/StreamingResponse.jsx, `onmessage`): each delivered chunk is
 appended to a buffer, the whole buffer is handed to the JSON parser, and a
 parsed frame is dispatched on its `type`.

 The JSON parser is a parameter: it reports a syntax error, a parse to `null`
 (on which reading `.type` throws a non-syntax error), or an object frame with
 an optional `type` and an optional `text`.
 */
module Ingest {
  import opened Wrappers
  import opened Blocks

  datatype ParseOutcome =
    | SyntaxErr
    | ParsedNull
    | Frame(kind: Option<string>, text: Option<string>)

  /**
   The component's state: the refs `messageBuffer` and `fullMessage`, the
   `responses` fragments, and the session's `processing` flag and message list
   that the component updates through its setters.
   */
  datatype IngestState = IngestState(
    buffer: string,
    fragments: seq<string>,
    fullMessage: string,
    processing: bool,
    messages: seq<MessageBlock>)

  /** A freshly mounted component over the session's list and flag. */
  function Mount(processing: bool, messages: seq<MessageBlock>): IngestState {
    IngestState("", [], "", processing, messages)
  }

  /** `Array.prototype.join("")`. */
  function Join(fs: seq<string>): string {
    if fs == [] then "" else fs[0] + Join(fs[1..])
  }

  lemma {:induction false} JoinAppend(fs: seq<string>, x: string)
    ensures Join(fs + [x]) == Join(fs) + x
  {
    if fs == [] {
      assert [x][1..] == [];
    } else {
      assert (fs + [x])[1..] == fs[1..] + [x];
      JoinAppend(fs[1..], x);
    }
  }

  /** The accumulated text is the join of the fragments received so far. */
  predicate Coherent(s: IngestState) {
    s.fullMessage == Join(s.fragments)
  }

  predicate IsStart(kind: Option<string>) {
    kind == Some("start") || kind == Some("content_block_start")
  }

  predicate IsDelta(kind: Option<string>) {
    kind == Some("delta")
  }

  predicate IsEnd(kind: Option<string>) {
    kind == Some("end") || kind == Some("content_block_stop")
  }

  /** A delta's fragment: a missing `text` joins as the empty string. */
  function FragmentOf(text: Option<string>): string {
    text.GetOr("")
  }

  /**
   The end handler's `map`: every PROCESSING block becomes FINISHED carrying
   `text`; the list's length, order and all other blocks are unchanged.
   */
  function FinishProcessing(ms: seq<MessageBlock>, text: string): (r: seq<MessageBlock>)
    ensures |r| == |ms|
    ensures forall i :: 0 <= i < |ms| && ms[i].state != Processing ==> r[i] == ms[i]
    ensures forall i :: 0 <= i < |ms| && ms[i].state == Processing ==>
              r[i] == ms[i].(state := Finished, message := text)
    ensures forall i :: 0 <= i < |r| ==> r[i].state != Processing
  {
    seq(|ms|, i requires 0 <= i < |ms| =>
      if ms[i].state == Processing then ms[i].(state := Finished, message := text) else ms[i])
  }

  /** The three `if`s of the handler, applied in source order to a parsed frame. */
  function Dispatch(s: IngestState, kind: Option<string>, text: Option<string>): IngestState {
    var s1 := if IsStart(kind) then s.(fullMessage := "", fragments := []) else s;
    var s2 := if IsDelta(kind)
              then s1.(fragments := s1.fragments + [FragmentOf(text)],
                       fullMessage := Join(s1.fragments + [FragmentOf(text)]))
              else s1;
    if IsEnd(kind)
    then s2.(processing := false, messages := FinishProcessing(s2.messages, s2.fullMessage))
    else s2
  }

  /**
   One `onmessage` call. The chunk is appended to the buffer before parsing; a
   syntax error keeps the grown buffer and changes nothing else; a `null`
   parse clears the buffer and changes nothing else; any parsed frame is
   dispatched and leaves the buffer empty, whatever its `type`. A start frame
   empties the fragments and the accumulated text; a frame of any other,
   unrecognised type only clears the buffer. Every step keeps the accumulated
   text equal to the join of the fragments.
   */
  function Step(parse: string -> ParseOutcome, s: IngestState, chunk: string): (r: IngestState)
    ensures parse(s.buffer + chunk).SyntaxErr? ==> r == s.(buffer := s.buffer + chunk)
    ensures parse(s.buffer + chunk).ParsedNull? ==> r == s.(buffer := "")
    ensures parse(s.buffer + chunk).Frame? ==> r.buffer == ""
    ensures parse(s.buffer + chunk).Frame? && IsStart(parse(s.buffer + chunk).kind) ==>
              r == s.(buffer := "", fragments := [], fullMessage := "")
    ensures parse(s.buffer + chunk).Frame? ==>
              var k := parse(s.buffer + chunk).kind;
              !IsStart(k) && !IsDelta(k) && !IsEnd(k) ==> r == s.(buffer := "")
    ensures Coherent(s) ==> Coherent(r)
  {
    var buffer := s.buffer + chunk;
    match parse(buffer)
    case SyntaxErr => s.(buffer := buffer)
    case ParsedNull => s.(buffer := "")
    case Frame(kind, text) =>
      Dispatch(s.(buffer := buffer), kind, text).(buffer := "")
  }

  /** Chunks delivered one after the other. */
  function Run(parse: string -> ParseOutcome, s: IngestState, chunks: seq<string>): IngestState
    decreases |chunks|
  {
    if chunks == [] then s else Run(parse, Step(parse, s, chunks[0]), chunks[1..])
  }

  /**
   A `delta` frame appends its fragment (the empty string when `text` is
   missing) to the fragments and to the accumulated text.
   */
  lemma DeltaAppends(parse: string -> ParseOutcome, s: IngestState, chunk: string)
    requires Coherent(s)
    requires parse(s.buffer + chunk).Frame? && IsDelta(parse(s.buffer + chunk).kind)
    ensures var t := FragmentOf(parse(s.buffer + chunk).text);
            Step(parse, s, chunk) == s.(buffer := "", fragments := s.fragments + [t], fullMessage := s.fullMessage + t)
  {
    JoinAppend(s.fragments, FragmentOf(parse(s.buffer + chunk).text));
  }

  /**
   An `end` or `content_block_stop` frame clears `processing`; every PROCESSING
   block becomes FINISHED with the accumulated text and keeps its other
   fields; every other block, the list's length and order are unchanged.
   */
  lemma EndFinalises(parse: string -> ParseOutcome, s: IngestState, chunk: string)
    requires parse(s.buffer + chunk).Frame? && IsEnd(parse(s.buffer + chunk).kind)
    ensures var r := Step(parse, s, chunk);
            && !r.processing
            && r.buffer == ""
            && r.fragments == s.fragments
            && r.fullMessage == s.fullMessage
            && |r.messages| == |s.messages|
            && (forall i :: 0 <= i < |s.messages| && s.messages[i].state != Processing ==>
                  r.messages[i] == s.messages[i])
            && (forall i :: 0 <= i < |s.messages| && s.messages[i].state == Processing ==>
                  r.messages[i] == s.messages[i].(state := Finished, message := s.fullMessage))
            && CountProcessing(r.messages) == 0
  {
    NoneProcessing(Step(parse, s, chunk).messages);
  }

  lemma {:induction false} NoneProcessing(ms: seq<MessageBlock>)
    requires forall i :: 0 <= i < |ms| ==> ms[i].state != Processing
    ensures CountProcessing(ms) == 0
  {
    if ms != [] {
      NoneProcessing(ms[1..]);
    }
  }

  /** A step reads the state's buffer only through `buffer + chunk`. */
  lemma StepSeesOnlyJoinedBuffer(parse: string -> ParseOutcome, s: IngestState, chunk: string, s': IngestState, chunk': string)
    requires s' == s.(buffer := s'.buffer)
    requires s'.buffer + chunk' == s.buffer + chunk
    ensures Step(parse, s', chunk') == Step(parse, s, chunk)
  {
  }

  /**
   Split delivery: when no proper prefix of the text (beyond what was already
   buffered) parses, delivering it in N >= 1 non-empty pieces ends in the
   same state as delivering it whole.
   */
  lemma {:induction false} SplitDelivery(parse: string -> ParseOutcome, s: IngestState, chunks: seq<string>)
    requires |chunks| >= 1
    requires forall i :: 0 <= i < |chunks| ==> chunks[i] != ""
    requires forall j :: |s.buffer| < j < |s.buffer| + |Join(chunks)| ==>
               parse((s.buffer + Join(chunks))[..j]).SyntaxErr?
    ensures Run(parse, s, chunks) == Step(parse, s, Join(chunks))
    decreases |chunks|
  {
    var c, rest := chunks[0], chunks[1..];
    if rest == [] {
      assert Join(chunks) == c;
    } else {
      var b, w := s.buffer, Join(chunks);
      assert w == c + Join(rest);
      assert |Join(rest)| > 0 by { assert Join(rest) == rest[0] + Join(rest[1..]); }
      var j := |b| + |c|;
      assert (b + w)[..j] == b + c;
      var s' := Step(parse, s, c);
      assert s' == s.(buffer := b + c);
      assert s'.buffer + Join(rest) == b + w;
      forall j' | |s'.buffer| < j' < |s'.buffer| + |Join(rest)|
        ensures parse((s'.buffer + Join(rest))[..j']).SyntaxErr?
      {
      }
      SplitDelivery(parse, s', rest);
      StepSeesOnlyJoinedBuffer(parse, s, w, s', Join(rest));
    }
  }

  /** The fragments of a run of delta frames, a missing `text` counting as "". */
  function Fragments(texts: seq<Option<string>>): (r: seq<string>)
    ensures |r| == |texts|
  {
    seq(|texts|, i requires 0 <= i < |texts| => FragmentOf(texts[i]))
  }

  /**
   Deltas delivered one frame per chunk onto an empty buffer extend the
   fragments by their texts in arrival order; the accumulated text stays their
   join, and nothing else changes.
   */
  lemma {:induction false} DeltasAccumulate(parse: string -> ParseOutcome, s: IngestState,
                                            chunks: seq<string>, texts: seq<Option<string>>)
    requires s.buffer == "" && Coherent(s)
    requires |chunks| == |texts|
    requires forall i :: 0 <= i < |chunks| ==> parse(chunks[i]) == Frame(Some("delta"), texts[i])
    ensures Run(parse, s, chunks) == s.(fragments := s.fragments + Fragments(texts),
                                         fullMessage := Join(s.fragments + Fragments(texts)))
    decreases |chunks|
  {
    if chunks == [] {
      assert s.fragments + Fragments(texts) == s.fragments;
    } else {
      assert "" + chunks[0] == chunks[0];
      DeltaAppends(parse, s, chunks[0]);
      var s' := Step(parse, s, chunks[0]);
      JoinAppend(s.fragments, FragmentOf(texts[0]));
      DeltasAccumulate(parse, s', chunks[1..], texts[1..]);
      assert s'.fragments + Fragments(texts[1..]) == s.fragments + Fragments(texts);
    }
  }

  /**
   A turn: a start frame then deltas f1..fn (one frame per chunk) leave the
   accumulated text equal to f1+...+fn; a following end frame writes exactly
   that text into every PROCESSING block and clears `processing`.
   */
  lemma StreamedTurn(parse: string -> ParseOutcome, s: IngestState, start: string,
                     deltas: seq<string>, texts: seq<Option<string>>, end: string)
    requires s.buffer == ""
    requires parse(start).Frame? && IsStart(parse(start).kind)
    requires |deltas| == |texts|
    requires forall i :: 0 <= i < |deltas| ==> parse(deltas[i]) == Frame(Some("delta"), texts[i])
    requires parse(end).Frame? && IsEnd(parse(end).kind)
    ensures var r := Run(parse, s, [start] + deltas + [end]);
            && r.fullMessage == Join(Fragments(texts))
            && !r.processing
            && r.buffer == ""
            && |r.messages| == |s.messages|
            && (forall i :: 0 <= i < |s.messages| && s.messages[i].state == Processing ==>
                  r.messages[i] == s.messages[i].(state := Finished, message := Join(Fragments(texts))))
            && (forall i :: 0 <= i < |s.messages| && s.messages[i].state != Processing ==>
                  r.messages[i] == s.messages[i])
  {
    assert "" + start == start;
    var s1 := Step(parse, s, start);
    DeltasAccumulate(parse, s1, deltas, texts);
    var s2 := Run(parse, s1, deltas);
    assert [] + Fragments(texts) == Fragments(texts);
    RunAppend(parse, s, [start] + deltas, end);
    assert ([start] + deltas)[1..] == deltas;
    assert Run(parse, s, [start] + deltas) == s2;
    assert "" + end == end;
    EndFinalises(parse, s2, end);
  }

  lemma {:induction false} RunAppend(parse: string -> ParseOutcome, s: IngestState, chunks: seq<string>, last: string)
    ensures Run(parse, s, chunks + [last]) == Step(parse, Run(parse, s, chunks), last)
    decreases |chunks|
  {
    if chunks == [] {
      assert [last][1..] == [];
    } else {
      assert (chunks + [last])[1..] == chunks[1..] + [last];
      RunAppend(parse, Step(parse, s, chunks[0]), chunks[1..], last);
    }
  }

  /**
   Once the buffer holds text that no continuation makes parse, every later
   chunk only grows the buffer: no frame is dispatched again, so an `end`
   frame can no longer finish the PROCESSING blocks.
   */
  lemma {:induction false} StuckBuffer(parse: string -> ParseOutcome, s: IngestState, chunks: seq<string>)
    requires forall x: string :: parse(s.buffer + x).SyntaxErr?
    ensures Run(parse, s, chunks) == s.(buffer := s.buffer + Join(chunks))
    decreases |chunks|
  {
    if chunks == [] {
      assert s.buffer + "" == s.buffer;
    } else {
      var c := chunks[0];
      assert parse(s.buffer + c).SyntaxErr?;
      var s' := s.(buffer := s.buffer + c);
      forall x: string
        ensures parse(s'.buffer + x).SyntaxErr?
      {
        assert s'.buffer + x == s.buffer + (c + x);
      }
      StuckBuffer(parse, s', chunks[1..]);
      assert s'.buffer + Join(chunks[1..]) == s.buffer + Join(chunks);
    }
  }
}
