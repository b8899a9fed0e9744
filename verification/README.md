# Streaming chat client core, modelled in Dafny

This project models the logic inside three React components of a chat client
that talks to a remote model over a WebSocket:

- **StreamingResponse** — when its connection opens it sends one request
  (`sendMessage`, the prompt, a language tag, the prior conversation paired into
  `{user, bot}` turns); for every inbound chunk it appends to a buffer, parses
  the whole buffer as JSON, and dispatches on the frame's `type` (`start` /
  `content_block_start` resets the text, `delta` appends a fragment, `end` /
  `content_block_stop` finishes every PROCESSING block and clears `processing`).
- **ChatBody** — the conversation session: sending text (a USER/TEXT/SENT
  block followed by a BOT/TEXT/PROCESSING placeholder), prompt clicks, file-upload
  completion with its delayed bot reply, the `questionAsked` flag that hides
  the FAQ panel, and the choice of renderer for each block.
- **FAQExamples** — `darkenColor`, which parses `#rrggbb`, scales each channel
  down by a percentage and prints it back as lower-case hex.

Everything is modelled with immutable datatypes and pure step functions; event
sequences are folds over them.

| file | module | models |
|---|---|---|
| wrappers.dfy | `Wrappers` | `Option`, standing for JavaScript's `undefined` |
| blocks.dfy | `Blocks` | the message block record and its factory |
| history.dfy | `History` | `formattedHistory` and the `onopen` request |
| ingest.dfy | `Ingest` | the `onmessage` buffer / parse / dispatch step |
| chat_body.dfy | `ChatBody` | session events, FAQ visibility, render classification |
| colors.dfy | `Colors` | `darkenColor`, with `parseInt(s, 16)`, `toString(16)` and `padStart` |
| scenarios.dfy | `Scenarios` | whole-turn lemmas across the modules above |

The JSON parser is a parameter `parse: string -> ParseOutcome` with three
outcomes: a syntax error, a parse to `null` (reading `.type` on it throws a
non-syntax error), or an object frame with an optional `type` and an optional
`text`. Any other JSON value (a number, a string) reads `.type` as `undefined`,
so it is a frame with no `type`.

Behaviour of the code worth noting:

- The placeholder appended on send carries the prompt as its `message`, not an
  empty string (src/Components/ChatBody.jsx:145). The renderer passes that text to
  the streaming component as its prompt.
- The end handler finishes **every** PROCESSING block in the list, not just one
  bound block (src/Components/StreamingResponse.jsx:75-83).
- Every `SyntaxError` keeps the buffer, including one from input that can never
  become valid JSON; only a non-syntax error (the `null` parse) drops it
  (src/Components/StreamingResponse.jsx:89-95). Once the buffer holds text that no
  continuation can make parse, every later chunk only grows it, so no `end`
  frame can finish the turn (`Ingest.StuckBuffer`).
- The streaming component is handed the list that already holds the new user
  block and the placeholder, so on a conversation of whole turns its
  `chatHistory` ends with the pair (prompt, prompt) (`ChatBody.SendStreamsPrompt`).
- Nothing in the session keeps a single turn in flight: each send adds one more
  PROCESSING block (`ChatBody.SendAddsOnePending`).

## Model

| member | source | states |
|---|---|---|
| History.FormatHistoryPairs | src/Components/StreamingResponse.jsx:30-39 | pairing yields exactly floor(n/2) turns, turn k being the messages of blocks 2k and 2k+1; a trailing odd block is dropped |
| History.FormatHistoryReadsOnlyMessages | src/Components/StreamingResponse.jsx:30-39 | two lists with the same messages pair identically: `sentBy` and the other fields are never consulted |
| History.FormatHistoryAppendTurn | src/Components/StreamingResponse.jsx:30-39 | on an even-length list, appending two blocks appends exactly their pair |
| History.OpenRequest | src/Components/StreamingResponse.jsx:42-47 | the request has action "sendMessage", the component's prompt, the language defaulting to "auto" (line 12), and the pairing of the list as chatHistory |
| Ingest.Step | src/Components/StreamingResponse.jsx:50-97 | the chunk is appended before parsing; a syntax error keeps buffer+chunk and changes nothing else; a null parse only empties the buffer; any parsed frame empties it; start resets fragments and text; an unknown type only clears the buffer; text stays the join of the fragments |
| Ingest.FinishProcessing | src/Components/StreamingResponse.jsx:75-83 | same length and order; non-PROCESSING blocks unchanged; each PROCESSING block becomes FINISHED with the given text and keeps its other fields; none is left PROCESSING |
| Ingest.DeltaAppends | src/Components/StreamingResponse.jsx:62-67 | a delta appends its fragment (missing text as "") to the fragments and to the accumulated text, and clears the buffer |
| Ingest.EndFinalises | src/Components/StreamingResponse.jsx:70-88 | an end frame clears processing and the buffer, finishes every PROCESSING block with the accumulated text, leaves other blocks, length and order alone, and leaves no block PROCESSING |
| Ingest.SplitDelivery | src/Components/StreamingResponse.jsx:52-91 | if no proper prefix beyond the retained buffer parses, delivering text in N >= 1 non-empty pieces ends in the same state as delivering it whole |
| Ingest.StuckBuffer | src/Components/StreamingResponse.jsx:52-91 | once no continuation of the buffer parses, any further chunks only grow the buffer and change nothing else |
| Ingest.DeltasAccumulate | src/Components/StreamingResponse.jsx:62-67 | deltas delivered one per chunk extend the fragments by their texts in arrival order, the text staying their join |
| Ingest.StreamedTurn | src/Components/StreamingResponse.jsx:55-88 | start, deltas f1..fn, end: every PROCESSING block is finished with f1+...+fn, processing is false, other blocks unchanged |
| ChatBody.BotResponse | src/Components/ChatBody.jsx:144-146 | appends one BOT/TEXT/PROCESSING block whose message is the prompt, leaving the prefix untouched |
| ChatBody.SendMessage | src/Components/ChatBody.jsx:32-38 | sets processing and questionAsked; the list grows by exactly two, the old prefix untouched: USER/TEXT/SENT with the text, then the BOT/TEXT/PROCESSING placeholder with the same text |
| ChatBody.PromptClick | src/Components/ChatBody.jsx:51-53 | a prompt click has exactly the effect of sending that text |
| ChatBody.CompleteFileUpload | src/Components/ChatBody.jsx:40-43 | appends USER/FILE/SENT "File uploaded: " + name with the file name and status, sets questionAsked, leaves processing alone |
| ChatBody.FileReplyText | src/Components/ChatBody.jsx:46 | the reply is one of the three fixed texts |
| ChatBody.FileReplyTextCases | src/Components/ChatBody.jsx:46 | each reply text is produced exactly by its status class: page check passed, size exceeded, anything else |
| ChatBody.DeliverFileReply | src/Components/ChatBody.jsx:45-48 | appends exactly one BOT/FILE/RECEIVED block whose text is the status's mapped reply, with the upload's file name and status; flags untouched |
| ChatBody.QuestionAskedSticky | src/Components/ChatBody.jsx:37-62 | once any send, prompt click or upload has happened (or the flag is already set), questionAsked stays true and the FAQ panel is hidden |
| ChatBody.FaqInitiallyShown | src/Components/ChatBody.jsx:62 | before any event the FAQ panel shows exactly when the feature flag is on |
| ChatBody.Classify | src/Components/ChatBody.jsx:69-85 | total partition: USER is a user reply, BOT+PROCESSING streams its text as prompt, BOT+FINISHED is a bot reply, the rest is a file-check reply whose type is always "bot_response"; every reply carries the block's message, and the file-check reply its file name and status |
| ChatBody.StreamRequestAt | src/Components/ChatBody.jsx:71-77 | a block opens a stream exactly when it renders as streaming; the request has action "sendMessage", the block's text as prompt, language "auto", and the pairing of the whole current list, placeholder included, as history |
| ChatBody.SendStreamsPrompt | src/Components/ChatBody.jsx:72-76 | after a send on whole turns, the placeholder's request carries the text as prompt and the history ends with (text, text) |
| ChatBody.SendAddsOnePending | src/Components/ChatBody.jsx:144-146 | each send adds exactly one PROCESSING block, whatever is already pending |
| Colors.StripFirstHash | src/Components/FAQExamples.jsx:33 | only the first `#` is removed; without one the string is unchanged |
| Colors.Substring | src/Components/FAQExamples.jsx:36-38 | `substring(start, end)` with clamped indices: exact within the string, cut at its end, empty past it |
| Colors.ParseInt16 | src/Components/FAQExamples.jsx:36-38 | a non-empty all-hex string parses to its base-16 value |
| Colors.ParseTwoHexDigits | src/Components/FAQExamples.jsx:36-38 | two hex digits parse to their value, at most 255 |
| Colors.Scale | src/Components/FAQExamples.jsx:41-43 | NaN stays NaN; for 0 <= percent <= 100 a channel stays within [0, original]; 0% keeps it; 100% makes it 0 |
| Colors.ToHex | src/Components/FAQExamples.jsx:46-48 | lower-case hex digits that read back as the number; one digit exactly below 16; at most two below 256 |
| Colors.ToString16 | src/Components/FAQExamples.jsx:46-48 | NaN prints as "NaN"; a non-negative value as lower-case hex digits reading back as it; a negative one as "-" and the digits of its magnitude |
| Colors.PadStart2 | src/Components/FAQExamples.jsx:46-48 | strings of length >= 2 are unchanged; shorter ones get leading zeros up to length 2 |
| Colors.PaddedHexRoundTrip | src/Components/FAQExamples.jsx:46-48 | a channel in [0, 255] prints as exactly two lower-case hex digits reading back as the channel |
| Colors.DarkenColorWellFormed | src/Components/FAQExamples.jsx:31-51 | for `rrggbb` or `#rrggbb` and 0 <= percent <= 100 the result is `#` and six lower-case hex digits, each channel reading back as the input channel scaled down by the integer formula floor(c * (100 - percent) / 100), within [0, original] |
| Colors.DarkenColorZero | src/Components/FAQExamples.jsx:31-51 | at 0% the result is `#` followed by the input digits in lower case |
| Colors.DarkenColorFull | src/Components/FAQExamples.jsx:41-50 | at 100% every well-formed colour becomes `#000000` |
| Colors.DarkenColorEmpty | src/Components/FAQExamples.jsx:33-50 | an empty colour or a lone `#` gives `#NaNNaNNaN` |
| Scenarios.HelloHiThere | src/Components/StreamingResponse.jsx:55-88 | send "Hello", then start, "Hi", " there", end: the list is USER "Hello" SENT then BOT "Hi there" FINISHED, and processing is false |
| Scenarios.SendOpensRequest | src/Components/StreamingResponse.jsx:30-47 | the placeholder's opening request is ("sendMessage", text, "auto", earlier turns + (text, text)) |
| Scenarios.UploadOversized | src/Components/ChatBody.jsx:40-48 | an oversized upload and its timer append the USER file block and the BOT reply "File size limit exceeded. Please upload a smaller file."; processing is untouched |

## Left out

- WebSocket lifecycle: construction, `onerror`, `onclose`, closing on unmount, and the effect re-running when its dependencies change. These are I/O and React lifecycle; only the `onopen` payload and the `onmessage` step are modelled.
- `JSON.parse` and `JSON.stringify`: foreign calls. The parser is a parameter with three outcomes, and the request is modelled as a record, not as its JSON text.
- Non-string `text` values in a delta (a number, an object): the parser outcome carries `text` as an optional string, so `join`'s rendering of other values is not modelled.
- React state batching and updater timing: each event is one sequential transition, `fullMessage` is updated at once, and `handleSendMessage`'s read of `messageList` is taken to be the current list.
- The 1000 ms `setTimeout` before the upload reply: it is a separate later event (`FileReplyDue`) that other events may precede.
- Presentation: JSX/MUI layout, Markdown, avatars, `scrollToBottom`, the speech, attachment and input widgets, and the live display of `responses.join("")`.
- The non-empty-input check before a send lives in the input widget, which is not part of this model; `ChatBody.SendMessage` accepts any text.
- `shuffleArray` and the FAQ list it shuffles: random, with an inconsistent comparator.
- utilities/createMessageBlock.js, utilities/constants.js, ChatInput and Attachment are not part of this model. `createMessageBlock` is taken to be a plain record constructor; `ALLOW_FAQ` is a parameter.
- Colors.Scale: the percentage is an integer and the scaling is `floor(c * (100 - percent) / 100)` in exact arithmetic; the floating-point rounding of `c * (1 - percent / 100)` and fractional percentages are not modelled.
- Colors.DarkenColorWellFormed: the exact channel value it proves is the integer formula's. The program computes `Math.floor(c * (1 - percent / 100))` in doubles, which gives one less for some channels at 19 integer percentages (30, 32, 34, 54-56, 65-68, 78-81, 89-93); for example `darkenColor("#5a5a5a", 30)` is `#3e3e3e` in the program and `#3f3f3f` here. The shape, lower case and [0, original] bounds hold either way, and the program's own percentages 7 and 15 agree for every channel.
- Colors.Substring: strings are sequences of Unicode scalar values, while JavaScript's `substring` counts UTF-16 code units, so slice indices differ for characters outside the Basic Multilingual Plane (for "\u{1F600}1234", `substring(2, 4)` is "12" in JavaScript and "23" here). The colour constants passed to `darkenColor` are ASCII, so its call sites are unaffected.
- Colors.ParseInt16: JavaScript's `-0` (from a slice such as `-0`) is the integer 0; it prints the same, so the output is unaffected.
