/**
 The message block: one turn of the conversation, as built by the
 `createMessageBlock` factory (utilities/createMessageBlock.js is not part of
 this model; it is taken to be a plain record constructor).
 */
module Blocks {
  import opened Wrappers

  datatype Sender = User | Bot

  datatype MessageType = Text | File

  datatype BlockState = Sent | Processing | Finished | Received

  datatype MessageBlock = MessageBlock(
    message: string,
    sentBy: Sender,
    messageType: MessageType,
    state: BlockState,
    fileName: Option<string>,
    fileStatus: Option<string>)

  /** The factory: positional fields, the two file fields optional. */
  function CreateMessageBlock(message: string, sentBy: Sender, messageType: MessageType, state: BlockState,
                              fileName: Option<string> := None, fileStatus: Option<string> := None): MessageBlock
  {
    MessageBlock(message, sentBy, messageType, state, fileName, fileStatus)
  }

  /** Number of blocks still waiting for a streamed reply. */
  function CountProcessing(ms: seq<MessageBlock>): nat {
    if ms == [] then 0
    else (if ms[0].state == Processing then 1 else 0) + CountProcessing(ms[1..])
  }
}
