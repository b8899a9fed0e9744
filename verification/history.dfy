/**
 What the streaming component sends when its connection opens
 (src/Components/StreamingResponse.jsx, `onopen`): the prompt, a language tag
 and the prior conversation folded into user/bot turn pairs.
 */
module History {
  import opened Wrappers
  import opened Blocks

  /** One `{user, bot}` entry of `chatHistory`. */
  datatype Turn = Turn(user: string, bot: string)

  /** The outbound request object. */
  datatype Request = Request(action: string, prompt: string, language: string, chatHistory: seq<Turn>)

  /** The language tag used when the caller passes none. */
  const DefaultLanguage: string := "auto"

  /**
   One step of the `reduce` over the message list, visiting `index` with the
   accumulator `acc`: a pair is pushed at every even index that has a
   successor. Only the `message` fields are read.
   */
  function PairFrom(list: seq<MessageBlock>, index: nat, acc: seq<Turn>): seq<Turn>
    requires index <= |list|
    decreases |list| - index
  {
    if index == |list| then acc
    else
      var acc' := if index % 2 == 0 && index < |list| - 1
                  then acc + [Turn(list[index].message, list[index + 1].message)]
                  else acc;
      PairFrom(list, index + 1, acc')
  }

  /** `formattedHistory`: the fold started at index 0 with an empty accumulator. */
  function FormatHistory(list: seq<MessageBlock>): seq<Turn> {
    PairFrom(list, 0, [])
  }

  /** Reference definition: the first `m` pairs, entry `k` made of blocks `2k` and `2k+1`. */
  function PairsUpTo(list: seq<MessageBlock>, m: nat): (r: seq<Turn>)
    requires 2 * m <= |list|
    ensures |r| == m
  {
    seq(m, k requires 0 <= k < m => Turn(list[2 * k].message, list[2 * k + 1].message))
  }

  function Min(a: int, b: int): int {
    if a <= b then a else b
  }

  /**
   The fold, resumed at any index with the pairs of the indices already
   visited, yields all `|list| / 2` pairs.
   */
  lemma {:induction false} PairFromMeetsReference(list: seq<MessageBlock>, index: nat, acc: seq<Turn>)
    requires index <= |list|
    requires acc == PairsUpTo(list, Min((index + 1) / 2, |list| / 2))
    ensures PairFrom(list, index, acc) == PairsUpTo(list, |list| / 2)
    decreases |list| - index
  {
    if index < |list| {
      if index % 2 == 0 && index < |list| - 1 {
        var k := index / 2;
        var acc' := acc + [Turn(list[index].message, list[index + 1].message)];
        assert acc' == PairsUpTo(list, k + 1);
        PairFromMeetsReference(list, index + 1, acc');
      } else {
        PairFromMeetsReference(list, index + 1, acc);
      }
    }
  }

  /**
   Pairing yields exactly floor(n/2) entries, entry `k` holding the messages
   of blocks `2k` and `2k+1`; a trailing odd block is dropped.
   */
  lemma FormatHistoryPairs(list: seq<MessageBlock>)
    ensures FormatHistory(list) == PairsUpTo(list, |list| / 2)
    ensures |FormatHistory(list)| == |list| / 2
    ensures forall k :: 0 <= k < |list| / 2 ==>
              FormatHistory(list)[k] == Turn(list[2 * k].message, list[2 * k + 1].message)
  {
    PairFromMeetsReference(list, 0, []);
  }

  /** Pairing reads only the `message` fields: `sentBy`, `state` and the rest never matter. */
  lemma FormatHistoryReadsOnlyMessages(a: seq<MessageBlock>, b: seq<MessageBlock>)
    requires |a| == |b|
    requires forall i :: 0 <= i < |a| ==> a[i].message == b[i].message
    ensures FormatHistory(a) == FormatHistory(b)
  {
    FormatHistoryPairs(a);
    FormatHistoryPairs(b);
  }

  /** Appending one full turn to the list appends exactly its pair to the history. */
  lemma FormatHistoryAppendTurn(list: seq<MessageBlock>, u: MessageBlock, b: MessageBlock)
    requires |list| % 2 == 0
    ensures FormatHistory(list + [u, b]) == FormatHistory(list) + [Turn(u.message, b.message)]
  {
    var l := list + [u, b];
    FormatHistoryPairs(list);
    FormatHistoryPairs(l);
    assert |l| / 2 == |list| / 2 + 1;
    forall k | 0 <= k < |list| / 2
      ensures FormatHistory(l)[k] == FormatHistory(list)[k]
    {
      assert l[2 * k] == list[2 * k] && l[2 * k + 1] == list[2 * k + 1];
    }
    assert l[|list|] == u && l[|list| + 1] == b;
  }

  /**
   The `onopen` payload: the `sendMessage` action, the component's
   `initialMessage` as prompt, the language (default "auto") and the pairing
   of the message list it was given.
   */
  function OpenRequest(initialMessage: string, language: Option<string>, messageList: seq<MessageBlock>): (r: Request)
    ensures r.action == "sendMessage"
    ensures r.prompt == initialMessage
    ensures language.None? ==> r.language == "auto"
    ensures language.Some? ==> r.language == language.value
    ensures |r.chatHistory| == |messageList| / 2
    ensures forall k :: 0 <= k < |r.chatHistory| ==>
              r.chatHistory[k] == Turn(messageList[2 * k].message, messageList[2 * k + 1].message)
  {
    FormatHistoryPairs(messageList);
    Request("sendMessage", initialMessage, language.GetOr(DefaultLanguage), FormatHistory(messageList))
  }
}
