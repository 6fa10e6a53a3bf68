/** Conversions between a message id (its index in the chat, "floor"), its depth
    (1 is the latest message) and its backward id (-1 is the latest message), for a
    chat holding `len` messages. */
module MessageIndex {

  /** `_.inRange(message_id, 0, chat.length)` */
  predicate InMessageRange(len: nat, id: int) {
    0 <= id < len
  }

  /** `chat.length - message_id`: the latest message has depth 1 */
  function ToMessageDepth(len: nat, id: int): (depth: int)
    ensures InMessageRange(len, id) <==> 1 <= depth <= len
    ensures id == len - 1 ==> depth == 1
  {
    len - id
  }

  /** `chat.length - depth` */
  function FromMessageDepth(len: nat, depth: int): (id: int)
    ensures 1 <= depth <= len <==> InMessageRange(len, id)
    ensures depth == 1 ==> id == len - 1
  {
    len - depth
  }

  /** `message_id - chat.length`: the latest message has backward id -1 */
  function ToBackwardMessageId(len: nat, id: int): (back: int)
    ensures InMessageRange(len, id) <==> -(len as int) <= back < 0
    ensures id == len - 1 ==> back == -1
  {
    id - len
  }

  /** `chat.length + backward_message_id` */
  function FromBackwardMessageId(len: nat, back: int): (id: int)
    ensures -(len as int) <= back < 0 <==> InMessageRange(len, id)
    ensures back == -1 ==> id == len - 1
  {
    len + back
  }

  /** A negative id counts back from the end of the chat; a non-negative one is kept */
  function NormalizeMessageId(len: nat, x: int): (id: int)
    ensures x < 0 ==> id == FromBackwardMessageId(len, x)
    ensures x >= 0 ==> id == x
  {
    if x < 0 then FromBackwardMessageId(len, x) else x
  }

  /** `_.inRange(x, -chat.length, chat.length)` */
  predicate InUnnormalizedMessageRange(len: nat, x: int) {
    -(len as int) <= x < len
  }

  lemma {:induction false} DepthRoundTrip(len: nat, id: int, depth: int)
    ensures FromMessageDepth(len, ToMessageDepth(len, id)) == id
    ensures ToMessageDepth(len, FromMessageDepth(len, depth)) == depth
  {
  }

  lemma {:induction false} BackwardRoundTrip(len: nat, id: int, back: int)
    ensures FromBackwardMessageId(len, ToBackwardMessageId(len, id)) == id
    ensures ToBackwardMessageId(len, FromBackwardMessageId(len, back)) == back
  {
  }

  /** Every id accepted by the unnormalised range check normalises into the chat, and
      normalising is the identity on ids already in range. */
  lemma {:induction false} NormalizeIntoRange(len: nat, x: int)
    ensures InUnnormalizedMessageRange(len, x) <==> InMessageRange(len, NormalizeMessageId(len, x))
    ensures InMessageRange(len, x) ==> NormalizeMessageId(len, x) == x
  {
  }
}
