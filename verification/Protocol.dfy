/** The cloud-side messages of the chat path. */
module Protocol {
  import opened GoText
  import opened Attachments

  datatype Reason = NoReason | Stop | Error | Cancelled | Length

  datatype ChatReply = ChatReply(
    requestMsgID: string, runID: string, sessionID: string, role: string, text: string, chunkSeq: int,
    isFinal: bool, isEnd: bool, finishReason: Reason, errorCode: string, errorMessage: string,
    attachments: seq<Attachment>)

  function Texts(replies: seq<ChatReply>): seq<string> {
    seq(|replies|, i requires 0 <= i < |replies| => replies[i].text)
  }

  /** What a reader who appends chunk after chunk ends up with. */
  function FullText(replies: seq<ChatReply>): string { Concat(Texts(replies)) }

  /** One closed stream of chunks: numbered from 1, and only the last one is final and ended. */
  ghost predicate ClosedStream(replies: seq<ChatReply>) {
    && replies != []
    && (forall i :: 0 <= i < |replies| ==> replies[i].chunkSeq == i + 1)
    && OnlyLastEnds(replies)
  }

  ghost predicate OnlyLastEnds(replies: seq<ChatReply>) {
    && replies != []
    && (forall i :: 0 <= i < |replies| ==>
          (replies[i].isFinal <==> i == |replies| - 1) && (replies[i].isEnd <==> i == |replies| - 1))
  }
}
