/** The turn collector: folds the gateway's frames into numbered reply chunks and closes the turn. */
module Collector {
  import opened GoText
  import opened Json
  import opened Attachments
  import opened Protocol
  import opened ChatEvents
  import opened ReplyText

  /** The collector's local variables between two frames. */
  datatype Turn = Turn(
    replies: seq<ChatReply>, chunkSeq: nat, assembled: string,
    snapshot: string, verified: bool,
    attachments: seq<Attachment>, transcriptID: string, floor: int)

  const START := Turn([], 0, "", "", false, [], "", 0)

  /** What looking up the transcript gives. */
  datatype Recovery =
    | LookupFailed
    | Recovered(text: string, attachments: seq<Attachment>)

  /** What the collector asks of the world around it once the turn is over. */
  datatype World = World(
    lookup: (string, int) -> Recovery,          // loadTranscriptAssistantReply
    backend: Attachment -> Exchange)            // the media backend

  /** Either the connection is lost before a terminal event, or the turn is finished. */
  datatype Outcome = Lost(replies: seq<ChatReply>) | Finished(replies: seq<ChatReply>)

  // ---------- one frame ----------

  function Chunk(scope: Scope, text: string, number: int): ChatReply {
    ChatReply(scope.msgID, scope.runID, "", "assistant", text, number, false, false, NoReason, "", "", [])
  }

  function Emit(scope: Scope, st: Turn, text: string): Turn {
    if text == "" then st
    else st.(chunkSeq := st.chunkSeq + 1, replies := st.replies + [Chunk(scope, text, st.chunkSeq + 1)])
  }

  function NoteIdentifiers(libs: Libs, scope: Scope, st: Turn, m: Object): Turn {
    var id := TranscriptSessionID(m, scope.sessionID);
    var ts := UserTimestamp(libs, m);
    st.(transcriptID := if id != "" then id else st.transcriptID,
        floor := if ts > st.floor then ts else st.floor)
  }

  function NoteText(libs: Libs, scope: Scope, st: Turn, m: Object): Turn {
    match ExtractChatText(m)
    case NoText => st
    case Delta(text) =>
      var merge := IncrementalReplyText(st.assembled, text);
      Emit(scope, st.(assembled := merge.text), merge.chunk)
    case Snapshot(text) =>
      var text := TrimNewlines(text);
      if text != "" && SnapshotBelongsToCurrentTurn(libs, m, scope.runID, st.floor)
      then st.(snapshot := text, verified := true)
      else st
  }

  /** The attachments an event brings, given the text known once its own text has been noted. */
  function Brought(libs: Libs, st: Turn, m: Object): seq<Attachment> {
    Extract(libs, m, if st.snapshot != "" then st.snapshot else st.assembled)
  }

  function Absorb(libs: Libs, scope: Scope, st: Turn, m: Object): Turn {
    var noted := NoteText(libs, scope, NoteIdentifiers(libs, scope, st, m), m);
    noted.(attachments := Dedup(noted.attachments + Brought(libs, noted, m)))
  }

  /** The state after frames none of which ends the turn. */
  function Observe(libs: Libs, scope: Scope, st: Turn, frames: seq<Frame>): Turn
    decreases |frames|
  {
    if frames == [] then st
    else match EventOf(scope, frames[0])
      case None => Observe(libs, scope, st, frames[1..])
      case Some(ev) => Observe(libs, scope, Absorb(libs, scope, st, ev.payload), frames[1..])
  }

  // ---------- the end of the turn ----------

  predicate NeedsTranscript(st: Turn) {
    !Blank(st.transcriptID) && (st.floor > 0 || Blank(st.assembled) || Blank(st.snapshot) || !st.verified)
  }

  /** The transcript reply that is taken into account, if any. */
  function UsedTranscript(st: Turn, world: World): Option<Recovery> {
    if !NeedsTranscript(st) then None
    else match world.lookup(st.transcriptID, st.floor)
      case LookupFailed => None
      case Recovered(text, found) => if Blank(text) then None else Some(Recovered(text, found))
  }

  function TakeTranscript(scope: Scope, st: Turn, text: string, found: seq<Attachment>): Turn {
    var st := st.(attachments := Dedup(st.attachments + found));
    var base := if Blank(st.assembled) then st.snapshot else st.assembled;
    if Blank(base) then st.(snapshot := text, verified := true)
    else
      var merge := IncrementalReplyText(base, text);
      Emit(scope, st.(assembled := merge.text, snapshot := text, verified := true), merge.chunk)
  }

  function FlushSnapshot(scope: Scope, st: Turn): Turn {
    if st.snapshot == "" then st
    else if st.replies == [] then
      st.(replies := [Chunk(scope, st.snapshot, 1)], chunkSeq := 1, assembled := st.snapshot)
    else if !Blank(st.assembled) then
      var merge := IncrementalReplyText(st.assembled, st.snapshot);
      Emit(scope, st.(assembled := merge.text), merge.chunk)
    else st
  }

  function AtLeastOneChunk(scope: Scope, st: Turn): Turn {
    if st.replies == [] then
      st.(chunkSeq := st.chunkSeq + 1, replies := [Chunk(scope, "", st.chunkSeq + 1)])
    else st
  }

  /** All chunk texts are decided here. */
  function Settle(scope: Scope, st: Turn, world: World): Turn {
    var st := match UsedTranscript(st, world)
      case None => st
      case Some(r) => TakeTranscript(scope, st, r.text, r.attachments);
    AtLeastOneChunk(scope, FlushSnapshot(scope, st))
  }

  const FAILURE_NOTICE := "媒体文件上传失败"

  function AppendFailureNotice(text: string, message: string): string {
    var notice := if Blank(message) then FAILURE_NOTICE else FAILURE_NOTICE + "：" + TrimSpace(message);
    if Blank(text) then notice
    else if Contains(TrimSpace(text), notice) then text
    else TrimRight(text, IsNewline) + "\n\n" + notice
  }

  /** The last chunk takes the uploaded attachments; if every upload failed, so has the turn. */
  function WithAttachments(libs: Libs, r: ChatReply, uploaded: seq<Attachment>): ChatReply {
    if uploaded == [] then r
    else
      var r := r.(text := libs.rewrite(r.text, uploaded), attachments := uploaded);
      match Summary(uploaded)
      case None => r
      case Some(message) =>
        r.(finishReason := Error,
           errorCode := if Blank(r.errorCode) then FAILED_CODE else r.errorCode,
           errorMessage := if Blank(r.errorMessage) then message else r.errorMessage,
           text := AppendFailureNotice(r.text, message))
  }

  /** A turn with nothing to show has not simply stopped. */
  function WithMissingReply(r: ChatReply): ChatReply {
    if Blank(r.text) && r.attachments == [] && r.finishReason == Stop then
      r.(finishReason := Error, errorCode := "ASSISTANT_REPLY_MISSING",
         errorMessage := "assistant reply not available before resolve timeout")
    else r
  }

  /** The gateway's own error code and message win. */
  function WithGatewayError(r: ChatReply, m: Object): ChatReply {
    var code, message := FirstString(m, ["errorCode", "code"]), FirstString(m, ["errorMessage", "message", "error"]);
    if r.finishReason != Error then r
    else r.(errorCode := if code != "" then code else r.errorCode,
            errorMessage := if message != "" then message else r.errorMessage)
  }

  function SealChunk(libs: Libs, last: ChatReply, m: Object, uploaded: seq<Attachment>): ChatReply {
    var ended := last.(isFinal := true, isEnd := true, finishReason := FinishReason(m));
    WithGatewayError(WithMissingReply(WithAttachments(libs, ended, uploaded)), m)
  }

  function Conclude(libs: Libs, scope: Scope, st: Turn, m: Object, world: World): seq<ChatReply> {
    var settled := Settle(scope, st, world);
    if settled.replies == [] then []
    else
      var last := |settled.replies| - 1;
      settled.replies[last := SealChunk(libs, settled.replies[last], m, UploadAll(settled.attachments, world.backend))]
  }

  /** The whole collection, from state `st` on. */
  function Collect(libs: Libs, scope: Scope, world: World, st: Turn, frames: seq<Frame>): Outcome
    decreases |frames|
  {
    if frames == [] then Lost(st.replies)
    else match EventOf(scope, frames[0])
      case None => Collect(libs, scope, world, st, frames[1..])
      case Some(ev) =>
        var next := Absorb(libs, scope, st, ev.payload);
        if IsTerminal(ev) then Finished(Conclude(libs, scope, next, ev.payload, world))
        else Collect(libs, scope, world, next, frames[1..])
  }

  // ---------- what every frame keeps ----------

  ghost predicate Streaming(libs: Libs, scope: Scope, st: Turn) {
    && st.chunkSeq == |st.replies|
    && (forall i :: 0 <= i < |st.replies| ==>
          st.replies[i].text != "" && st.replies[i] == Chunk(scope, st.replies[i].text, i + 1))
    && FullText(st.replies) == st.assembled
    && (st.verified <==> st.snapshot != "")
    && Tight(st.snapshot, IsNewline)
    && AllFromRefs(libs, st.attachments)
    && Dedup(st.attachments) == st.attachments
    && st.floor >= 0
  }

  lemma FullTextAppend(replies: seq<ChatReply>, more: ChatReply)
    ensures FullText(replies + [more]) == FullText(replies) + more.text
  {
    assert Texts(replies + [more]) == Texts(replies) + [more.text];
    ConcatAppend(Texts(replies), [more.text]);
    assert Concat([more.text]) == more.text + "";
  }

  lemma EmitKeepsStreaming(libs: Libs, scope: Scope, st: Turn, merge: Merge)
    requires Streaming(libs, scope, st) && merge.text == st.assembled + merge.chunk
    ensures Streaming(libs, scope, Emit(scope, st.(assembled := merge.text), merge.chunk))
  {
    if merge.chunk == "" {
      assert st.assembled + "" == st.assembled;
    } else {
      FullTextAppend(st.replies, Chunk(scope, merge.chunk, st.chunkSeq + 1));
    }
  }

  lemma AbsorbKeepsStreaming(libs: Libs, scope: Scope, st: Turn, m: Object)
    requires Streaming(libs, scope, st)
    ensures Streaming(libs, scope, Absorb(libs, scope, st, m))
  {
    var named := NoteIdentifiers(libs, scope, st, m);
    match ExtractChatText(m) {
      case Delta(text) => EmitKeepsStreaming(libs, scope, named, IncrementalReplyText(named.assembled, text));
      case Snapshot(text) => TrimIsTight(text, IsNewline);
      case NoText =>
    }
    var noted := NoteText(libs, scope, named, m);
    var brought := Brought(libs, noted, m);
    AddAttachments(libs, noted.attachments, brought) by {
      ExtractFromRefs(libs, libs.refsIn(m, if noted.snapshot != "" then noted.snapshot else noted.assembled));
    }
  }

  lemma AddAttachments(libs: Libs, old': seq<Attachment>, more: seq<Attachment>)
    requires AllFromRefs(libs, old') && AllFromRefs(libs, more)
    ensures AllFromRefs(libs, Dedup(old' + more))
    ensures Dedup(Dedup(old' + more)) == Dedup(old' + more)
  {
    DedupKeys({}, old' + more);
    DedupIdempotent({}, old' + more);
  }

  /** After every run of frames that do not end the turn, the chunks are numbered 1..n, non-empty and open,
      their texts add up to the assembled text, and a snapshot is held exactly when it is verified. */
  lemma {:induction false} ObserveKeepsStreaming(libs: Libs, scope: Scope, st: Turn, frames: seq<Frame>)
    requires Streaming(libs, scope, st)
    ensures Streaming(libs, scope, Observe(libs, scope, st, frames))
    ensures st.replies <= Observe(libs, scope, st, frames).replies
    decreases |frames|
  {
    if frames != [] {
      match EventOf(scope, frames[0]) {
        case None => ObserveKeepsStreaming(libs, scope, st, frames[1..]);
        case Some(ev) =>
          AbsorbKeepsStreaming(libs, scope, st, ev.payload);
          ObserveKeepsStreaming(libs, scope, Absorb(libs, scope, st, ev.payload), frames[1..]);
      }
    }
  }
}
