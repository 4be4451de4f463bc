/** The collector as the loop it is: local variables updated frame by frame, refining the fold of `Collector`. */
module CollectReplies {
  import opened GoText
  import opened Json
  import opened Attachments
  import opened Protocol
  import opened ChatEvents
  import opened ReplyText
  import opened Collector

  /** One matched event that may not be the last. */
  method AbsorbEvent(libs: Libs, scope: Scope, st: Turn, m: Object) returns (next: Turn)
    ensures next == Absorb(libs, scope, st, m)
  {
    var replies, chunkSeq, assembledText := st.replies, st.chunkSeq, st.assembled;
    var pendingSnapshotText, pendingSnapshotVerified, attachments := st.snapshot, st.verified, st.attachments;
    var openClawSessionID, minAssistantAfter := st.transcriptID, st.floor;
    var id := TranscriptSessionID(m, scope.sessionID);
    if id != "" {
      openClawSessionID := id;
    }
    var candidate := UserTimestamp(libs, m);
    if candidate > minAssistantAfter {
      minAssistantAfter := candidate;
    }
    match ExtractChatText(m) {
      case NoText =>
      case Delta(text) =>
        var merge := IncrementalReplyText(assembledText, text);
        assembledText := merge.text;
        if merge.chunk != "" {
          chunkSeq := chunkSeq + 1;
          replies := replies + [Chunk(scope, merge.chunk, chunkSeq)];
        }
      case Snapshot(text) =>
        var snapshotText := TrimNewlines(text);
        if snapshotText != "" && SnapshotBelongsToCurrentTurn(libs, m, scope.runID, minAssistantAfter) {
          pendingSnapshotText := snapshotText;
          pendingSnapshotVerified := true;
        }
    }
    var attachmentText := assembledText;
    if pendingSnapshotText != "" {
      attachmentText := pendingSnapshotText;
    }
    attachments := attachments + Extract(libs, m, attachmentText);
    attachments := Deduplicate(attachments);
    next := Turn(replies, chunkSeq, assembledText, pendingSnapshotText, pendingSnapshotVerified, attachments,
      openClawSessionID, minAssistantAfter);
  }

  method RecoverTranscript(scope: Scope, st: Turn, world: World) returns (next: Turn)
    ensures next == match UsedTranscript(st, world)
      case None => st
      case Some(r) => TakeTranscript(scope, st, r.text, r.attachments)
  {
    next := st;
    if TrimSpace(st.transcriptID) != "" &&
       (st.floor > 0 || TrimSpace(st.assembled) == "" || TrimSpace(st.snapshot) == "" || !st.verified) {
      match world.lookup(st.transcriptID, st.floor) {
        case LookupFailed =>
        case Recovered(text, found) =>
          if TrimSpace(text) != "" {
            var attachments := Deduplicate(st.attachments + found);
            var baseText := st.assembled;
            if TrimSpace(baseText) == "" {
              baseText := st.snapshot;
            }
            next := next.(attachments := attachments, snapshot := text, verified := true);
            if TrimSpace(baseText) != "" {
              var merge := IncrementalReplyText(baseText, text);
              next := next.(assembled := merge.text);
              if merge.chunk != "" {
                next := next.(chunkSeq := st.chunkSeq + 1,
                              replies := st.replies + [Chunk(scope, merge.chunk, st.chunkSeq + 1)]);
              }
            }
          }
      }
    }
  }

  method FlushPending(scope: Scope, st: Turn) returns (next: Turn)
    ensures next == AtLeastOneChunk(scope, FlushSnapshot(scope, st))
  {
    var replies, chunkSeq, assembledText := st.replies, st.chunkSeq, st.assembled;
    if st.snapshot != "" {
      if |replies| == 0 {
        replies := [Chunk(scope, st.snapshot, 1)];
        chunkSeq := 1;
        assembledText := st.snapshot;
      } else if TrimSpace(assembledText) != "" {
        var merge := IncrementalReplyText(assembledText, st.snapshot);
        assembledText := merge.text;
        if merge.chunk != "" {
          chunkSeq := chunkSeq + 1;
          replies := replies + [Chunk(scope, merge.chunk, chunkSeq)];
        }
      }
    }
    if |replies| == 0 {
      chunkSeq := chunkSeq + 1;
      replies := replies + [Chunk(scope, "", chunkSeq)];
    }
    next := st.(replies := replies, chunkSeq := chunkSeq, assembled := assembledText);
  }

  /** The last chunk is completed field by field. */
  method AttachUploads(libs: Libs, chunk: ChatReply, attachments: seq<Attachment>) returns (r: ChatReply)
    ensures r == WithAttachments(libs, chunk, attachments)
  {
    r := chunk;
    if |attachments| > 0 {
      r := r.(text := libs.rewrite(r.text, attachments), attachments := attachments);
      var failure := SummarizeFailures(attachments);
      if failure.Some? {
        r := r.(finishReason := Error);
        if TrimSpace(r.errorCode) == "" {
          r := r.(errorCode := FAILED_CODE);
        }
        if TrimSpace(r.errorMessage) == "" {
          r := r.(errorMessage := failure.value);
        }
        r := r.(text := AppendFailureNotice(r.text, failure.value));
      }
    }
  }

  method CompleteChunk(libs: Libs, chunk: ChatReply, m: Object, attachments: seq<Attachment>) returns (r: ChatReply)
    ensures r == SealChunk(libs, chunk, m, attachments)
  {
    r := chunk.(isFinal := true, isEnd := true, finishReason := FinishReason(m));
    r := AttachUploads(libs, r, attachments);
    if TrimSpace(r.text) == "" && |r.attachments| == 0 && r.finishReason == Stop {
      r := r.(finishReason := Error, errorCode := "ASSISTANT_REPLY_MISSING",
              errorMessage := "assistant reply not available before resolve timeout");
    }
    r := CopyGatewayError(r, m);
  }

  method CopyGatewayError(chunk: ChatReply, m: Object) returns (r: ChatReply)
    ensures r == WithGatewayError(chunk, m)
  {
    r := chunk;
    var code := FirstString(m, ["errorCode", "code"]);
    if code != "" && r.finishReason == Error {
      r := r.(errorCode := code);
    }
    var message := FirstString(m, ["errorMessage", "message", "error"]);
    if message != "" && r.finishReason == Error {
      r := r.(errorMessage := message);
    }
  }

  method SettleTurn(scope: Scope, st: Turn, world: World) returns (settled: Turn)
    ensures settled == Settle(scope, st, world)
  {
    var recovered := RecoverTranscript(scope, st, world);
    settled := FlushPending(scope, recovered);
  }

  method FinishTurn(libs: Libs, scope: Scope, st: Turn, m: Object, world: World) returns (replies: seq<ChatReply>)
    ensures replies == Conclude(libs, scope, st, m, world)
  {
    var settled := SettleTurn(scope, st, world);
    var attachments := UploadEach(settled.attachments, world.backend);
    SettledHasChunks(scope, st, world);
    var last := |settled.replies| - 1;
    var sealed := CompleteChunk(libs, settled.replies[last], m, attachments);
    replies := settled.replies[last := sealed];
  }

  lemma SettledHasChunks(scope: Scope, st: Turn, world: World)
    ensures Settle(scope, st, world).replies != []
  {
  }

  method UploadEach(attachments: seq<Attachment>, backend: Attachment -> Exchange) returns (uploaded: seq<Attachment>)
    ensures uploaded == UploadAll(attachments, backend)
  {
    var items := new Attachment[|attachments|](i requires 0 <= i < |attachments| => attachments[i]);
    assert items[..] == attachments;
    UploadLocalAttachments(items, backend);
    uploaded := items[..];
  }
}
