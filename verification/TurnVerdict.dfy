/** How a turn ends: which event ends it, what reason and error it is given, and when the transcript matters. */
module TurnVerdict {
  import opened GoText
  import opened Json
  import opened Attachments
  import opened Protocol
  import opened ChatEvents
  import opened ReplyText
  import opened Collector
  import opened TurnEnd

  // ---------- the event ----------

  predicate LifecycleSays(m: Object, action: string) {
    Word(FirstString(m, ["stream"])) == "lifecycle" && Word(FirstString(m, ["event", "action"])) == action
  }

  predicate SaysTrue(m: Object, key: string) { key in m.fields && m.fields[key] == JBool(true) }

  const OVER := {"done", "completed", "complete", "ok", "final"}
  const STOPPED := {"stopped", "aborted", "cancelled", "canceled"}
  const BROKEN := {"error", "failed"}

  /** An agent event ends the turn only by its lifecycle; any other event also by its status or a flag. */
  lemma EndsTurnIff(ev: ChatEvent)
    ensures IsTerminal(ev) <==>
      || LifecycleSays(ev.payload, "end")
      || LifecycleSays(ev.payload, "error")
      || (Word(ev.name) != "agent" &&
          (|| ToLower(FirstString(ev.payload, ["status", "phase", "state"])) in OVER + STOPPED + BROKEN
           || SaysTrue(ev.payload, "isFinal") || SaysTrue(ev.payload, "isEnd")))
  {
    assert OVER + STOPPED + BROKEN == TERMINAL_STATUS;
  }

  /** The reason: what the lifecycle says, or else the status. */
  lemma ReasonIs(m: Object)
    ensures var status := ToLower(FirstString(m, ["status", "phase", "state", "finishReason", "finish_reason"]));
      var lifecycle := LifecycleSays(m, "end") || LifecycleSays(m, "error");
      && (FinishReason(m) == Error <==> LifecycleSays(m, "error") || (!lifecycle && status in BROKEN))
      && (FinishReason(m) == Cancelled <==> !lifecycle && status in STOPPED)
      && (FinishReason(m) == Length <==> !lifecycle && status == "length")
      && FinishReason(m) in {Error, Cancelled, Length, Stop}
  {
  }

  // ---------- the last chunk ----------

  /** There are attachments, and all of them are unusable. */
  predicate AllFailed(uploaded: seq<Attachment>) {
    uploaded != [] && forall i :: 0 <= i < |uploaded| ==>
      Blank(uploaded[i].previewURL) && Blank(uploaded[i].mediaID) && !Blank(uploaded[i].errorCode)
  }

  /** The gateway says that the turn stopped as it should, but there is nothing to show. */
  predicate NothingToShow(last: ChatReply, m: Object, uploaded: seq<Attachment>) {
    FinishReason(m) == Stop && uploaded == [] && Blank(last.text)
  }

  /** The turn failed if and only if the gateway says so, all its attachments failed, or there is nothing to show;
      otherwise the reason is the gateway's. */
  lemma FailsIff(libs: Libs, last: ChatReply, m: Object, uploaded: seq<Attachment>)
    requires last.attachments == []
    ensures var r := SealChunk(libs, last, m, uploaded);
      && (r.finishReason == Error <==>
          FinishReason(m) == Error || AllFailed(uploaded) || NothingToShow(last, m, uploaded))
      && (r.finishReason != Error ==> r.finishReason == FinishReason(m))
  {
    AllFailedIsSummary(uploaded);
  }

  lemma AllFailedIsSummary(uploaded: seq<Attachment>)
    ensures AllFailed(uploaded) <==> Summary(uploaded).Some?
  {
    assert (forall i :: 0 <= i < |uploaded| ==> HasFailed(uploaded[i])) <==> (uploaded == [] || AllFailed(uploaded));
  }

  /** A failed turn has the gateway's error code if it gives one, and otherwise one that says what failed; a turn that
      has not failed has none. */
  lemma ErrorCodeIs(libs: Libs, last: ChatReply, m: Object, uploaded: seq<Attachment>)
    requires last.attachments == [] && last.errorCode == ""
    ensures var r, code := SealChunk(libs, last, m, uploaded), FirstString(m, ["errorCode", "code"]);
      r.errorCode ==
        if r.finishReason != Error then ""
        else if code != "" then code
        else if AllFailed(uploaded) then "MEDIA_UPLOAD_FAILED"
        else if NothingToShow(last, m, uploaded) then "ASSISTANT_REPLY_MISSING"
        else ""
  {
    AllFailedIsSummary(uploaded);
    BlankChars("");
  }

  /** So it is with the message. */
  lemma ErrorMessageIs(libs: Libs, last: ChatReply, m: Object, uploaded: seq<Attachment>)
    requires last.attachments == [] && last.errorMessage == ""
    ensures var r, message := SealChunk(libs, last, m, uploaded), FirstString(m, ["errorMessage", "message", "error"]);
      r.errorMessage ==
        if r.finishReason != Error then ""
        else if message != "" then message
        else if AllFailed(uploaded) then FirstMessage(uploaded)
        else if NothingToShow(last, m, uploaded) then "assistant reply not available before resolve timeout"
        else ""
  {
    AllFailedIsSummary(uploaded);
    BlankChars("");
  }

  /** The first message there is among the failed attachments. */
  lemma {:induction false} FirstMessageIs(items: seq<Attachment>, i: nat)
    requires i <= |items| && forall j :: 0 <= j < i ==> Blank(items[j].errorMessage)
    ensures i < |items| && !Blank(items[i].errorMessage) ==> FirstMessage(items) == items[i].errorMessage
    ensures i == |items| ==> FirstMessage(items) == "media upload failed"
  {
    if i > 0 {
      FirstMessageIs(items[1..], i - 1);
    }
  }

  /** The last chunk's text: as it was without attachments, rewritten with them, and with the failure notice if they
      all failed. */
  lemma LastTextIs(libs: Libs, last: ChatReply, m: Object, uploaded: seq<Attachment>)
    requires last.attachments == []
    ensures var r := SealChunk(libs, last, m, uploaded);
      && (uploaded == [] ==> r.text == last.text)
      && (uploaded != [] && !AllFailed(uploaded) ==> r.text == libs.rewrite(last.text, uploaded))
      && (AllFailed(uploaded) ==> Contains(r.text, FAILURE_NOTICE))
      && (AllFailed(uploaded) && !Blank(libs.rewrite(last.text, uploaded)) ==>
          TrimRight(libs.rewrite(last.text, uploaded), IsNewline) <= r.text)
  {
    AllFailedIsSummary(uploaded);
    if AllFailed(uploaded) {
      NoticeIsShown(libs.rewrite(last.text, uploaded), Summary(uploaded).value);
    }
  }

  lemma NoticeIsShown(text: string, message: string)
    ensures Contains(AppendFailureNotice(text, message), FAILURE_NOTICE)
    ensures !Blank(text) ==> TrimRight(text, IsNewline) <= AppendFailureNotice(text, message)
  {
    var notice := if Blank(message) then FAILURE_NOTICE else FAILURE_NOTICE + "：" + TrimSpace(message);
    assert FAILURE_NOTICE <= notice[0..];
    TrimRightStops(text, IsNewline);
    if !Blank(text) && Contains(TrimSpace(text), notice) {
      var i :| 0 <= i <= |TrimSpace(text)| && notice <= TrimSpace(text)[i..];
      InsideTrimmed(text, notice, i);
    } else if !Blank(text) {
      var shown := TrimRight(text, IsNewline) + "\n\n";
      assert AppendFailureNotice(text, message)[|shown|..] == notice;
    }
  }

  lemma InsideTrimmed(text: string, notice: string, i: nat)
    requires i <= |TrimSpace(text)| && notice <= TrimSpace(text)[i..] && FAILURE_NOTICE <= notice
    ensures Contains(text, FAILURE_NOTICE)
  {
    var left := TrimLeft(text, IsSpace);
    TrimLeftStops(text, IsSpace);
    TrimRightStops(left, IsSpace);
    var at := |text| - |left| + i;
    assert text[at..] == left[i..];
    assert FAILURE_NOTICE <= text[at..];
  }

  // ---------- the transcript ----------

  /** What the turn comes to is independent of the transcript if and only if there is no session to look up, or the
      streamed text and a snapshot are there and the user's message was not dated. */
  lemma TranscriptMatters(libs: Libs, scope: Scope, st: Turn)
    requires Streaming(libs, scope, st)
    ensures (forall a: World, b: World :: Settle(scope, st, a) == Settle(scope, st, b)) <==>
      Blank(st.transcriptID) || (st.floor == 0 && !Blank(st.assembled) && !Blank(st.snapshot))
  {
    BlankChars("");
    if Blank(st.transcriptID) || (st.floor == 0 && !Blank(st.assembled) && !Blank(st.snapshot)) {
      assert !NeedsTranscript(st);
      assert forall w: World :: UsedTranscript(st, w) == None;
    } else {
      Depends(scope, st);
    }
  }

  /** A world in which every lookup gives the same. */
  function Answering(r: Recovery): World { World((id, floor) => r, item => Refused("")) }

  lemma Depends(scope: Scope, st: Turn)
    requires NeedsTranscript(st)
    ensures exists a: World, b: World :: Settle(scope, st, a) != Settle(scope, st, b)
  {
    var text := if st.snapshot == "x" then "y" else "x";
    BlankChars(text);
    assert text[0] in text;
    Differ(scope, st, text);
  }

  lemma Differ(scope: Scope, st: Turn, text: string)
    requires NeedsTranscript(st) && !Blank(text) && text != st.snapshot
    ensures Settle(scope, st, Answering(LookupFailed)) != Settle(scope, st, Answering(Recovered(text, [])))
  {
    SettledSnapshot(scope, st, Answering(LookupFailed));
    SettledSnapshot(scope, st, Answering(Recovered(text, [])));
    Consulted(st, LookupFailed);
    Consulted(st, Recovered(text, []));
  }

  lemma Consulted(st: Turn, r: Recovery)
    requires NeedsTranscript(st)
    ensures UsedTranscript(st, Answering(r)) == if r.LookupFailed? || Blank(r.text) then None else Some(r)
  {
  }

  lemma SettledSnapshot(scope: Scope, st: Turn, world: World)
    ensures Settle(scope, st, world).snapshot ==
      match UsedTranscript(st, world) case None => st.snapshot case Some(r) => r.text
  {
  }
}
