/** What one chat_msg makes the daemon send, on the video path and on the gateway path. */
module Router {
  import opened GoText
  import opened Json
  import opened Attachments
  import opened Protocol
  import opened ChatEvents
  import opened Collector
  import opened ChatSession
  import opened TurnEnd
  import VideoTask

  datatype ChatPayload = ChatPayload(sessionID: string, text: string)

  datatype Outgoing = Outgoing(msgID: string, reply: ChatReply)

  /** A call's replies, or its error. */
  datatype Answer = Answered(replies: seq<ChatReply>) | Errored(message: string)

  const VIDEO_KEYWORDS := ["生成视频", "做个视频", "图生视频", "短视频", "文生视频", "video"]

  predicate IsVideoRequest(text: string) {
    var normalized := Word(text);
    && normalized != ""
    && (|| (exists k | k in VIDEO_KEYWORDS :: Contains(normalized, k))
        || (Contains(normalized, "视频") && Contains(normalized, "生成")))
  }

  function ErrorReply(msgID: string, sessionID: string, code: string, message: string): ChatReply {
    ChatReply(msgID, "", sessionID, "assistant", "", 1, true, true, Error, code, message, [])
  }

  function Notice(msgID: string, sessionID: string): ChatReply {
    ChatReply(msgID, "", sessionID, "assistant", "正在生成视频，预计需要几十秒，请稍候", 1, false, false, NoReason, "", "", [])
  }

  function Stamp(msgID: string, sessionID: string, r: ChatReply): ChatReply {
    r.(requestMsgID := msgID, sessionID := sessionID, role := if r.role == "" then "assistant" else r.role)
  }

  function StampAll(msgID: string, sessionID: string, rs: seq<ChatReply>): seq<ChatReply> {
    seq(|rs|, i requires 0 <= i < |rs| => Stamp(msgID, sessionID, rs[i]))
  }

  /** What is sent for an answer: its replies, stamped, or one error reply. */
  function Delivery(msgID: string, sessionID: string, a: Answer): seq<ChatReply> {
    match a
    case Answered(rs) => StampAll(msgID, sessionID, rs)
    case Errored(message) => [ErrorReply(msgID, sessionID, "CHAT_EXECUTION_FAILED", message)]
  }

  /** All of one request's replies, in sending order: one stream, closed by its last reply alone. */
  ghost predicate OneStream(rs: seq<ChatReply>, msgID: string, sessionID: string) {
    && OnlyLastEnds(rs)
    && forall r :: r in rs ==> r.requestMsgID == msgID && r.sessionID == sessionID && r.role != ""
  }

  /** A stream that claims to have simply stopped ends with something to show. */
  ghost predicate StopShowsSomething(rs: seq<ChatReply>) {
    rs != [] && var last := rs[|rs| - 1]; last.finishReason == Stop ==> !Blank(last.text) || last.attachments != []
  }

  /** What the video service may answer: a single final reply. */
  ghost predicate VideoAnswer(a: Answer) {
    a.Answered? ==> exists n, s :: VideoTask.FinalReply(a.replies, s, n)
  }

  lemma StampedStream(msgID: string, sessionID: string, rs: seq<ChatReply>)
    requires OnlyLastEnds(rs)
    ensures OneStream(StampAll(msgID, sessionID, rs), msgID, sessionID)
    ensures ClosedStream(rs) ==> ClosedStream(StampAll(msgID, sessionID, rs))
    ensures |StampAll(msgID, sessionID, rs)| == |rs|
    ensures forall i :: 0 <= i < |rs| ==> OnlyLabelled(rs[i], StampAll(msgID, sessionID, rs)[i])
  {
  }

  /** The request, the session and a missing role are all that may differ. */
  predicate OnlyLabelled(before: ChatReply, after: ChatReply) {
    && after == before.(requestMsgID := after.requestMsgID, sessionID := after.sessionID, role := after.role)
    && (before.role != "" ==> after.role == before.role)
  }

  lemma GatewayDelivery(scope: Scope, msgID: string, sessionID: string, rs: seq<ChatReply>)
    requires FinishedStream(scope, rs)
    ensures var out := StampAll(msgID, sessionID, rs);
      OneStream(out, msgID, sessionID) && ClosedStream(out) && StopShowsSomething(out)
  {
    StampedStream(msgID, sessionID, rs);
  }

  function CloudMsgID(msgID: string, fallback: string): string {
    if TrimSpace(msgID) == "" then fallback else TrimSpace(msgID)
  }

  /** The plan for one payload; its message id stands in for a blank one. */
  function PlanFor(p: Plan, msgID: string, payload: ChatPayload): Plan {
    p.(sessionID := payload.sessionID, msgID := CloudMsgID(msgID, p.msgID))
  }

  /** What the gateway path answers with: a turn that ended, and nothing else, is not an error. */
  predicate GatewayAnswers(libs: Libs, inbox: seq<Frame>, p: Plan, world: World) {
    Sent(inbox, p).Some? && OutcomeOf(libs, inbox, p, world).Finished?
  }

  method ChatWithGateway(conn: Connection, libs: Libs, p: Plan, world: World) returns (answer: Answer)
    requires conn.pos == 0 && conn.outbox == []
    modifies conn
    ensures answer.Answered? <==> GatewayAnswers(libs, conn.inbox, p, world)
    ensures answer.Answered? ==> answer.replies == OutcomeOf(libs, conn.inbox, p, world).replies
    ensures answer.Answered? ==> FinishedStream(ScopeOf(conn.inbox, p), answer.replies)
    ensures conn.outbox == Requests(conn.inbox, p)
  {
    var result := conn.Chat(libs, p, world);
    if result.NoRun? {
      return Errored("no run");
    }
    GatewayStream(libs, conn.inbox, p, world);
    match result.outcome {
      case Lost(_) =>
        answer := Errored("read chat event");
      case Finished(replies) =>
        if |replies| == 0 {
          // "gateway returned no chat events" is never reported
          assert false;
        }
        answer := Answer.Answered(replies);
    }
  }

  lemma GatewayStream(libs: Libs, inbox: seq<Frame>, p: Plan, world: World)
    requires Sent(inbox, p).Some?
    ensures var out := OutcomeOf(libs, inbox, p, world);
      out.Finished? ==> FinishedStream(ScopeOf(inbox, p), out.replies)
  {
    CollectedStream(libs, ScopeOf(inbox, p), world, inbox[Sent(inbox, p).value..]);
  }

  /** An error is delivered as one final reply of that code, with the error's message; and whatever the daemon says of
      its own accord, it says as the assistant. */
  lemma ErrorIsOneReply(msgID: string, sessionID: string, message: string)
    ensures var rs := Delivery(msgID, sessionID, Errored(message));
      && |rs| == 1 && rs[0].errorCode == "CHAT_EXECUTION_FAILED" && rs[0].errorMessage == message
      && rs[0].finishReason == Error && rs[0].chunkSeq == 1 && rs[0].role == "assistant"
      && rs[0].text == "" && rs[0].attachments == []
    ensures Notice(msgID, sessionID).role == "assistant" && Notice(msgID, sessionID).text != ""
  {
  }

  /** A reply without a role is delivered as the assistant's. */
  lemma RolesAreSupplied(msgID: string, sessionID: string, rs: seq<ChatReply>, i: nat)
    requires i < |rs|
    ensures StampAll(msgID, sessionID, rs)[i].role == if rs[i].role == "" then "assistant" else rs[i].role
  {
  }

  /** What is written to the gateway names the payload's session, and the cloud's message unless its id is blank. */
  lemma RequestNamesMessage(inbox: seq<Frame>, p: Plan, msgID: string, payload: ChatPayload, i: nat)
    requires i < |Requests(inbox, PlanFor(p, msgID, payload))|
    ensures var r := Requests(inbox, PlanFor(p, msgID, payload))[i].1;
      && (!r.Connect? ==> r.sessionID == payload.sessionID)
      && (r.SendChat? && !Blank(msgID) ==> r.msgID == TrimSpace(msgID))
      && (r.SendChat? && Blank(msgID) ==> r.msgID == p.msgID)
  {
  }

  class MessageRouter {
    var sent: seq<Outgoing>

    constructor ()
      ensures sent == []
    {
      sent := [];
    }

    method Reply(msgID: string, r: ChatReply)
      modifies this
      ensures sent == old(sent) + [Outgoing(msgID, r)]
    {
      sent := sent + [Outgoing(msgID, r)];
    }

    /** One by one, each stamped with the request it answers. */
    method Deliver(msgID: string, sessionID: string, answer: Answer)
      modifies this
      ensures sent == old(sent) + Envelopes(msgID, Delivery(msgID, sessionID, answer))
    {
      match answer {
        case Errored(message) =>
          Reply(msgID, ErrorReply(msgID, sessionID, "CHAT_EXECUTION_FAILED", message));
        case Answered(replies) =>
          for i := 0 to |replies|
            invariant sent == old(sent) + Envelopes(msgID, StampAll(msgID, sessionID, replies)[..i])
          {
            var reply := replies[i].(requestMsgID := msgID, sessionID := sessionID);
            if reply.role == "" {
              reply := reply.(role := "assistant");
            }
            Reply(msgID, reply);
          }
      }
    }

    /** `video` is what the video service answers if it is asked at all. */
    method HandleChat(msgID: string, payload: Option<ChatPayload>, videoEnabled: bool, video: Answer,
        conn: Connection, libs: Libs, plan: Plan, world: World) returns (ghost replies: seq<ChatReply>)
      requires conn.pos == 0 && conn.outbox == [] && VideoAnswer(video)
      modifies this, conn
      ensures sent == old(sent) + Envelopes(msgID, replies)
      ensures OneStream(replies, msgID, if payload.Some? then payload.value.sessionID else "")
      ensures payload.None? ==> replies == [ErrorReply(msgID, "", "INVALID_PAYLOAD", "invalid payload")]
      ensures payload.Some? && videoEnabled && IsVideoRequest(payload.value.text) ==>
        && |replies| == 2 && replies[0] == Notice(msgID, payload.value.sessionID)
        && replies[1..] == Delivery(msgID, payload.value.sessionID, video)
      ensures payload.Some? && !(videoEnabled && IsVideoRequest(payload.value.text)) ==>
        && ClosedStream(replies)
        && conn.outbox == Requests(conn.inbox, PlanFor(plan, msgID, payload.value))
        && if GatewayAnswers(libs, conn.inbox, PlanFor(plan, msgID, payload.value), world)
           then replies == StampAll(msgID, payload.value.sessionID,
                  OutcomeOf(libs, conn.inbox, PlanFor(plan, msgID, payload.value), world).replies)
           else |replies| == 1 && replies[0].errorCode == "CHAT_EXECUTION_FAILED" && replies[0].finishReason == Error
      ensures StopShowsSomething(replies)
    {
      if payload.None? {
        var invalid := ErrorReply(msgID, "", "INVALID_PAYLOAD", "invalid payload");
        Reply(msgID, invalid);
        return [invalid];
      }
      var sessionID := payload.value.sessionID;
      if videoEnabled && IsVideoRequest(payload.value.text) {
        replies := HandleVideoChat(msgID, sessionID, video);
        return;
      }
      replies := HandleGatewayChat(msgID, sessionID, conn, libs, PlanFor(plan, msgID, payload.value), world);
    }

    /** First the notice, then what the service answers. */
    method HandleVideoChat(msgID: string, sessionID: string, video: Answer) returns (ghost replies: seq<ChatReply>)
      requires VideoAnswer(video)
      modifies this
      ensures sent == old(sent) + Envelopes(msgID, replies)
      ensures OneStream(replies, msgID, sessionID) && StopShowsSomething(replies)
      ensures |replies| == 2 && replies[0] == Notice(msgID, sessionID)
      ensures replies[1..] == Delivery(msgID, sessionID, video)
    {
      Reply(msgID, Notice(msgID, sessionID));
      Deliver(msgID, sessionID, video);
      VideoStream(msgID, sessionID, video);
      replies := [Notice(msgID, sessionID)] + Delivery(msgID, sessionID, video);
    }

    method HandleGatewayChat(msgID: string, sessionID: string, conn: Connection, libs: Libs, p: Plan, world: World)
      returns (ghost replies: seq<ChatReply>)
      requires conn.pos == 0 && conn.outbox == []
      modifies this, conn
      ensures sent == old(sent) + Envelopes(msgID, replies)
      ensures OneStream(replies, msgID, sessionID) && ClosedStream(replies)
      ensures conn.outbox == Requests(conn.inbox, p)
      ensures if GatewayAnswers(libs, conn.inbox, p, world)
        then replies == StampAll(msgID, sessionID, OutcomeOf(libs, conn.inbox, p, world).replies)
        else |replies| == 1 && replies[0].errorCode == "CHAT_EXECUTION_FAILED" && replies[0].finishReason == Error
      ensures StopShowsSomething(replies)
    {
      var answer := ChatWithGateway(conn, libs, p, world);
      Deliver(msgID, sessionID, answer);
      if answer.Answered? {
        GatewayDelivery(ScopeOf(conn.inbox, p), msgID, sessionID, answer.replies);
      }
      replies := Delivery(msgID, sessionID, answer);
    }
  }

  function Envelopes(msgID: string, rs: seq<ChatReply>): seq<Outgoing> {
    seq(|rs|, i requires 0 <= i < |rs| => Outgoing(msgID, rs[i]))
  }

  lemma VideoStream(msgID: string, sessionID: string, video: Answer)
    requires VideoAnswer(video)
    ensures |Delivery(msgID, sessionID, video)| == 1
    ensures OneStream([Notice(msgID, sessionID)] + Delivery(msgID, sessionID, video), msgID, sessionID)
  {
  }

  ghost predicate Mentions(text: string, word: string) { exists before, after :: text == before + word + after }

  lemma ContainsIff(text: string, word: string)
    ensures Contains(text, word) <==> Mentions(text, word)
  {
    if Contains(text, word) {
      var i :| 0 <= i <= |text| && word <= text[i..];
      assert text == text[..i] + word + text[i + |word|..];
    }
    if Mentions(text, word) {
      var before, after :| text == before + word + after;
      assert text[|before|..] == word + after;
    }
  }

  /** A text asks for a video if and only if it mentions one of six words, or a video and generating, in any case. */
  lemma VideoRequestIff(text: string)
    ensures IsVideoRequest(text) <==>
      || (exists k :: k in {"生成视频", "做个视频", "图生视频", "短视频", "文生视频", "video"} && Mentions(Word(text), k))
      || (Mentions(Word(text), "视频") && Mentions(Word(text), "生成"))
  {
    forall k ensures Contains(Word(text), k) <==> Mentions(Word(text), k) {
      ContainsIff(Word(text), k);
    }
    var words := {"生成视频", "做个视频", "图生视频", "短视频", "文生视频", "video"};
    forall k ensures k in VIDEO_KEYWORDS <==> k in words {
      assert VIDEO_KEYWORDS[0] == "生成视频" && VIDEO_KEYWORDS[1] == "做个视频" && VIDEO_KEYWORDS[2] == "图生视频";
      assert VIDEO_KEYWORDS[3] == "短视频" && VIDEO_KEYWORDS[4] == "文生视频" && VIDEO_KEYWORDS[5] == "video";
    }
  }

  /** A video request is never blank, so the service's complaint about an empty prompt cannot be reached from here. */
  lemma VideoRequestHasPrompt(text: string)
    requires IsVideoRequest(text)
    ensures !Blank(text)
  {
  }
}
