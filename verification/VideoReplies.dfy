/** The video path as a whole: what a request is answered with, given the gate, the provider's configuration and who
    else asks for the same video. */
module VideoReplies {
  import opened GoText
  import opened Json
  import opened Protocol
  import opened Router
  import opened SingleFlight
  import VideoTask

  /** One call: the request's text, and whether a provider key would be found if this call generated. */
  datatype Request = Request(text: string, configured: bool)

  function NumberFor(r: Request): nat { if r.configured && !Blank(r.text) then 2 else 1 }

  /** Every generation gives what VideoTask.Generate promises for its caller's request. */
  ghost predicate Generated(requests: seq<Request>, turns: seq<Turn>) {
    forall t :: t in turns && t.caller < |requests| ==>
      t.failure.None? && FinalNumber(t.replies, NumberFor(requests[t.caller]))
  }

  ghost predicate FinalNumber(replies: seq<ChatReply>, n: nat) {
    exists s :: VideoTask.FinalReply(replies, s, n)
  }

  /** What `Generate` returns to a caller that is done; a refused one gets an error reply of its own. */
  function AnswerOf(pc: PC, sessionID: string): Answer {
    match pc
    case Returned(_, Some(replies), Some(None)) => Answer.Answered(replies)
    case Returned(_, _, Some(Some(message))) => Answer.Errored(message)
    case _ => Answer.Answered(
      [VideoTask.FinalError(sessionID, 1, "VIDEO_REQUEST_UNSUPPORTED", "video generation is disabled")])
  }

  /** All that is sent for a caller's request. */
  function Sent(pc: PC, msgID: string, sessionID: string): seq<ChatReply> {
    [Notice(msgID, sessionID)] + Delivery(msgID, sessionID, AnswerOf(pc, sessionID))
  }

  function Numbers(rs: seq<ChatReply>): seq<int> {
    seq(|rs|, i requires 0 <= i < |rs| => rs[i].chunkSeq)
  }

  /** The caller that generated for `i`'s request, if any did: by GeneratesOnce there is at most one. */
  ghost predicate IsGenerator(ids: seq<string>, s: State, i: nat, e: nat)
    requires Shaped(ids, s) && i < |ids|
  {
    e < |ids| && ids[e] == ids[i] && s.starts[e] == 1
  }

  lemma SharedAnswer(ids: seq<string>, requests: seq<Request>, turns: seq<Turn>, i: nat, sessionID: string)
    returns (e: nat)
    requires |requests| == |ids| && Generated(requests, turns) && i < |ids|
    requires Run(ids, Init(ids), turns).pcs[i].Returned?
    ensures IsGenerator(ids, Run(ids, Init(ids), turns), i, e)
    ensures var answer := AnswerOf(Run(ids, Init(ids), turns).pcs[i], sessionID);
      answer.Answered? && FinalNumber(answer.replies, NumberFor(requests[e]))
  {
    var s := Run(ids, Init(ids), turns);
    e := s.pcs[i].entry;
    AnswersAreGenuine(ids, turns, i);
    GeneratorOf(ids, turns, i);
  }

  lemma GeneratorOf(ids: seq<string>, turns: seq<Turn>, i: nat)
    requires i < |ids| && Run(ids, Init(ids), turns).pcs[i].Returned?
    ensures IsGenerator(ids, Run(ids, Init(ids), turns), i, Run(ids, Init(ids), turns).pcs[i].entry)
  {
    var s := Run(ids, Init(ids), turns);
    var e := s.pcs[i].entry;
    InitInv(ids);
    RunKeepsInv(ids, Init(ids), turns);
    assert RefersWell(ids, s, i) && EntryFits(e, s.pcs[e], s.entries[e], s.starts[e]);
  }

  lemma NumbersOf(pc: PC, n: nat, msgID: string, sessionID: string)
    requires var answer := AnswerOf(pc, sessionID); answer.Answered? && FinalNumber(answer.replies, n)
    ensures VideoAnswer(AnswerOf(pc, sessionID)) && OneStream(Sent(pc, msgID, sessionID), msgID, sessionID)
    ensures Numbers(Sent(pc, msgID, sessionID)) == [1, n]
    ensures ClosedStream(Sent(pc, msgID, sessionID)) <==> n == 2
  {
    assert VideoAnswer(AnswerOf(pc, sessionID));
    VideoStream(msgID, sessionID, AnswerOf(pc, sessionID));
    var rs := Sent(pc, msgID, sessionID);
    assert rs[0].chunkSeq == 1 && rs[1].chunkSeq == n;
  }

  lemma RefusedNumbers(pc: PC, msgID: string, sessionID: string)
    requires pc.Refused?
    ensures OneStream(Sent(pc, msgID, sessionID), msgID, sessionID) && Numbers(Sent(pc, msgID, sessionID)) == [1, 1]
  {
    assert VideoTask.FinalReply(AnswerOf(pc, sessionID).replies, sessionID, 1);
    NumbersOf(pc, 1, msgID, sessionID);
  }

  lemma ServedNumbers(pc: PC, r: Request, msgID: string, sessionID: string)
    requires IsVideoRequest(r.text)
    requires var answer := AnswerOf(pc, sessionID); answer.Answered? && FinalNumber(answer.replies, NumberFor(r))
    ensures OneStream(Sent(pc, msgID, sessionID), msgID, sessionID)
    ensures Numbers(Sent(pc, msgID, sessionID)) == [1, if r.configured then 2 else 1]
  {
    VideoRequestHasPrompt(r.text);
    NumbersOf(pc, NumberFor(r), msgID, sessionID);
  }

  ghost predicate Setting(ids: seq<string>, requests: seq<Request>, turns: seq<Turn>) {
    |requests| == |ids| && Generated(requests, turns) && forall r :: r in requests ==> IsVideoRequest(r.text)
  }

  /** For every interleaving, and every caller that is done: one stream is sent, of the notice and one final reply.
      They are numbered 1 and 2 if the gate was open in the caller's first turn and a provider key was found by
      the caller that generated; otherwise number 1 is used twice. The texts being video requests, no prompt is
      empty. */
  lemma VideoNumbers(ids: seq<string>, requests: seq<Request>, turns: seq<Turn>, i: nat, msgID: string,
      sessionID: string)
    returns (e: nat)
    requires Setting(ids, requests, turns)
    requires i < |ids| && Done(Run(ids, Init(ids), turns).pcs[i])
    ensures OneStream(Sent(Run(ids, Init(ids), turns).pcs[i], msgID, sessionID), msgID, sessionID)
    ensures GateOf(turns, i) == Some(false) ==>
      Numbers(Sent(Run(ids, Init(ids), turns).pcs[i], msgID, sessionID)) == [1, 1]
    ensures GateOf(turns, i) != Some(false) ==> IsGenerator(ids, Run(ids, Init(ids), turns), i, e)
    ensures GateOf(turns, i) != Some(false) ==>
      Numbers(Sent(Run(ids, Init(ids), turns).pcs[i], msgID, sessionID)) == [1, if requests[e].configured then 2 else 1]
  {
    var s := Run(ids, Init(ids), turns);
    GateDecides(ids, turns, i);
    if s.pcs[i].Refused? {
      RefusedNumbers(s.pcs[i], msgID, sessionID);
      e := 0;
    } else {
      e := SharedAnswer(ids, requests, turns, i, sessionID);
      assert requests[e] in requests;
      ServedNumbers(s.pcs[i], requests[e], msgID, sessionID);
    }
  }

  /** If all calls of the request find the same configuration, as a single call does: the numbers go up if and only
      if the gate is open and a key is found. */
  lemma VideoNumbersIff(ids: seq<string>, requests: seq<Request>, turns: seq<Turn>, i: nat, msgID: string,
      sessionID: string)
    requires Setting(ids, requests, turns)
    requires i < |ids| && Done(Run(ids, Init(ids), turns).pcs[i])
    requires forall e :: 0 <= e < |ids| && ids[e] == ids[i] ==> requests[e].configured == requests[i].configured
    ensures ClosedStream(Sent(Run(ids, Init(ids), turns).pcs[i], msgID, sessionID)) <==>
      GateOf(turns, i) == Some(true) && requests[i].configured
  {
    var e := VideoNumbers(ids, requests, turns, i, msgID, sessionID);
    GateDecides(ids, turns, i);
    var rs := Sent(Run(ids, Init(ids), turns).pcs[i], msgID, sessionID);
    ClosedIff(rs, GateOf(turns, i), requests[i].configured, msgID, sessionID);
  }

  lemma ClosedIff(rs: seq<ChatReply>, gate: Option<bool>, configured: bool, msgID: string, sessionID: string)
    requires OneStream(rs, msgID, sessionID) && gate.Some?
    requires Numbers(rs) == [1, if gate.value && configured then 2 else 1]
    ensures ClosedStream(rs) <==> gate.value && configured
  {
    assert |rs| == |Numbers(rs)| == 2;
    assert rs[0].chunkSeq == Numbers(rs)[0] && rs[1].chunkSeq == Numbers(rs)[1];
  }

  /** Two runs that use number 1 twice: the gate closes after the request was routed, and there is no provider key. */
  lemma NumberOneTwice()
    ensures IsVideoRequest("video")
    ensures var pc := Run(["m"], Init(["m"]), [Turn(0, false, [], None)]).pcs[0];
      Done(pc) && Numbers(Sent(pc, "m", "s")) == [1, 1]
    ensures var go := Turn(0, true, [VideoTask.FinalError("s", 1, "VIDEO_REQUEST_UNSUPPORTED", "no api key")], None);
      var pc := Run(["m"], Init(["m"]), seq(9, _ => go)).pcs[0];
      Generated([Request("video", false)], seq(9, _ => go)) && Done(pc) && Numbers(Sent(pc, "m", "s")) == [1, 1]
  {
    ClosedGate();
    var replies := [VideoTask.FinalError("s", 1, "VIDEO_REQUEST_UNSUPPORTED", "no api key")];
    assert VideoTask.FinalReply(replies, "s", 1);
    var turns, s := LoneRun(["m"], replies);
    NumbersOf(s.pcs[0], 1, "m", "s");
    IsVideoWord();
  }

  lemma ClosedGate()
    ensures var pc := Run(["m"], Init(["m"]), [Turn(0, false, [], None)]).pcs[0];
      pc.Refused? && Numbers(Sent(pc, "m", "s")) == [1, 1]
  {
    var closed := [Turn(0, false, [], None)];
    assert closed[1..] == [];
    RefusedNumbers(Run(["m"], Init(["m"]), closed).pcs[0], "m", "s");
  }

  lemma IsVideoWord()
    ensures IsVideoRequest("video")
  {
    TrimFixed("video", IsSpace);
    assert ToLower("video") == "video";
    assert "video" <= "video"[0..];
    assert Contains("video", "video");
    assert VIDEO_KEYWORDS[5] == "video";
  }
}
