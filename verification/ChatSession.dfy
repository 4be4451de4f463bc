/** One chat over one gateway connection: handshake, subscription, request, collection. */
module ChatSession {
  import opened GoText
  import opened Json
  import opened Attachments
  import opened ChatEvents
  import opened Collector
  import opened CollectorRuns
  import opened CollectReplies
  import TurnEnd
  import opened Store

  datatype Request =
    | Connect(id: string)
    | Subscribe(id: string, sessionID: string)
    | SendChat(id: string, sessionID: string, msgID: string)

  /** What is fixed before the chat: the ids made from the clock, which writes succeed, at which frames a token can
      be saved, and whether the challenge can be parsed and signed. */
  datatype Plan = Plan(
    connectID: string, subscribeID: string, chatID: string, sessionID: string, msgID: string,
    writes: nat -> bool, saves: nat -> bool, signs: bool)

  // ---------- what the phases wait for ----------

  /** Where the first response to the request is. */
  function FirstResponse(inbox: seq<Frame>, from: nat, id: string): (k: nat)
    requires from <= |inbox|
    ensures from <= k <= |inbox|
    ensures k < |inbox| ==> inbox[k].Response? && inbox[k].id == id
    ensures forall i :: from <= i < k ==> !(inbox[i].Response? && inbox[i].id == id)
    decreases |inbox| - from
  {
    if from == |inbox| || (inbox[from].Response? && inbox[from].id == id) then from
    else FirstResponse(inbox, from + 1, id)
  }

  function IsOK(f: Frame, id: string): bool {
    f.Response? && f.id == id && f.body.Some? && f.body.value.Accepted?
  }

  /** Where reading continues once the first response to the request has turned out to be an OK. */
  function Acked(inbox: seq<Frame>, from: Option<nat>, id: string, written: bool): (next: Option<nat>)
    requires from.Some? ==> from.value <= |inbox|
    ensures next.Some? ==> from.Some? && written && from.value < next.value <= |inbox|
    ensures next.Some? ==> IsOK(inbox[next.value - 1], id)
  {
    if from.None? || !written then None else AckAt(inbox, FirstResponse(inbox, from.value, id), id)
  }

  function AckAt(inbox: seq<Frame>, k: nat, id: string): Option<nat> {
    if k < |inbox| && IsOK(inbox[k], id) then Some(k + 1) else None
  }

  function Challenged(inbox: seq<Frame>, p: Plan): (next: Option<nat>)
    ensures next.Some? ==> next.value <= |inbox|
  {
    if inbox != [] && inbox[0].Event? && inbox[0].name == "connect.challenge" && p.signs then Some(1) else None
  }

  function Connected(inbox: seq<Frame>, p: Plan): Option<nat> {
    Acked(inbox, Challenged(inbox, p), p.connectID, p.writes(0))
  }

  function Subscribed(inbox: seq<Frame>, p: Plan): Option<nat> {
    Acked(inbox, Connected(inbox, p), p.subscribeID, p.writes(1))
  }

  function Sent(inbox: seq<Frame>, p: Plan): Option<nat> {
    Acked(inbox, Subscribed(inbox, p), p.chatID, p.writes(2))
  }

  /** The requests written, each with the number of frames read before it. */
  function Requests(inbox: seq<Frame>, p: Plan): seq<(nat, Request)> {
    WrittenAt(Challenged(inbox, p), p.writes(0), Connect(p.connectID))
    + WrittenAt(Connected(inbox, p), p.writes(1), Subscribe(p.subscribeID, p.sessionID))
    + WrittenAt(Subscribed(inbox, p), p.writes(2), SendChat(p.chatID, p.sessionID, p.msgID))
  }

  function WrittenAt(at: Option<nat>, ok: bool, r: Request): seq<(nat, Request)> {
    if at.Some? && ok then [(at.value, r)] else []
  }

  function ScopeOf(inbox: seq<Frame>, p: Plan): Scope
    requires Sent(inbox, p).Some?
  {
    Scope(p.sessionID, inbox[Sent(inbox, p).value - 1].body.value.runID, p.msgID)
  }

  /** The run is the one the gateway has accepted the request as; session and message are the request's own. */
  lemma ScopeIs(inbox: seq<Frame>, p: Plan)
    requires Sent(inbox, p).Some?
    ensures var ack, scope := inbox[Sent(inbox, p).value - 1], ScopeOf(inbox, p);
      && ack.Response? && ack.id == p.chatID && ack.body == Some(Accepted(scope.runID))
      && scope.sessionID == p.sessionID && scope.msgID == p.msgID
  {
  }

  /** What collecting the frames after the chat.send response gives. */
  function OutcomeOf(libs: Libs, inbox: seq<Frame>, p: Plan, world: World): Outcome
    requires Sent(inbox, p).Some?
  {
    Collect(libs, ScopeOf(inbox, p), world, START, inbox[Sent(inbox, p).value..])
  }

  lemma OutcomeAt(libs: Libs, inbox: seq<Frame>, p: Plan, world: World, k: nat, scope: Scope)
    requires Sent(inbox, p) == Some(k) && scope == ScopeOf(inbox, p)
    ensures OutcomeOf(libs, inbox, p, world) == Collect(libs, scope, world, START, inbox[k..])
  {
  }

  /** How many frames the collector reads: up to and including the first that ends the turn. */
  function Consumed(scope: Scope, frames: seq<Frame>): (n: nat)
    ensures n <= |frames|
  {
    if frames == [] then 0 else if EndsTurn(scope, frames[0]) then 1 else 1 + Consumed(scope, frames[1..])
  }

  lemma {:induction false} ConsumedUpToEnd(scope: Scope, frames: seq<Frame>)
    ensures Consumed(scope, frames) == var n := TurnEnd.FirstEnd(scope, frames); if n < |frames| then n + 1 else n
    decreases |frames|
  {
    if frames != [] {
      var ends := EndsTurn(scope, frames[0]);
      if !ends {
        ConsumedUpToEnd(scope, frames[1..]);
      }
    }
  }

  // ---------- device tokens ----------

  function TokenFrom(s: Option<State>, f: Frame, saved: bool): Option<State> {
    if f.Hello? && f.deviceToken.Some? then AfterToken(s, f.deviceToken.value, !saved, NO_FAULTS) else s
  }

  /** The state file after the hello-ok frames from `from` up to `upTo`. */
  function TokensFrom(s: Option<State>, inbox: seq<Frame>, saves: nat -> bool, from: nat, upTo: nat): Option<State>
    requires upTo <= |inbox|
    decreases upTo
  {
    if upTo <= from then s else TokenFrom(TokensFrom(s, inbox, saves, from, upTo - 1), inbox[upTo - 1], saves(upTo - 1))
  }

  predicate Offers(f: Frame, saved: bool) { f.Hello? && f.deviceToken.Some? && !Blank(f.deviceToken.value) && saved }

  /** The token kept is that of the last hello-ok that has one, and whose saving succeeded; otherwise the old one. */
  lemma {:induction false} LastTokenWins(s: State, inbox: seq<Frame>, saves: nat -> bool, from: nat, upTo: nat)
    requires from <= upTo <= |inbox|
    ensures var after := TokensFrom(Some(s), inbox, saves, from, upTo);
      && (forall i :: from <= i < upTo && Offers(inbox[i], saves(i)) &&
                      (forall j :: i < j < upTo ==> !Offers(inbox[j], saves(j))) ==>
            after == Some(s.(token := TrimSpace(inbox[i].deviceToken.value))))
      && ((forall i :: from <= i < upTo ==> !Offers(inbox[i], saves(i))) ==> after == Some(s))
    decreases upTo
  {
    if from < upTo {
      LastTokenWins(s, inbox, saves, from, upTo - 1);
      TokensKeepRest(s, inbox, saves, from, upTo - 1);
      OneMoreToken(s, TokensFrom(Some(s), inbox, saves, from, upTo - 1).value, inbox[upTo - 1], saves(upTo - 1));
    }
  }

  lemma OneMoreToken(s: State, before: State, f: Frame, saved: bool)
    requires before == s.(token := before.token)
    ensures TokenFrom(Some(before), f, saved) ==
      if Offers(f, saved) then Some(s.(token := TrimSpace(f.deviceToken.value))) else Some(before)
  {
  }

  lemma {:induction false} TokensKeepRest(s: State, inbox: seq<Frame>, saves: nat -> bool, from: nat, upTo: nat)
    requires upTo <= |inbox|
    ensures var after := TokensFrom(Some(s), inbox, saves, from, upTo);
      after.Some? && after == Some(s.(token := after.value.token))
    decreases upTo
  {
    if from < upTo {
      TokensKeepRest(s, inbox, saves, from, upTo - 1);
    }
  }

  // ---------- the connection ----------

  /** The chat fails before there is a run, or its turn is collected. */
  datatype ChatResult = NoRun | Collected(outcome: Outcome)

  class Connection {
    const inbox: seq<Frame>
    var pos: nat
    var outbox: seq<(nat, Request)>
    var state: Option<State>

    constructor (inbox: seq<Frame>, state: Option<State>)
      ensures this.inbox == inbox && this.state == state && pos == 0 && outbox == []
    {
      this.inbox, this.state, pos, outbox := inbox, state, 0, [];
    }

    method Read() returns (frame: Option<Frame>)
      requires pos <= |inbox|
      modifies this`pos
      ensures frame == if old(pos) < |inbox| then Some(inbox[old(pos)]) else None
      ensures pos == if frame.Some? then old(pos) + 1 else old(pos)
    {
      if pos == |inbox| {
        return None;
      }
      frame := Some(inbox[pos]);
      pos := pos + 1;
    }

    method Write(r: Request, succeeds: bool) returns (ok: bool)
      modifies this`outbox
      ensures ok == succeeds && outbox == old(outbox) + WrittenAt(Some(pos), ok, r)
    {
      ok := succeeds;
      if ok {
        outbox := outbox + [(pos, r)];
      }
    }

    /** Takes a hello-ok's token, and tells whether the frame is of no interest to the caller. */
    method HandleControlFrame(frame: Frame, saved: bool) returns (control: bool)
      modifies this`state
      ensures control == IsControl(frame)
      ensures state == TokenFrom(old(state), frame, saved)
    {
      match frame {
        case Hello(deviceToken) =>
          if deviceToken.Some? && TrimSpace(deviceToken.value) != "" && saved && state.Some? {
            state := Some(state.value.(token := TrimSpace(deviceToken.value)));
          }
          control := true;
        case Event(name, _) =>
          control := name !in CHAT_EVENTS;
        case _ =>
          control := false;
      }
    }

    /** Frames are read until the response comes; hello-ok frames are acted on meanwhile. */
    method AwaitResponse(id: string, saves: nat -> bool) returns (ok: bool)
      requires pos <= |inbox|
      modifies this`pos, this`state
      ensures pos <= |inbox|
      ensures ok == Acked(inbox, Some(old(pos)), id, true).Some?
      ensures ok ==> pos == Acked(inbox, Some(old(pos)), id, true).value
      ensures old(pos) <= pos && state == TokensFrom(old(state), inbox, saves, old(pos), pos)
    {
      ghost var start, s0 := pos, state;
      while true
        invariant start <= pos <= |inbox|
        invariant FirstResponse(inbox, start, id) == FirstResponse(inbox, pos, id)
        invariant state == TokensFrom(s0, inbox, saves, start, pos)
        decreases |inbox| - pos
      {
        ghost var at := pos;
        var frame, control := NextFrame(saves);
        if frame.None? {
          return false;
        }
        TokensCompose(s0, inbox, saves, start, at, pos);
        if control {
          continue;
        }
        if !frame.value.Response? || frame.value.id != id {
          continue;
        }
        return frame.value.body.Some? && frame.value.body.value.Accepted?;
      }
    }

    /** The first frame has to be the challenge. Until the connect response, hello-ok frames are just skipped. */
    method CompleteHandshake(p: Plan) returns (ok: bool)
      requires pos == 0 && outbox == []
      modifies this`pos, this`outbox
      ensures pos <= |inbox|
      ensures outbox == WrittenAt(Challenged(inbox, p), p.writes(0), Connect(p.connectID))
      ensures ok == Connected(inbox, p).Some?
      ensures ok ==> pos == Connected(inbox, p).value
    {
      var challenge := Read();
      if challenge.None? || !challenge.value.Event? || challenge.value.name != "connect.challenge" || !p.signs {
        return false;
      }
      ok := Write(Connect(p.connectID), p.writes(0));
      if ok {
        ok := AwaitConnect(p);
      }
    }

    method AwaitConnect(p: Plan) returns (ok: bool)
      requires pos <= |inbox|
      modifies this`pos
      ensures pos <= |inbox|
      ensures ok == Acked(inbox, Some(old(pos)), p.connectID, true).Some?
      ensures ok ==> pos == Acked(inbox, Some(old(pos)), p.connectID, true).value
    {
      ghost var start := pos;
      while true
        invariant start <= pos <= |inbox|
        invariant FirstResponse(inbox, start, p.connectID) == FirstResponse(inbox, pos, p.connectID)
        decreases |inbox| - pos
      {
        var frame := Read();
        if frame.None? {
          return false;
        }
        if !frame.value.Response? || frame.value.id != p.connectID {
          continue;
        }
        return frame.value.body.Some? && frame.value.body.value.Accepted?;
      }
    }

    method NextFrame(saves: nat -> bool) returns (frame: Option<Frame>, control: bool)
      requires pos <= |inbox|
      modifies this`pos, this`state
      ensures frame == if old(pos) < |inbox| then Some(inbox[old(pos)]) else None
      ensures pos == if frame.Some? then old(pos) + 1 else old(pos)
      ensures state == TokensFrom(old(state), inbox, saves, old(pos), pos)
      ensures frame.Some? ==> control == IsControl(frame.value)
    {
      var at := pos;
      frame := Read();
      control := false;
      if frame.Some? {
        control := HandleControlFrame(frame.value, saves(at));
      }
    }

    /** The collector's loop: up to and including the frame that ends the turn. */
    method CollectChatReplies(libs: Libs, scope: Scope, world: World, saves: nat -> bool) returns (outcome: Outcome)
      requires pos <= |inbox|
      modifies this`pos, this`state
      ensures outcome == Collect(libs, scope, world, START, inbox[old(pos)..])
      ensures pos == old(pos) + Consumed(scope, inbox[old(pos)..])
      ensures state == TokensFrom(old(state), inbox, saves, old(pos), pos)
    {
      ghost var start, s0 := pos, state;
      var turn := START;
      while true
        invariant start <= pos <= |inbox|
        invariant Collect(libs, scope, world, START, inbox[start..]) == Collect(libs, scope, world, turn, inbox[pos..])
        invariant start + Consumed(scope, inbox[start..]) == pos + Consumed(scope, inbox[pos..])
        invariant state == TokensFrom(s0, inbox, saves, start, pos)
        decreases |inbox| - pos
      {
        ghost var at, rest := pos, inbox[pos..];
        var next, control := NextFrame(saves);
        if next.None? {
          return Lost(turn.replies);
        }
        var frame := next.value;
        assert rest[0] == frame && rest[1..] == inbox[pos..];
        TokensCompose(s0, inbox, saves, start, at, pos);
        if control || !frame.Event? || frame.payload.None? {
          continue;
        }
        if !Matches(frame.payload.value, scope.sessionID, scope.runID) {
          continue;
        }
        var event := ChatEvent(frame.name, frame.payload.value);
        turn := AbsorbEvent(libs, scope, turn, event.payload);
        if IsTerminal(event) {
          var replies := FinishTurn(libs, scope, turn, event.payload, world);
          return Finished(replies);
        }
      }
    }

    /** The three requests, each after the response to the one before. */
    method RequestRun(p: Plan) returns (sent: bool)
      requires pos == 0 && outbox == []
      modifies this
      ensures pos <= |inbox|
      ensures outbox == Requests(inbox, p)
      ensures sent == Sent(inbox, p).Some?
      ensures sent ==> pos == Sent(inbox, p).value
      ensures state == StateAfter(old(state), p, pos)
    {
      sent := CompleteHandshake(p);
      if !sent {
        return;
      }
      ghost var connected, s0 := pos, state;
      sent := Write(Subscribe(p.subscribeID, p.sessionID), p.writes(1));
      if !sent {
        return;
      }
      sent := AwaitResponse(p.subscribeID, p.saves);
      if !sent {
        return;
      }
      ghost var subscribed := pos;
      sent := Write(SendChat(p.chatID, p.sessionID, p.msgID), p.writes(2));
      if !sent {
        return;
      }
      sent := AwaitResponse(p.chatID, p.saves);
      TokensCompose(s0, inbox, p.saves, connected, subscribed, pos);
    }

    /** The tokens of the hello-ok frames read since the connect response. */
    function StateAfter(before: Option<State>, p: Plan, upTo: nat): Option<State>
      requires upTo <= |inbox|
    {
      match Connected(inbox, p) case None => before case Some(k) => TokensFrom(before, inbox, p.saves, k, upTo)
    }

    method Chat(libs: Libs, p: Plan, world: World) returns (result: ChatResult)
      requires pos == 0 && outbox == []
      modifies this
      ensures pos <= |inbox|
      ensures outbox == Requests(inbox, p)
      ensures result.Collected? == Sent(inbox, p).Some?
      ensures result.Collected? ==> result.outcome == OutcomeOf(libs, inbox, p, world)
      ensures state == StateAfter(old(state), p, pos)
      ensures Sent(inbox, p).Some? ==>
        pos == Sent(inbox, p).value + Consumed(ScopeOf(inbox, p), inbox[Sent(inbox, p).value..])
    {
      ghost var s0 := state;
      var sent := RequestRun(p);
      if !sent {
        return NoRun;
      }
      ghost var k := pos;
      var outcome := CollectRun(libs, p, world);
      TokensCompose(s0, inbox, p.saves, Connected(inbox, p).value, k, pos);
      result := Collected(outcome);
    }

    method CollectRun(libs: Libs, p: Plan, world: World) returns (outcome: Outcome)
      requires pos <= |inbox| && Sent(inbox, p) == Some(pos)
      modifies this`pos, this`state
      ensures outcome == OutcomeOf(libs, inbox, p, world)
      ensures pos == old(pos) + Consumed(ScopeOf(inbox, p), inbox[old(pos)..])
      ensures state == TokensFrom(old(state), inbox, p.saves, old(pos), pos)
    {
      var scope := Scope(p.sessionID, inbox[pos - 1].body.value.runID, p.msgID);
      OutcomeAt(libs, inbox, p, world, pos, scope);
      outcome := CollectChatReplies(libs, scope, world, p.saves);
    }
  }

  lemma {:induction false} TokensCompose(s: Option<State>, inbox: seq<Frame>, saves: nat -> bool, a: nat, b: nat,
      c: nat)
    requires a <= b <= c <= |inbox|
    ensures TokensFrom(TokensFrom(s, inbox, saves, a, b), inbox, saves, b, c) == TokensFrom(s, inbox, saves, a, c)
    decreases c
  {
    if b < c {
      TokensCompose(s, inbox, saves, a, b, c - 1);
    }
  }

  // ---------- when there is a turn ----------

  /** Frame `k` is the first from `from` on that answers the request, and accepts it. */
  ghost predicate Accepts(inbox: seq<Frame>, from: nat, k: nat, id: string) {
    && from <= k < |inbox| && inbox[k].Response? && inbox[k].id == id
    && inbox[k].body.Some? && inbox[k].body.value.Accepted?
    && forall i :: from <= i < k ==> !(inbox[i].Response? && inbox[i].id == id)
  }

  lemma AckedIff(inbox: seq<Frame>, from: nat, id: string, k: nat)
    requires from <= |inbox|
    ensures Acked(inbox, Some(from), id, true) == Some(k + 1) <==> Accepts(inbox, from, k, id)
  {
    var first := FirstResponse(inbox, from, id);
    if Accepts(inbox, from, k, id) {
      assert first == k;
    }
  }

  /** The frames that accept the three requests, one after the other. */
  ghost predicate AcceptsAll(inbox: seq<Frame>, p: Plan, i: nat, j: nat, k: nat) {
    && Accepts(inbox, 1, i, p.connectID) && Accepts(inbox, i + 1, j, p.subscribeID)
    && Accepts(inbox, j + 1, k, p.chatID)
  }

  /** The first frame is a challenge that can be signed, and the three requests can be written. */
  predicate CanAsk(inbox: seq<Frame>, p: Plan) {
    && inbox != [] && inbox[0].Event? && inbox[0].name == "connect.challenge" && p.signs
    && p.writes(0) && p.writes(1) && p.writes(2)
  }

  /** A turn is collected if and only if the challenge can be met and the three requests are accepted one after the
      other; what is collected begins behind the last of these frames. */
  lemma TurnIff(inbox: seq<Frame>, p: Plan)
    ensures Sent(inbox, p).Some? <==>
      CanAsk(inbox, p) && exists i: nat, j: nat, k: nat :: AcceptsAll(inbox, p, i, j, k)
    ensures forall i: nat, j: nat, k: nat :: CanAsk(inbox, p) && AcceptsAll(inbox, p, i, j, k) ==>
      Sent(inbox, p) == Some(k + 1)
  {
    if Sent(inbox, p).Some? {
      var i, j, k := Connected(inbox, p).value - 1, Subscribed(inbox, p).value - 1, Sent(inbox, p).value - 1;
      AckedIff(inbox, 1, p.connectID, i);
      AckedIff(inbox, i + 1, p.subscribeID, j);
      AckedIff(inbox, j + 1, p.chatID, k);
      assert AcceptsAll(inbox, p, i, j, k);
    }
    forall i: nat, j: nat, k: nat | CanAsk(inbox, p) && AcceptsAll(inbox, p, i, j, k)
      ensures Sent(inbox, p) == Some(k + 1)
    {
      AckedIff(inbox, 1, p.connectID, i);
      AckedIff(inbox, i + 1, p.subscribeID, j);
      AckedIff(inbox, j + 1, p.chatID, k);
    }
  }

  // ---------- the order of the phases ----------

  /** chat.send goes out only after an OK connect response and, after that, an OK subscribe response. */
  lemma SendsAfterAcks(inbox: seq<Frame>, p: Plan)
    ensures forall w :: w in Requests(inbox, p) && w.1.SendChat? ==>
      exists i, j :: 0 < i < j < w.0 <= |inbox| && IsOK(inbox[i], p.connectID) && IsOK(inbox[j], p.subscribeID)
  {
    if Subscribed(inbox, p).Some? {
      var i, j := Connected(inbox, p).value - 1, Subscribed(inbox, p).value - 1;
      assert 0 < i < j < Subscribed(inbox, p).value && IsOK(inbox[i], p.connectID) && IsOK(inbox[j], p.subscribeID);
    }
  }

  /** Each request is written at most once, and always in the same order. */
  lemma WritesOnce(inbox: seq<Frame>, p: Plan)
    ensures var out := Requests(inbox, p);
      && |out| <= 3
      && (|out| > 0 ==> out[0].1 == Connect(p.connectID))
      && (|out| > 1 ==> out[1].1 == Subscribe(p.subscribeID, p.sessionID))
      && (|out| > 2 ==> out[2].1 == SendChat(p.chatID, p.sessionID, p.msgID))
      && forall i, j :: 0 <= i < j < |out| ==> out[i].0 < out[j].0
  {
  }

  predicate OurID(id: string, p: Plan) { id == p.connectID || id == p.subscribeID || id == p.chatID }

  /** A response to one of the three requests. */
  predicate Answers(f: Frame, p: Plan) { f.Response? && OurID(f.id, p) }

  /** Before the chat.send response of `a`, the connections may differ in everything but the responses to the three
      requests and the first frame being a challenge; after it, in nothing. */
  predicate Alike(a: seq<Frame>, b: seq<Frame>, p: Plan) {
    && Sent(a, p).Some? && |b| == |a| && Challenged(b, p) == Challenged(a, p)
    && (forall i :: 0 <= i < |a| && (Answers(a[i], p) || Answers(b[i], p) || i >= Sent(a, p).value) ==> a[i] == b[i])
  }

  lemma {:induction false} FirstResponseAlike(a: seq<Frame>, b: seq<Frame>, p: Plan, from: nat, id: string)
    requires Alike(a, b, p) && from <= |a| && OurID(id, p)
    ensures FirstResponse(a, from, id) == FirstResponse(b, from, id)
    decreases |a| - from
  {
    if from < |a| {
      assert Answers(a[from], p) || Answers(b[from], p) ==> a[from] == b[from];
      FirstResponseAlike(a, b, p, from + 1, id);
    }
  }

  lemma ReplacedFramesDoNotCount(a: seq<Frame>, b: seq<Frame>, p: Plan)
    requires Alike(a, b, p)
    ensures Sent(b, p) == Sent(a, p) && ScopeOf(b, p) == ScopeOf(a, p) && Requests(b, p) == Requests(a, p)
    ensures b[Sent(b, p).value..] == a[Sent(a, p).value..]
  {
    AckedAlike(a, b, p, Challenged(a, p), p.connectID, p.writes(0));
    AckedAlike(a, b, p, Connected(a, p), p.subscribeID, p.writes(1));
    AckedAlike(a, b, p, Subscribed(a, p), p.chatID, p.writes(2));
  }

  lemma AckedAlike(a: seq<Frame>, b: seq<Frame>, p: Plan, from: Option<nat>, id: string, written: bool)
    requires Alike(a, b, p) && OurID(id, p)
    requires from.Some? ==> from.value <= |a|
    ensures Acked(a, from, id, written) == Acked(b, from, id, written)
    ensures var next := Acked(a, from, id, written); next.Some? ==> a[next.value - 1] == b[next.value - 1]
  {
    if from.Some? {
      FirstResponseAlike(a, b, p, from.value, id);
      var k := FirstResponse(a, from.value, id);
      assert k < |a| ==> Answers(a[k], p);
    }
  }

  function Inserted(a: seq<Frame>, i: nat, f: Frame): seq<Frame>
    requires i <= |a|
  {
    a[..i] + [f] + a[i..]
  }

  /** Where reading position `n` is once a frame is inserted at `i`. */
  function Moved(n: Option<nat>, i: nat): Option<nat> {
    if n.Some? && n.value > i then Some(n.value + 1) else n
  }

  lemma {:induction false} FirstResponseBehind(a: seq<Frame>, i: nat, f: Frame, from: nat, id: string)
    requires i <= from <= |a|
    ensures FirstResponse(Inserted(a, i, f), from + 1, id) == FirstResponse(a, from, id) + 1
    decreases |a| - from
  {
    if from < |a| {
      assert Inserted(a, i, f)[from + 1] == a[from];
      FirstResponseBehind(a, i, f, from + 1, id);
    }
  }

  lemma {:induction false} FirstResponseAhead(a: seq<Frame>, i: nat, f: Frame, p: Plan, from: nat, id: string)
    requires from <= i <= |a| && !Answers(f, p) && OurID(id, p)
    ensures var k := FirstResponse(a, from, id);
      FirstResponse(Inserted(a, i, f), from, id) == if k < i then k else k + 1
    decreases i - from
  {
    if from == i {
      assert Inserted(a, i, f)[i] == f;
      FirstResponseBehind(a, i, f, i, id);
    } else {
      assert Inserted(a, i, f)[from] == a[from];
      FirstResponseAhead(a, i, f, p, from + 1, id);
    }
  }

  lemma AckAtInserted(a: seq<Frame>, i: nat, f: Frame, k: nat, id: string)
    requires i <= |a|
    ensures AckAt(Inserted(a, i, f), if k < i then k else k + 1, id) == Moved(AckAt(a, k, id), i)
  {
    if k < |a| {
      assert a[k] == Inserted(a, i, f)[if k < i then k else k + 1];
    }
  }

  lemma FirstResponseInserted(a: seq<Frame>, i: nat, f: Frame, p: Plan, from: nat, id: string)
    requires i <= |a| && !Answers(f, p) && OurID(id, p) && from <= |a|
    ensures var k := FirstResponse(a, from, id);
      FirstResponse(Inserted(a, i, f), if from > i then from + 1 else from, id) == if k < i then k else k + 1
  {
    if from <= i {
      FirstResponseAhead(a, i, f, p, from, id);
    } else {
      FirstResponseBehind(a, i, f, from, id);
    }
  }

  lemma AckedInserted(a: seq<Frame>, i: nat, f: Frame, p: Plan, from: Option<nat>, id: string, written: bool)
    requires i <= |a| && !Answers(f, p) && OurID(id, p) && (from.Some? ==> from.value <= |a|)
    ensures Acked(Inserted(a, i, f), Moved(from, i), id, written) == Moved(Acked(a, from, id, written), i)
  {
    if from.Some? && written {
      FirstResponseInserted(a, i, f, p, from.value, id);
      AckAtInserted(a, i, f, FirstResponse(a, from.value, id), id);
    }
  }

  /** A frame inserted after the challenge, not a response to one of the requests, only moves the positions. */
  lemma SentInserted(a: seq<Frame>, i: nat, f: Frame, p: Plan)
    requires 0 < i <= |a| && !Answers(f, p)
    ensures Sent(Inserted(a, i, f), p) == Moved(Sent(a, p), i)
  {
    assert Inserted(a, i, f)[0] == a[0];
    assert Challenged(Inserted(a, i, f), p) == Moved(Challenged(a, p), i);
    AckedInserted(a, i, f, p, Challenged(a, p), p.connectID, p.writes(0));
    AckedInserted(a, i, f, p, Connected(a, p), p.subscribeID, p.writes(1));
    AckedInserted(a, i, f, p, Subscribed(a, p), p.chatID, p.writes(2));
  }

  /** The responses to our requests. */
  function Sift(frames: seq<Frame>, p: Plan): seq<Frame> {
    if frames == [] then []
    else (if Answers(frames[0], p) then [frames[0]] else []) + Sift(frames[1..], p)
  }

  /** The frames up to and including the chat.send response, and the last of them. */
  predicate SentBy(before: seq<Frame>, rest: seq<Frame>, p: Plan) { Sent(before + rest, p) == Some(|before|) }

  /** Between `kept` and the last frame, which is a response, everything but responses can be dropped. */
  lemma {:induction false} Sifted(kept: seq<Frame>, more: seq<Frame>, rest: seq<Frame>, p: Plan)
    requires kept != [] && more != [] && Answers(more[|more| - 1], p)
    ensures SentBy(kept + more, rest, p) <==> SentBy(kept + Sift(more, p), rest, p)
    ensures Sift(more, p) != [] && Sift(more, p)[|Sift(more, p)| - 1] == more[|more| - 1]
    decreases |more|
  {
    var f, others := more[0], more[1..];
    if others == [] {
      assert more == [f] && Sift(more, p) == [f] + [] == more;
      assert kept + Sift(more, p) == kept + more;
    } else if Answers(f, p) {
      assert kept + more == (kept + [f]) + others;
      assert Sift(more, p) == [f] + Sift(others, p);
      assert kept + Sift(more, p) == (kept + [f]) + Sift(others, p);
      Sifted(kept + [f], others, rest, p);
    } else {
      assert Sift(more, p) == [] + Sift(others, p) == Sift(others, p);
      Sifted(kept, others, rest, p);
      OneDropped(kept, f, others, rest, p);
      assert kept + more == kept + [f] + others;
    }
  }

  lemma OneDropped(kept: seq<Frame>, f: Frame, others: seq<Frame>, rest: seq<Frame>, p: Plan)
    requires kept != [] && others != [] && !Answers(f, p)
    ensures SentBy(kept + [f] + others, rest, p) <==> SentBy(kept + others, rest, p)
  {
    var less := kept + others + rest;
    InsertedBetween(kept, f, others, rest);
    SentInserted(less, |kept|, f, p);
    MovedPast(Sent(less, p), |kept|, |kept + others|);
  }

  lemma MovedPast(n: Option<nat>, i: nat, end: nat)
    requires i < end
    ensures Moved(n, i) == Some(end + 1) <==> n == Some(end)
  {
  }

  lemma InsertedBetween(kept: seq<Frame>, f: Frame, others: seq<Frame>, rest: seq<Frame>)
    ensures kept + [f] + others + rest == Inserted(kept + others + rest, |kept|, f)
  {
  }

  /** Two inboxes that begin with a challenge, have the same responses to our requests in the same order, and the same
      frames after the chat.send response, have the same run and the same outcome: whatever other frames come before
      that response, and however many, they never contribute. */
  lemma EarlierFramesDoNotCount(libs: Libs, world: World, x: seq<Frame>, y: seq<Frame>, rest: seq<Frame>, p: Plan)
    requires |x| > 1 && |y| > 1 && Challenged(x, p) == Challenged(y, p) && Sift(x[1..], p) == Sift(y[1..], p)
    requires SentBy(x, rest, p) && Answers(y[|y| - 1], p)
    ensures SentBy(y, rest, p) && ScopeOf(y + rest, p) == ScopeOf(x + rest, p)
    ensures OutcomeOf(libs, y + rest, p, world) == OutcomeOf(libs, x + rest, p, world)
  {
    var answers := Sift(x[1..], p);
    LastIsAnswer(x, rest, p);
    AllSifted(x, rest, p);
    AllSifted(y, rest, p);
    SameAnswers(x[0], y[0], answers, rest, p);
    SameAfterwards(libs, world, x, y, rest, p);
  }

  lemma AllSifted(x: seq<Frame>, rest: seq<Frame>, p: Plan)
    requires |x| > 1 && Answers(x[|x| - 1], p)
    ensures SentBy(x, rest, p) <==> SentBy([x[0]] + Sift(x[1..], p), rest, p)
    ensures Sift(x[1..], p) != [] && Sift(x[1..], p)[|Sift(x[1..], p)| - 1] == x[|x| - 1]
  {
    assert x == [x[0]] + x[1..];
    Sifted([x[0]], x[1..], rest, p);
  }

  lemma SameAnswers(c: Frame, d: Frame, answers: seq<Frame>, rest: seq<Frame>, p: Plan)
    requires Challenged([c], p) == Challenged([d], p) && SentBy([c] + answers, rest, p)
    ensures SentBy([d] + answers, rest, p)
  {
    var a, b := [c] + answers + rest, [d] + answers + rest;
    assert Challenged(a, p) == Challenged([c], p) && Challenged(b, p) == Challenged([d], p);
    assert Challenged(a, p).Some?;
    assert Alike(a, b, p);
    ReplacedFramesDoNotCount(a, b, p);
  }

  lemma SameAfterwards(libs: Libs, world: World, x: seq<Frame>, y: seq<Frame>, rest: seq<Frame>, p: Plan)
    requires x != [] && y != [] && SentBy(x, rest, p) && SentBy(y, rest, p) && x[|x| - 1] == y[|y| - 1]
    ensures ScopeOf(y + rest, p) == ScopeOf(x + rest, p)
    ensures OutcomeOf(libs, y + rest, p, world) == OutcomeOf(libs, x + rest, p, world)
  {
    ScopeAfter(x, rest, p);
    ScopeAfter(y, rest, p);
    OutcomeAfter(libs, world, x, rest, p);
    OutcomeAfter(libs, world, y, rest, p);
  }

  lemma ScopeAfter(x: seq<Frame>, rest: seq<Frame>, p: Plan)
    requires x != [] && SentBy(x, rest, p)
    ensures IsOK(x[|x| - 1], p.chatID)
    ensures ScopeOf(x + rest, p) == Scope(p.sessionID, x[|x| - 1].body.value.runID, p.msgID)
  {
    assert (x + rest)[|x| - 1] == x[|x| - 1];
  }

  lemma OutcomeAfter(libs: Libs, world: World, x: seq<Frame>, rest: seq<Frame>, p: Plan)
    requires SentBy(x, rest, p)
    ensures OutcomeOf(libs, x + rest, p, world) == Collect(libs, ScopeOf(x + rest, p), world, START, rest)
  {
    assert (x + rest)[|x|..] == rest;
    OutcomeAt(libs, x + rest, p, world, |x|, ScopeOf(x + rest, p));
  }

  lemma LastIsAnswer(x: seq<Frame>, rest: seq<Frame>, p: Plan)
    requires x != [] && SentBy(x, rest, p)
    ensures Answers(x[|x| - 1], p)
  {
    assert (x + rest)[|x| - 1] == x[|x| - 1];
  }
}
