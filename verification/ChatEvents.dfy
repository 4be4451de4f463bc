/** How the adapter reads one gateway frame. */
module ChatEvents {
  import opened GoText
  import opened Json
  import opened Attachments
  import opened Protocol

  datatype ResponseBody = Rejected | Accepted(runID: string)

  /** A gateway frame after JSON decoding. A missing part stands for one that does not decode. */
  datatype Frame =
    | Garbled
    | Hello(deviceToken: Option<string>)
    | Event(name: string, payload: Option<Object>)
    | Response(id: string, body: Option<ResponseBody>)
    | OtherFrame

  datatype ChatEvent = ChatEvent(name: string, payload: Object)

  datatype Scope = Scope(sessionID: string, runID: string, msgID: string)

  const CHAT_EVENTS := {"chat", "session.message", "agent"}

  /** The frames handleControlFrame keeps from the caller. */
  predicate IsControl(frame: Frame) {
    frame.Hello? || (frame.Event? && frame.name !in CHAT_EVENTS)
  }

  // ---------- does the event concern this turn? ----------

  predicate SessionIdentifierMatches(candidate: string, target: string) {
    var c, t := TrimSpace(candidate), TrimSpace(target);
    c != "" && t != "" && (c == t || HasSuffix(c, ":" + t))
  }

  predicate AnySessionMatches(m: Object, target: string, keys: seq<string>) {
    exists k | k in keys ::
      Str(m, k).Some? && SessionIdentifierMatches(TrimSpace(Str(m, k).value), target)
  }

  predicate CarriesRun(m: Object, runID: string) {
    runID != "" && AnyStringEquals(m, runID, ["runId", "run_id"])
  }

  predicate Matches(m: Object, sessionID: string, runID: string) {
    && m.fields != map[]
    && (|| CarriesRun(m, runID)
        || (sessionID != "" && AnySessionMatches(m, sessionID, ["sessionKey", "sessionId", "session_id"]))
        || (runID == "" && sessionID == ""))
  }

  /** The chat event in a frame, if the collector looks at it at all. */
  function EventOf(scope: Scope, frame: Frame): Option<ChatEvent> {
    if frame.Event? && !IsControl(frame) && frame.payload.Some? &&
       Matches(frame.payload.value, scope.sessionID, scope.runID)
    then Some(ChatEvent(frame.name, frame.payload.value))
    else None
  }

  // ---------- identifiers and times ----------

  function OwnSessionID(m: Object, cloud: string, keys: seq<string>): string {
    if keys == [] then ""
    else match Str(m, keys[0])
      case Some(t) =>
        var c := TrimSpace(t);
        if c != "" && !SessionIdentifierMatches(c, cloud) then c else OwnSessionID(m, cloud, keys[1..])
      case None => OwnSessionID(m, cloud, keys[1..])
  }

  function TranscriptSessionID(m: Object, cloud: string): string
    decreases m, 1
  {
    var own := OwnSessionID(m, cloud, ["sessionId", "session_id"]);
    if own != "" then own else NestedSessionID(m, cloud, ["session", "payload", "data"])
  }

  function NestedSessionID(m: Object, cloud: string, keys: seq<string>): string
    decreases m, 0, keys
  {
    if keys == [] then ""
    else match Obj(m, keys[0])
      case Some(nested) =>
        var c := TranscriptSessionID(nested, cloud);
        if c != "" then c else NestedSessionID(m, cloud, keys[1..])
      case None => NestedSessionID(m, cloud, keys[1..])
  }

  function TimestampMillis(libs: Libs, m: Object, key: string): int {
    if key !in m.fields then 0
    else match m.fields[key]
      case JNum(n) => Truncate(n)
      case JStr(t) =>
        if Blank(t) then 0
        else (match libs.parseTime(TrimSpace(t)) case Some(ms) => ms case None => 0)
      case _ => 0
  }

  /** The time of the user message an event carries; never negative. */
  function UserTimestamp(libs: Libs, m: Object): (ts: int)
    ensures ts >= 0
    decreases m, 1
  {
    var own :=
      match Obj(m, "message")
      case Some(message) =>
        if Word(FirstString(message, ["role"])) == "user" then TimestampMillis(libs, message, "timestamp") else 0
      case None => 0;
    if own > 0 then own else NestedUserTimestamp(libs, m, ["payload", "data", "session"])
  }

  function NestedUserTimestamp(libs: Libs, m: Object, keys: seq<string>): (ts: int)
    ensures ts >= 0
    decreases m, 0, keys
  {
    if keys == [] then 0
    else match Obj(m, keys[0])
      case Some(nested) =>
        var ts := UserTimestamp(libs, nested);
        if ts > 0 then ts else NestedUserTimestamp(libs, m, keys[1..])
      case None => NestedUserTimestamp(libs, m, keys[1..])
  }

  /** A message by the assistant, or by nobody named, strictly later than `floor`. */
  predicate NewerMessage(libs: Libs, m: Object, floor: int) {
    match Obj(m, "message")
    case Some(message) =>
      && Word(FirstString(message, ["role"])) in {"", "assistant"}
      && TimestampMillis(libs, message, "timestamp") > floor
    case None => false
  }

  predicate SnapshotBelongsToCurrentTurn(libs: Libs, m: Object, runID: string, floor: int) {
    CarriesRun(m, runID) || (floor > 0 && NewerMessage(libs, m, floor))
  }

  // ---------- text ----------

  datatype ChatText =
    | NoText
    | Delta(text: string)
    | Snapshot(text: string)

  /** What separates two markdown blocks. */
  function Gap(prev: string, block: string): string {
    (if HasSuffix(prev, "\n") then "" else "\n") +
    (if HasSuffix(prev, "\n\n") || "\n" <= block then "" else "\n")
  }

  function JoinBlocks(blocks: seq<string>): string {
    if blocks == [] then ""
    else if |blocks| == 1 then blocks[0]
    else blocks[0] + Gap(blocks[0], blocks[1]) + JoinBlocks(blocks[1..])
  }

  method JoinMarkdownBlocks(blocks: seq<string>) returns (text: string)
    ensures text == JoinBlocks(blocks)
  {
    text := "";
    for i := 0 to |blocks|
      invariant text == JoinBlocks(blocks[..i])
    {
      JoinStep(blocks, i);
      if i > 0 {
        var gap := Gap(blocks[i - 1], blocks[i]);
        text := text + gap;
      }
      text := text + blocks[i];
    }
    assert blocks[..|blocks|] == blocks;
  }

  /** Writing one more block appends the gap and the block. */
  lemma JoinStep(blocks: seq<string>, i: nat)
    requires i < |blocks|
    ensures JoinBlocks(blocks[..i + 1]) ==
      JoinBlocks(blocks[..i]) + (if i > 0 then Gap(blocks[i - 1], blocks[i]) else "") + blocks[i]
  {
    assert blocks[..i + 1] == blocks[..i] + [blocks[i]];
    if i > 0 {
      JoinAppend(blocks[..i], blocks[i]);
    } else {
      assert "" + "" + blocks[0] == blocks[0];
    }
  }

  lemma {:induction false} JoinAppend(blocks: seq<string>, block: string)
    requires blocks != []
    ensures JoinBlocks(blocks + [block]) == JoinBlocks(blocks) + Gap(blocks[|blocks| - 1], block) + block
  {
    var more := blocks + [block];
    if |blocks| == 1 {
      assert more[1..] == [block];
    } else {
      var rest, gap, last := JoinBlocks(blocks[1..]), Gap(blocks[0], blocks[1]), Gap(blocks[|blocks| - 1], block);
      assert more[1..] == blocks[1..] + [block];
      JoinAppend(blocks[1..], block);
      assert JoinBlocks(more[1..]) == rest + last + block;
      Regroup(blocks[0], gap, rest, last, block);
    }
  }

  lemma Regroup(a: string, b: string, c: string, d: string, e: string)
    ensures a + b + (c + d + e) == a + b + c + d + e
  {
  }

  function CodeFence(language: string, code: string): string {
    var body, lang := TrimNewlines(code), TrimSpace(language);
    if body == "" then "" else "```" + lang + "\n" + body + "\n```"
  }

  function BlockText(block: Object): string {
    var kind := Word(FirstString(block, ["type", "kind"]));
    if kind in {"", "text", "markdown", "md"} then DeepField(block, "text")
    else if kind in {"code", "input_code", "output_code"} then
      var code := FirstDeepString(block, ["code", "text", "value", "content"]);
      if Blank(code) then "" else CodeFence(FirstDeepString(block, ["language", "lang"]), code)
    else
      var text := DeepField(block, "text");
      if text != "" then text else DeepField(block, "value")
  }

  function MarkdownBlocks(v: JSON): string
    decreases v, 1
  {
    match v
    case JObj(fields) =>
      var inner := if "content" in fields then MarkdownBlocks(fields["content"]) else "";
      if inner != "" then inner else BlockText(v)
    case JArr(items) => JoinBlocks(NonBlankBlocks(items))
    case _ => ""
  }

  function NonBlankBlocks(items: seq<JSON>): seq<string>
    decreases items, 0
  {
    if items == [] then []
    else
      var block := MarkdownBlocks(items[0]);
      (if Blank(block) then [] else [block]) + NonBlankBlocks(items[1..])
  }

  function MarkdownField(m: Object, key: string): string {
    if key in m.fields then MarkdownBlocks(m.fields[key]) else ""
  }

  function TextField(m: Object, key: string): string {
    match Str(m, key) case Some(t) => t case None => ""
  }

  function AssistantMessageText(m: Object): string {
    match Obj(m, "message")
    case None => ""
    case Some(message) =>
      if Word(FirstString(message, ["role"])) !in {"", "assistant"} then ""
      else if MarkdownField(message, "content") != "" then MarkdownField(message, "content")
      else if TextField(message, "text") != "" then TextField(message, "text")
      else TextField(message, "value")
  }

  /** The text an event carries; a delta or snapshot is never the empty text. */
  function ExtractChatText(m: Object): (r: ChatText)
    ensures r.NoText? || r.text != ""
    decreases m, 1
  {
    var nested := NestedChatText(m, ["payload", "data"]);
    if !nested.NoText? then nested else OwnChatText(m)
  }

  /** The text it carries itself, rather than in something it wraps. */
  function OwnChatText(m: Object): (r: ChatText)
    ensures r.NoText? || r.text != ""
  {
    if TextField(m, "delta") != "" then Delta(TextField(m, "delta"))
    else
      var streamed := if Word(FirstString(m, ["stream"])) == "assistant" then StreamText(m) else NoText;
      if !streamed.NoText? then streamed
      else if AssistantMessageText(m) != "" then Snapshot(AssistantMessageText(m))
      else if MarkdownField(m, "content") != "" then Snapshot(MarkdownField(m, "content"))
      else if MarkdownField(m, "parts") != "" then Snapshot(MarkdownField(m, "parts"))
      else if TextField(m, "text") != "" then Snapshot(TextField(m, "text"))
      else NoText
  }

  function StreamText(m: Object): (r: ChatText)
    ensures r.NoText? || r.text != ""
  {
    if DeepField(m, "delta") != "" then Delta(DeepField(m, "delta"))
    else if DeepField(m, "text") != "" then Snapshot(DeepField(m, "text"))
    else if MarkdownField(m, "content") != "" then Snapshot(MarkdownField(m, "content"))
    else NoText
  }

  function NestedChatText(m: Object, keys: seq<string>): (r: ChatText)
    ensures r.NoText? || r.text != ""
    decreases m, 0, keys
  {
    if keys == [] then NoText
    else match Obj(m, keys[0])
      case Some(inner) =>
        var r := ExtractChatText(inner);
        if !r.NoText? then r else NestedChatText(m, keys[1..])
      case None => NestedChatText(m, keys[1..])
  }

  // ---------- the end of a turn ----------

  const TERMINAL_STATUS := {"done", "completed", "complete", "ok", "final", "stopped", "aborted", "cancelled",
                            "canceled", "error", "failed"}

  function LifecycleAction(m: Object): string {
    if Word(FirstString(m, ["stream"])) == "lifecycle" then Word(FirstString(m, ["event", "action"])) else ""
  }

  predicate IsTerminal(ev: ChatEvent) {
    var lifecycleOver := LifecycleAction(ev.payload) in {"end", "error"};
    if Word(ev.name) == "agent" then lifecycleOver
    else
      || ToLower(FirstString(ev.payload, ["status", "phase", "state"])) in TERMINAL_STATUS
      || lifecycleOver
      || Flagged(ev.payload, "isFinal")
      || Flagged(ev.payload, "isEnd")
  }

  function FinishReason(m: Object): (r: Reason)
    ensures r != NoReason
  {
    var action := LifecycleAction(m);
    var status := ToLower(FirstString(m, ["status", "phase", "state", "finishReason", "finish_reason"]));
    if action == "error" then Error
    else if action == "end" then Stop
    else if status in {"error", "failed"} then Error
    else if status in {"aborted", "cancelled", "canceled", "stopped"} then Cancelled
    else if status == "length" then Length
    else Stop
  }
}
