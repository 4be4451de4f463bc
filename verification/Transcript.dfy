/** Reading the assistant's reply back from the gateway's session log. */
module Transcript {
  import opened GoText
  import opened Json
  import opened Attachments
  import opened ChatEvents

  /** A line of the log: blank, torn and undecodable lines are alike. */
  datatype Line = Unreadable | Entry(value: Object)

  /** What a line means to the reader. */
  datatype Mark =
    | Ignored
    | User
    | Assistant(text: string, found: seq<Attachment>, timestamp: int, stopReason: string)
    | Tool(found: seq<Attachment>)

  datatype Reading = Reading(text: string, attachments: seq<Attachment>, timestamp: int, complete: bool)

  // ---------- one line ----------

  function EntryTimestamp(libs: Libs, entry: Object, message: Object): int {
    if TimestampMillis(libs, message, "timestamp") > 0 then TimestampMillis(libs, message, "timestamp")
    else if TimestampMillis(libs, entry, "timestamp") > 0 then TimestampMillis(libs, entry, "timestamp")
    else 0
  }

  function AssistantText(message: Object): string {
    var text := TrimNewlines(MarkdownField(message, "content"));
    if text != "" then text else TrimNewlines(FirstDeepString(message, ["text", "value"]))
  }

  function ToolAttachments(libs: Libs, message: Object): seq<Attachment> {
    var details := match Obj(message, "details")
      case None => []
      case Some(d) =>
        Extract(libs, d, "") + (match Obj(d, "media") case None => [] case Some(m) => Extract(libs, m, ""));
    Dedup(details + Extract(libs, message, ""))
  }

  function MarkOf(libs: Libs, line: Line): Mark {
    if line.Unreadable? || Word(FirstString(line.value, ["type"])) != "message" then Ignored
    else match Obj(line.value, "message")
      case None => Ignored
      case Some(message) =>
        var role := Word(FirstString(message, ["role"]));
        if role == "user" then User
        else if role == "assistant" then
          Assistant(AssistantText(message), Extract(libs, message, AssistantText(message)),
                    EntryTimestamp(libs, line.value, message),
                    Word(FirstString(message, ["stopReason", "stop_reason"])))
        else if role == "toolresult" then Tool(ToolAttachments(libs, message))
        else Ignored
  }

  function Marks(libs: Libs, log: seq<Line>): seq<Mark> {
    seq(|log|, i requires 0 <= i < |log| => MarkOf(libs, log[i]))
  }

  // ---------- the last turn ----------

  /** The marks after the last user entry, if there is one. */
  function LastTurn(marks: seq<Mark>): Option<seq<Mark>> {
    if marks == [] then None
    else
      var m := marks[|marks| - 1];
      if m.User? then Some([])
      else match LastTurn(marks[..|marks| - 1]) case None => None case Some(turn) => Some(turn + [m])
  }

  ghost predicate NoUser(marks: seq<Mark>) {
    forall i :: 0 <= i < |marks| ==> !marks[i].User?
  }

  lemma {:induction false} LastTurnIsSuffix(marks: seq<Mark>)
    ensures LastTurn(marks).None? ==> NoUser(marks)
    ensures LastTurn(marks).Some? ==>
      var turn := LastTurn(marks).value;
      |turn| < |marks| && NoUser(turn) && marks[|marks| - |turn| - 1].User? && marks[|marks| - |turn|..] == turn
  {
    if marks != [] && !marks[|marks| - 1].User? {
      var less := marks[..|marks| - 1];
      LastTurnIsSuffix(less);
      assert marks == less + [marks[|marks| - 1]];
    }
  }

  function TextsOf(turn: seq<Mark>): seq<string> {
    if turn == [] then []
    else
      var m := turn[|turn| - 1];
      TextsOf(turn[..|turn| - 1]) + (if m.Assistant? && m.text != "" then [m.text] else [])
  }

  function SpokenOf(turn: seq<Mark>): seq<Attachment> {
    if turn == [] then []
    else
      var m := turn[|turn| - 1];
      SpokenOf(turn[..|turn| - 1]) + (if m.Assistant? then m.found else [])
  }

  function ToolsOf(turn: seq<Mark>): seq<Attachment> {
    if turn == [] then []
    else
      var m := turn[|turn| - 1];
      ToolsOf(turn[..|turn| - 1]) + (if m.Tool? then m.found else [])
  }

  datatype Closing = Closing(timestamp: int, stopReason: string)

  /** Time and stop reason of the last assistant entry of the turn. */
  function LastWord(turn: seq<Mark>): Closing {
    if turn == [] then Closing(0, "")
    else match turn[|turn| - 1]
      case Assistant(_, _, ts, stop) => Closing(ts, stop)
      case _ => LastWord(turn[..|turn| - 1])
  }

  predicate HasLocal(items: seq<Attachment>) {
    exists a | a in items :: !Blank(a.localPath)
  }

  /** The reply recorded for the last turn of a log: the assistant's texts after the last user entry, one blank
      line between them; time and completeness of the last assistant entry; and the tools' attachments alone
      if one of them is a local file. */
  function LastTurnReply(marks: seq<Mark>): Reading {
    match LastTurn(marks) case None => Reading("", [], 0, false) case Some(turn) => TurnReply(turn)
  }

  function TurnReply(turn: seq<Mark>): Reading {
    var tools, last := Dedup(ToolsOf(turn)), LastWord(turn);
    Reading(
      Join(TextsOf(turn), "\n\n"),
      if HasLocal(tools) then tools else Dedup(ToolsOf(turn) + SpokenOf(turn)),
      last.timestamp,
      last.timestamp > 0 && last.stopReason !in {"tooluse", "tool_use"})
  }

  // ---------- the reader ----------

  /** The reader's variables. */
  datatype Notes = Notes(
    started: bool, texts: seq<string>, spoken: seq<Attachment>, tools: seq<Attachment>,
    timestamp: int, stopReason: string)

  /** What they hold once the marks have been read. */
  ghost function NotesOf(marks: seq<Mark>): Notes {
    match LastTurn(marks) case None => Notes(false, [], [], [], 0, "") case Some(turn) => TurnNotes(turn)
  }

  ghost function TurnNotes(turn: seq<Mark>): Notes {
    Notes(true, TextsOf(turn), Dedup(SpokenOf(turn)), Dedup(ToolsOf(turn)),
          LastWord(turn).timestamp, LastWord(turn).stopReason)
  }

  /** One pass over the log, starting over at every user entry. */
  method ReadTranscriptAssistantReply(libs: Libs, log: seq<Line>) returns (r: Reading)
    ensures r == LastTurnReply(Marks(libs, log))
  {
    var texts: seq<string> := [];
    var spoken: seq<Attachment> := [];
    var tools: seq<Attachment> := [];
    var timestamp := 0;
    var stopReason := "";
    var started := false;
    ghost var marks := Marks(libs, log);
    for i := 0 to |log|
      invariant Notes(started, texts, spoken, tools, timestamp, stopReason) == NotesOf(marks[..i])
    {
      assert marks[..i + 1] == marks[..i] + [marks[i]];
      NotesStep(marks[..i], marks[i]);
      match MarkOf(libs, log[i]) {
        case Ignored =>
        case User =>
          started, texts, spoken, tools, timestamp, stopReason := true, [], [], [], 0, "";
        case Assistant(text, found, ts, stop) =>
          if started {
            if text != "" {
              texts := texts + [text];
            }
            spoken := Dedup(spoken + found);
            timestamp, stopReason := ts, stop;
          }
        case Tool(found) =>
          if started {
            tools := Dedup(tools + found);
          }
      }
    }
    assert marks[..|log|] == marks;
    var text := JoinMarkdownBlocks(texts);
    var preferred := PreferredAttachments(tools, spoken);
    r := Reading(text, preferred, timestamp, timestamp > 0 && stopReason !in {"tooluse", "tool_use"});
    MarksAreTight(libs, log);
    NotesGiveReply(marks);
  }

  method PreferredAttachments(tools: seq<Attachment>, spoken: seq<Attachment>) returns (r: seq<Attachment>)
    ensures r == Preferred(tools, spoken)
  {
    var t := Deduplicate(tools);
    var s := Deduplicate(spoken);
    if HasLocal(t) {
      return t;
    }
    r := Deduplicate(t + s);
    DedupIncremental(tools, s);
    DedupOfDedups(tools, spoken);
  }

  function Preferred(tools: seq<Attachment>, spoken: seq<Attachment>): seq<Attachment> {
    if HasLocal(Dedup(tools)) then Dedup(tools) else Dedup(tools + spoken)
  }

  /** How one more mark changes what is noted. */
  function Noted(was: Notes, m: Mark): Notes {
    match m
    case Ignored => was
    case User => Notes(true, [], [], [], 0, "")
    case Assistant(text, found, ts, stop) =>
      if !was.started then was
      else was.(texts := if text != "" then was.texts + [text] else was.texts,
                spoken := Dedup(was.spoken + found), timestamp := ts, stopReason := stop)
    case Tool(found) => if !was.started then was else was.(tools := Dedup(was.tools + found))
  }

  lemma NotesStep(marks: seq<Mark>, m: Mark)
    ensures NotesOf(marks + [m]) == Noted(NotesOf(marks), m)
  {
    LastTurnStep(marks, m);
    if !m.User? && LastTurn(marks).Some? {
      TurnNotesStep(LastTurn(marks).value, m);
    }
  }

  lemma LastTurnStep(marks: seq<Mark>, m: Mark)
    ensures LastTurn(marks + [m]) ==
      if m.User? then Some([])
      else match LastTurn(marks) case None => None case Some(turn) => Some(turn + [m])
  {
    assert (marks + [m])[..|marks|] == marks;
  }

  lemma TurnNotesStep(turn: seq<Mark>, m: Mark)
    requires !m.User?
    ensures TurnNotes(turn + [m]) == Noted(TurnNotes(turn), m)
  {
    assert (turn + [m])[..|turn|] == turn;
    assert TextsOf(turn) + [] == TextsOf(turn);
    assert SpokenOf(turn) + [] == SpokenOf(turn);
    assert ToolsOf(turn) + [] == ToolsOf(turn);
    match m {
      case Assistant(_, found, _, _) => DedupIncremental(SpokenOf(turn), found);
      case Tool(found) => DedupIncremental(ToolsOf(turn), found);
      case Ignored =>
    }
  }

  lemma NotesGiveReply(marks: seq<Mark>)
    requires AllTightMarks(marks)
    ensures var n := NotesOf(marks);
      LastTurnReply(marks) ==
        Reading(JoinBlocks(n.texts), Preferred(n.tools, n.spoken), n.timestamp,
                n.timestamp > 0 && n.stopReason !in {"tooluse", "tool_use"})
  {
    if LastTurn(marks).None? {
      assert Preferred([], []) == [];
    } else {
      var turn := LastTurn(marks).value;
      LastTurnIsSuffix(marks);
      TextsAreTight(turn);
      JoinTight(TextsOf(turn));
      PreferredOfTurn(turn);
    }
  }

  lemma PreferredOfTurn(turn: seq<Mark>)
    ensures Preferred(Dedup(ToolsOf(turn)), Dedup(SpokenOf(turn))) ==
      if HasLocal(Dedup(ToolsOf(turn))) then Dedup(ToolsOf(turn)) else Dedup(ToolsOf(turn) + SpokenOf(turn))
  {
    DedupIdempotent({}, ToolsOf(turn));
    DedupIncremental(ToolsOf(turn), Dedup(SpokenOf(turn)));
    DedupOfDedups(ToolsOf(turn), SpokenOf(turn));
  }

  ghost predicate TightBlock(text: string) { text != "" && Tight(text, IsNewline) }

  ghost predicate TightMark(m: Mark) { m.Assistant? ==> Tight(m.text, IsNewline) }

  ghost predicate AllTight(blocks: seq<string>) {
    forall i :: 0 <= i < |blocks| ==> TightBlock(blocks[i])
  }

  ghost predicate AllTightMarks(marks: seq<Mark>) {
    forall i :: 0 <= i < |marks| ==> TightMark(marks[i])
  }

  lemma MarksAreTight(libs: Libs, log: seq<Line>)
    ensures AllTightMarks(Marks(libs, log))
  {
    forall i | 0 <= i < |log| ensures TightMark(Marks(libs, log)[i]) {
      AssistantTextTight(libs, log[i]);
    }
  }

  lemma {:induction false} TextsAreTight(turn: seq<Mark>)
    requires AllTightMarks(turn)
    ensures AllTight(TextsOf(turn))
  {
    if turn != [] {
      TextsAreTight(turn[..|turn| - 1]);
      assert TightMark(turn[|turn| - 1]);
    }
  }

  lemma AssistantTextTight(libs: Libs, line: Line)
    ensures TightMark(MarkOf(libs, line))
  {
    if line.Entry? && Obj(line.value, "message").Some? {
      var message := Obj(line.value, "message").value;
      TrimIsTight(MarkdownField(message, "content"), IsNewline);
      TrimIsTight(FirstDeepString(message, ["text", "value"]), IsNewline);
    }
  }

  lemma GapOfTight(prev: string, block: string)
    requires TightBlock(prev) && TightBlock(block)
    ensures Gap(prev, block) == "\n\n"
  {
    assert "\n" + "\n" == "\n\n";
  }

  /** Between blocks that neither begin nor end with a newline there is exactly one blank line. */
  lemma {:induction false} JoinTight(blocks: seq<string>)
    requires AllTight(blocks)
    ensures JoinBlocks(blocks) == Join(blocks, "\n\n")
  {
    if |blocks| > 1 {
      assert TightBlock(blocks[0]) && TightBlock(blocks[1]);
      GapOfTight(blocks[0], blocks[1]);
      JoinTight(blocks[1..]);
    }
  }
}
