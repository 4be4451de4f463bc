/** What the reply read from a log is made of, entry by entry. */
module TranscriptEntries {
  import opened GoText
  import opened Json
  import opened Attachments
  import opened ChatEvents
  import opened Transcript
  import opened TranscriptPoller

  // ---------- time and completeness ----------

  lemma {:induction false} LastWordIs(turn: seq<Mark>, i: nat)
    requires i < |turn| && turn[i].Assistant? && forall j :: i < j < |turn| ==> !turn[j].Assistant?
    ensures LastWord(turn) == Closing(turn[i].timestamp, turn[i].stopReason)
  {
    if i < |turn| - 1 {
      LastWordIs(turn[..|turn| - 1], i);
    }
  }

  lemma {:induction false} NoLastWord(turn: seq<Mark>)
    requires forall j :: 0 <= j < |turn| ==> !turn[j].Assistant?
    ensures LastWord(turn) == Closing(0, "")
  {
    if turn != [] {
      NoLastWord(turn[..|turn| - 1]);
    }
  }

  /** The turn's last assistant entry alone gives the time of the reply, and whether it is complete: it is dated, and
      does not stop for a tool. */
  lemma LastEntryCounts(marks: seq<Mark>, turn: seq<Mark>, i: nat)
    requires LastTurn(marks) == Some(turn) && i < |turn|
    requires turn[i].Assistant? && forall j :: i < j < |turn| ==> !turn[j].Assistant?
    ensures LastTurnReply(marks).timestamp == turn[i].timestamp
    ensures LastTurnReply(marks).complete <==>
      turn[i].timestamp > 0 && turn[i].stopReason != "tooluse" && turn[i].stopReason != "tool_use"
  {
    LastWordIs(turn, i);
  }

  /** Without an assistant entry after the user's, or without a user entry, there is no reply at all. */
  lemma NoEntryNoReply(marks: seq<Mark>)
    requires LastTurn(marks).Some? ==>
      forall j :: 0 <= j < |LastTurn(marks).value| ==> !LastTurn(marks).value[j].Assistant?
    ensures var r := LastTurnReply(marks); r.text == "" && r.timestamp == 0 && !r.complete
  {
    if LastTurn(marks).Some? {
      NoLastWord(LastTurn(marks).value);
      NoTexts(LastTurn(marks).value);
    }
  }

  lemma {:induction false} NoTexts(turn: seq<Mark>)
    requires forall j :: 0 <= j < |turn| ==> !turn[j].Assistant?
    ensures TextsOf(turn) == []
  {
    if turn != [] {
      NoTexts(turn[..|turn| - 1]);
    }
  }

  // ---------- text ----------

  /** The assistant's texts in order: those of the first part, and then those of the rest. */
  lemma {:induction false} TextsAppend(a: seq<Mark>, b: seq<Mark>)
    ensures TextsOf(a + b) == TextsOf(a) + TextsOf(b)
  {
    if b == [] {
      assert a + b == a;
    } else {
      var less, last := b[..|b| - 1], b[|b| - 1];
      assert (a + b)[..|a + b| - 1] == a + less && (a + b)[|a + b| - 1] == last;
      TextsAppend(a, less);
      var more := if last.Assistant? && last.text != "" then [last.text] else [];
      assert TextsOf(a) + TextsOf(less) + more == TextsOf(a) + (TextsOf(less) + more);
    }
  }

  lemma OneText(m: Mark)
    ensures TextsOf([m]) == if m.Assistant? && m.text != "" then [m.text] else []
  {
    assert [m][..0] == [];
  }

  /** A text with blank lines between it and what comes before and after. */
  function SetOff(before: seq<string>, text: string, after: seq<string>): string {
    (if before == [] then "" else Join(before, "\n\n") + "\n\n") + text +
    (if after == [] then "" else "\n\n" + Join(after, "\n\n"))
  }

  lemma JoinAround(before: seq<string>, text: string, after: seq<string>)
    ensures Join(before + [text] + after, "\n\n") == SetOff(before, text, after)
  {
    assert before + [text] + after == before + ([text] + after);
    JoinSplit(before, [text] + after);
    JoinSplit([text], after);
    assert text + "" == text;
    var left, right := Join(before, "\n\n") + "\n\n", if after == [] then "" else "\n\n" + Join(after, "\n\n");
    assert "" + text + right == text + right;
    assert left + (text + right) == left + text + right;
  }

  /** Every assistant entry of the last turn contributes its text, at its place, set off by blank lines. */
  lemma EveryTextCounts(marks: seq<Mark>, a: seq<Mark>, m: Mark, b: seq<Mark>)
    requires LastTurn(marks) == Some(a + [m] + b) && m.Assistant? && m.text != ""
    ensures LastTurnReply(marks).text == SetOff(TextsOf(a), m.text, TextsOf(b))
  {
    TextsAppend(a + [m], b);
    TextsAppend(a, [m]);
    OneText(m);
    JoinAround(TextsOf(a), m.text, TextsOf(b));
  }

  lemma {:induction false} JoinSplit(a: seq<string>, b: seq<string>)
    ensures Join(a + b, "\n\n") ==
      if a == [] then Join(b, "\n\n")
      else if b == [] then Join(a, "\n\n")
      else Join(a, "\n\n") + "\n\n" + Join(b, "\n\n")
  {
    if a == [] {
      assert a + b == b;
    } else if b == [] {
      assert a + b == a;
    } else {
      assert (a + b)[1..] == a[1..] + b;
      JoinSplit(a[1..], b);
      if |a| > 1 {
        var x, y, z := a[0] + "\n\n", Join(a[1..], "\n\n"), "\n\n" + Join(b, "\n\n");
        assert x + (y + "\n\n" + Join(b, "\n\n")) == x + y + "\n\n" + Join(b, "\n\n");
      }
    }
  }

  // ---------- attachments ----------

  ghost predicate FoundByTool(turn: seq<Mark>, a: Attachment) {
    exists i :: 0 <= i < |turn| && turn[i].Tool? && a in turn[i].found
  }

  ghost predicate FoundInSpeech(turn: seq<Mark>, a: Attachment) {
    exists i :: 0 <= i < |turn| && turn[i].Assistant? && a in turn[i].found
  }

  lemma {:induction false} FoundIs(turn: seq<Mark>, a: Attachment)
    ensures a in ToolsOf(turn) <==> FoundByTool(turn, a)
    ensures a in SpokenOf(turn) <==> FoundInSpeech(turn, a)
  {
    if turn != [] {
      var less, last := turn[..|turn| - 1], turn[|turn| - 1];
      FoundIs(less, a);
      assert turn == less + [last];
      if FoundByTool(turn, a) && !FoundByTool(less, a) {
        assert last.Tool? && a in last.found;
      }
      if FoundInSpeech(turn, a) && !FoundInSpeech(less, a) {
        assert last.Assistant? && a in last.found;
      }
    }
  }

  /** If a tool of the last turn found a local file, the reply has what the tools found and nothing else; otherwise
      it also has what the assistant's texts refer to. */
  lemma ToolsAloneIfLocal(libs: Libs, log: seq<Line>, turn: seq<Mark>, a: Attachment)
    requires LastTurn(Marks(libs, log)) == Some(turn)
    ensures a in LastTurnReply(Marks(libs, log)).attachments <==>
      || FoundByTool(turn, a)
      || (FoundInSpeech(turn, a) && forall b :: FoundByTool(turn, b) ==> Blank(b.localPath))
  {
    MarksFromRefs(libs, log);
    LastTurnIsSuffix(Marks(libs, log));
    assert AllFromRefsMarks(libs, turn);
    FoundFromRefs(libs, turn);
    DedupKeepsEveryItem(libs, ToolsOf(turn));
    DedupKeepsEveryItem(libs, ToolsOf(turn) + SpokenOf(turn));
    FoundIs(turn, a);
    assert HasLocal(Dedup(ToolsOf(turn))) <==> exists b :: FoundByTool(turn, b) && !Blank(b.localPath) by {
      forall b ensures b in Dedup(ToolsOf(turn)) <==> FoundByTool(turn, b) {
        FoundIs(turn, b);
      }
    }
  }

  // ---------- one entry ----------

  /** The line is an entry of type "message" with a message by that role. */
  predicate SpokenBy(line: Line, role: string) {
    && line.Entry? && Word(FirstString(line.value, ["type"])) == "message"
    && Obj(line.value, "message").Some?
    && Word(FirstString(Obj(line.value, "message").value, ["role"])) == role
  }

  /** The roles that count, and no others. */
  lemma RolesAreRead(libs: Libs, line: Line)
    ensures MarkOf(libs, line).User? <==> SpokenBy(line, "user")
    ensures MarkOf(libs, line).Assistant? <==> SpokenBy(line, "assistant")
    ensures MarkOf(libs, line).Tool? <==> SpokenBy(line, "toolresult")
  {
  }

  /** An assistant entry is dated by its message if that has a time, and otherwise by the entry around it. */
  lemma EntryIsDated(libs: Libs, line: Line)
    requires SpokenBy(line, "assistant")
    ensures var own, outer := TimestampMillis(libs, Obj(line.value, "message").value, "timestamp"),
                              TimestampMillis(libs, line.value, "timestamp");
      && (own > 0 ==> MarkOf(libs, line).timestamp == own)
      && (own <= 0 < outer ==> MarkOf(libs, line).timestamp == outer)
      && (own <= 0 && outer <= 0 ==> MarkOf(libs, line).timestamp == 0)
  {
  }

  /** An assistant entry says what its content says, newlines around it not counted, or else its first text that is not
      blank; its attachments are what it and that text refer to. */
  lemma EntrySays(libs: Libs, line: Line)
    requires SpokenBy(line, "assistant")
    ensures var m, message := MarkOf(libs, line), Obj(line.value, "message").value;
      var content := TrimNewlines(MarkdownField(message, "content"));
      && m.found == Extract(libs, message, m.text)
      && (content != "" ==> m.text == content)
      && (content == "" && !Blank(DeepField(message, "text")) ==> m.text == TrimNewlines(DeepField(message, "text")))
      && (content == "" && Blank(DeepField(message, "text")) && !Blank(DeepField(message, "value")) ==>
          m.text == TrimNewlines(DeepField(message, "value")))
      && (content == "" && Blank(DeepField(message, "text")) && Blank(DeepField(message, "value")) ==> m.text == "")
  {
    FirstOfTwo(Obj(line.value, "message").value, "text", "value");
    TrimFixed("", IsNewline);
  }

  lemma FirstOfTwo(m: Object, a: string, b: string)
    ensures FirstDeepString(m, [a, b]) ==
      if !Blank(DeepField(m, a)) then DeepField(m, a) else if !Blank(DeepField(m, b)) then DeepField(m, b) else ""
  {
    var keys := [a, b];
    assert keys[1..] == [b] && keys[1..][1..] == [];
    assert FirstDeepString(m, []) == "";
    assert FirstDeepString(m, keys[1..]) == if !Blank(DeepField(m, b)) then DeepField(m, b) else "";
  }

  /** What a tool found: what its message refers to, its details, and the media among these. */
  lemma ToolFinds(libs: Libs, line: Line, a: Attachment)
    requires SpokenBy(line, "toolresult")
    ensures a in MarkOf(libs, line).found <==> var message := Obj(line.value, "message").value;
      || a in Extract(libs, message, "")
      || (Obj(message, "details").Some? && (
            || a in Extract(libs, Obj(message, "details").value, "")
            || (Obj(Obj(message, "details").value, "media").Some? &&
                a in Extract(libs, Obj(Obj(message, "details").value, "media").value, ""))))
  {
    var message := Obj(line.value, "message").value;
    var details := match Obj(message, "details")
      case None => []
      case Some(d) =>
        Extract(libs, d, "") + (match Obj(d, "media") case None => [] case Some(m) => Extract(libs, m, ""));
    ExtractFromRefs(libs, libs.refsIn(message, ""));
    if Obj(message, "details").Some? {
      var d := Obj(message, "details").value;
      ExtractFromRefs(libs, libs.refsIn(d, ""));
      if Obj(d, "media").Some? { ExtractFromRefs(libs, libs.refsIn(Obj(d, "media").value, "")); }
    }
    DedupKeepsEveryItem(libs, details + Extract(libs, message, ""));
  }
}
