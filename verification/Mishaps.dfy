/** Inputs, as they come in from outside, on which something unexpected happens. */
module Mishaps {
  import opened GoText
  import opened Json
  import opened Attachments
  import opened Protocol
  import opened ReplyText
  import opened ChatEvents
  import opened Collector
  import opened CollectorRuns
  import opened TurnEnd
  import opened Transcript
  import opened TranscriptPoller
  import opened TranscriptRecovery
  import EnvFile

  // ---------- reading constant texts ----------

  lemma PlainWord(s: string)
    requires Tight(s, IsSpace) && forall c :: c in s ==> LowerChar(c) == c
    ensures Word(s) == s && TrimSpace(s) == s
    ensures s != "" ==> !Blank(s)
  {
    TrimFixed(s, IsSpace);
    PlainLower(s);
  }

  lemma {:induction false} PlainLower(s: string)
    requires forall c :: c in s ==> LowerChar(c) == c
    ensures ToLower(s) == s
  {
    if s != "" {
      PlainLower(s[1..]);
    }
  }

  lemma {:induction false} NoString(m: Object, keys: seq<string>)
    requires forall k :: k in keys ==> k !in m.fields
    ensures FirstString(m, keys) == ""
  {
    if keys != [] {
      NoString(m, keys[1..]);
    }
  }

  lemma {:induction false} NoDeepString(m: Object, keys: seq<string>)
    requires forall k :: k in keys ==> k !in m.fields
    ensures FirstDeepString(m, keys) == ""
  {
    if keys != [] {
      BlankChars("");
      NoDeepString(m, keys[1..]);
    }
  }

  lemma OneString(m: Object, keys: seq<string>, t: string)
    requires keys != [] && keys[0] in m.fields && m.fields[keys[0]] == JStr(t) && !Blank(t)
    ensures FirstString(m, keys) == t
  {
  }

  // ---------- a log ----------

  const EARLY: Float := Binary(1, 0)
  const LATE: Float := Binary(3, 0)

  const USER_MESSAGE: Object := JObj(map["role" := JStr("user")])
  const HI: Object := JObj(map["role" := JStr("assistant"), "text" := JStr("hi"), "stopReason" := JStr("tooluse"),
                               "timestamp" := JNum(EARLY)])
  const SILENCE: Object := JObj(map["role" := JStr("assistant"), "timestamp" := JNum(LATE)])

  function Message(m: Object): Line { Entry(JObj(map["type" := JStr("message"), "message" := m])) }

  const ASKED := [Message(USER_MESSAGE), Message(HI)]
  const ASKED_AGAIN := ASKED + [Message(USER_MESSAGE), Message(SILENCE)]

  function RoleOf(m: Object): string { Word(FirstString(m, ["role"])) }

  lemma PlainField(m: Object, key: string, t: string)
    requires key in m.fields && m.fields[key] == JStr(t)
    requires t != "" && Tight(t, IsSpace) && forall c :: c in t ==> LowerChar(c) == c
    ensures Word(FirstString(m, [key])) == t
  {
    PlainWord(t);
    OneString(m, [key], t);
  }

  lemma MessageType(m: Object)
    ensures Word(FirstString(Message(m).value, ["type"])) == "message" && Obj(Message(m).value, "message") == Some(m)
  {
    PlainField(Message(m).value, "type", "message");
  }

  lemma UserIsRead(libs: Libs)
    ensures MarkOf(libs, Message(USER_MESSAGE)) == User
  {
    MessageType(USER_MESSAGE);
    PlainField(USER_MESSAGE, "role", "user");
  }

  lemma AssistantIsRead(libs: Libs, m: Object, text: string, ts: int, stop: string)
    requires RoleOf(m) == "assistant" && AssistantText(m) == text
    requires EntryTimestamp(libs, Message(m).value, m) == ts
    requires Word(FirstString(m, ["stopReason", "stop_reason"])) == stop
    ensures MarkOf(libs, Message(m)) == Assistant(text, Extract(libs, m, text), ts, stop)
  {
    MessageType(m);
    assert "assistant" != "user";
  }

  lemma RoleIsAssistant(m: Object)
    requires "role" in m.fields && m.fields["role"] == JStr("assistant")
    ensures RoleOf(m) == "assistant"
  {
    PlainField(m, "role", "assistant");
  }

  lemma HiText()
    ensures AssistantText(HI) == "hi"
  {
    PlainWord("hi");
    assert MarkdownField(HI, "content") == "";
    TrimFixed("", IsNewline);
    TrimFixed("hi", IsNewline);
    assert DeepField(HI, "text") == "hi";
  }

  lemma SilenceText()
    ensures AssistantText(SILENCE) == ""
  {
    assert MarkdownField(SILENCE, "content") == "";
    TrimFixed("", IsNewline);
    NoDeepString(SILENCE, ["text", "value"]);
  }

  lemma Timestamps(libs: Libs)
    ensures EntryTimestamp(libs, Message(HI).value, HI) == 1
    ensures EntryTimestamp(libs, Message(SILENCE).value, SILENCE) == 3
  {
    assert PowerOfTwo(0) == 1;
  }

  lemma StopReasons()
    ensures Word(FirstString(HI, ["stopReason", "stop_reason"])) == "tooluse"
    ensures Word(FirstString(SILENCE, ["stopReason", "stop_reason"])) == ""
  {
    PlainWord("tooluse");
    OneString(HI, ["stopReason", "stop_reason"], "tooluse");
    PlainWord("");
    NoString(SILENCE, ["stopReason", "stop_reason"]);
  }

  lemma HiIsRead(libs: Libs)
    ensures MarkOf(libs, Message(HI)) == Assistant("hi", Extract(libs, HI, "hi"), 1, "tooluse")
  {
    RoleIsAssistant(HI);
    HiText();
    Timestamps(libs);
    StopReasons();
    AssistantIsRead(libs, HI, "hi", 1, "tooluse");
  }

  lemma SilenceIsRead(libs: Libs)
    ensures MarkOf(libs, Message(SILENCE)) == Assistant("", Extract(libs, SILENCE, ""), 3, "")
  {
    RoleIsAssistant(SILENCE);
    SilenceText();
    Timestamps(libs);
    StopReasons();
    AssistantIsRead(libs, SILENCE, "", 3, "");
  }

  lemma TwoMarks(libs: Libs, a: Line, b: Line, m: Mark, n: Mark)
    requires MarkOf(libs, a) == m && MarkOf(libs, b) == n
    ensures Marks(libs, [a, b]) == [m, n]
  {
  }

  /** A last turn of one assistant entry. */
  lemma OneEntry(before: seq<Mark>, text: string, found: seq<Attachment>, ts: int, stop: string)
    ensures var r := LastTurnReply(before + [User, Assistant(text, found, ts, stop)]);
      r.text == text && r.timestamp == ts && r.complete == (ts > 0 && stop !in {"tooluse", "tool_use"})
  {
    var m := Assistant(text, found, ts, stop);
    assert before + [User, m] == before + [User] + [m];
    LastTurnStep(before, User);
    LastTurnStep(before + [User], m);
    assert [] + [m] == [m] && [m][..0] == [];
    assert TextsOf([m]) == if text != "" then [text] else [];
  }

  lemma AskedReading(libs: Libs)
    ensures var r := Read(libs, ASKED); r.text == "hi" && r.timestamp == 1 && !r.complete
  {
    UserIsRead(libs);
    HiIsRead(libs);
    var m := Assistant("hi", Extract(libs, HI, "hi"), 1, "tooluse");
    TwoMarks(libs, Message(USER_MESSAGE), Message(HI), User, m);
    OneEntry([], "hi", Extract(libs, HI, "hi"), 1, "tooluse");
    assert [] + [User, m] == [User, m];
  }

  lemma AskedAgainReading(libs: Libs)
    ensures var r := Read(libs, ASKED_AGAIN); r.text == "" && r.timestamp == 3 && r.complete
  {
    UserIsRead(libs);
    SilenceIsRead(libs);
    var m := Assistant("", Extract(libs, SILENCE, ""), 3, "");
    TwoMarks(libs, Message(USER_MESSAGE), Message(SILENCE), User, m);
    MarksSplit(libs, ASKED, [Message(USER_MESSAGE), Message(SILENCE)]);
    OneEntry(Marks(libs, ASKED), "", Extract(libs, SILENCE, ""), 3, "");
    assert "" !in {"tooluse", "tool_use"};
  }

  /** The log of the first read has a reply that is not complete; before the next read the user speaks again, and the
      new turn's reply is complete but has no text. The wait ends with nothing, though a reply had been read. */
  lemma ReadingMayBeLost(libs: Libs)
    ensures var logs: Logs := i => Some(if i == 0 then ASKED else ASKED_AGAIN);
      var w := Wait(i => Some(Read(libs, if i == 0 then ASKED else ASKED_AGAIN)), i => 100 * i, i => false, 1000, 0);
      && Polls(libs, w, logs) && ASKED <= ASKED_AGAIN
      && w.Acceptable(Read(libs, ASKED)) && !w.Over(0) && w.Over(1)
      && w.Outcome(1).Recovered? && w.Outcome(1).text == ""
  {
    AskedReading(libs);
    AskedAgainReading(libs);
    PlainWord("hi");
    BlankChars("");
    var w := Wait(i => Some(Read(libs, if i == 0 then ASKED else ASKED_AGAIN)), i => 100 * i, i => false, 1000, 0);
    assert w.Best(1) == w.read(0);
    assert w.Best(2) == w.Best(1);
  }

  // ---------- a turn ----------

  const NO_MEDIA := Libs(t => None, u => false, r => "", r => "", (m, t) => [], (t, a) => t)
  const ANY := Scope("", "", "m")
  const DELTA: Object := JObj(map["delta" := JStr("ab")])
  const END: Object := JObj(map["isFinal" := JBool(true), "sessionId" := JStr("s")])
  const TURN := [Event("chat", Some(DELTA)), Event("chat", Some(END))]
  const ELSEWHERE := World((id, floor) => Recovered("xy", []), item => Exchange.Refused(""))

  lemma NoObjects(m: Object, keys: seq<string>)
    requires forall k :: k in keys ==> Obj(m, k).None?
    ensures NestedChatText(m, keys) == NoText && NestedSessionID(m, "", keys) == ""
    ensures NestedUserTimestamp(NO_MEDIA, m, keys) == 0
  {
    if keys != [] {
      NoObjects(m, keys[1..]);
    }
  }

  lemma NoTextField(m: Object, keys: seq<string>)
    requires forall k :: k in keys ==> k !in m.fields
    ensures forall k :: k in keys ==> TextField(m, k) == "" && MarkdownField(m, k) == "" && DeepField(m, k) == ""
  {
  }

  lemma DeltaText()
    ensures ExtractChatText(DELTA) == Delta("ab")
  {
    NoObjects(DELTA, ["payload", "data"]);
  }

  lemma NoStream(m: Object)
    requires "stream" !in m.fields
    ensures Word(FirstString(m, ["stream"])) == ""
  {
    NoString(m, ["stream"]);
    PlainWord("");
  }

  lemma EndText()
    ensures ExtractChatText(END) == NoText
  {
    NoObjects(END, ["payload", "data"]);
    NoTextField(END, ["delta", "content", "parts", "text"]);
    NoStream(END);
    NoTexts(END);
  }

  lemma NoTexts(m: Object)
    requires NestedChatText(m, ["payload", "data"]) == NoText && Word(FirstString(m, ["stream"])) == ""
    requires Obj(m, "message").None?
    requires TextField(m, "delta") == "" && TextField(m, "text") == ""
    requires MarkdownField(m, "content") == "" && MarkdownField(m, "parts") == ""
    ensures ExtractChatText(m) == NoText
  {
  }

  lemma {:induction false} NoOwnID(m: Object, keys: seq<string>)
    requires forall k :: k in keys ==> k !in m.fields
    ensures OwnSessionID(m, "", keys) == ""
  {
    if keys != [] {
      NoOwnID(m, keys[1..]);
    }
  }

  lemma DeltaIdentifier()
    ensures TranscriptSessionID(DELTA, "") == ""
  {
    NoOwnID(DELTA, ["sessionId", "session_id"]);
    NoObjects(DELTA, ["session", "payload", "data"]);
  }

  lemma EndIdentifier()
    ensures TranscriptSessionID(END, "") == "s"
  {
    PlainWord("s");
    TrimFixed("", IsSpace);
    assert !SessionIdentifierMatches("s", "");
    assert OwnSessionID(END, "", ["sessionId", "session_id"]) == "s";
  }

  lemma NoUserTime(m: Object)
    requires Obj(m, "message").None? && NestedUserTimestamp(NO_MEDIA, m, ["payload", "data", "session"]) == 0
    ensures UserTimestamp(NO_MEDIA, m) == 0
  {
  }

  lemma NoUserTimes()
    ensures UserTimestamp(NO_MEDIA, DELTA) == UserTimestamp(NO_MEDIA, END) == 0
  {
    NoObjects(DELTA, ["payload", "data", "session"]);
    NoObjects(END, ["payload", "data", "session"]);
    NoUserTime(DELTA);
    NoUserTime(END);
  }

  const STREAMED := Turn([Chunk(ANY, "ab", 1)], 1, "ab", "", false, [], "", 0)

  lemma DeltaAbsorbed()
    ensures Absorb(NO_MEDIA, ANY, START, DELTA) == STREAMED
  {
    DeltaText();
    DeltaIdentifier();
    NoUserTimes();
    TrimFixed("ab", IsNewline);
    assert IncrementalReplyText("", "ab") == Merge("ab", "ab");
    assert [] + [Chunk(ANY, "ab", 1)] == [Chunk(ANY, "ab", 1)];
    assert Extract(NO_MEDIA, DELTA, "ab") == [];
  }

  lemma EndAbsorbed()
    ensures Absorb(NO_MEDIA, ANY, STREAMED, END) == STREAMED.(transcriptID := "s")
  {
    EndText();
    EndIdentifier();
    NoUserTimes();
    assert Extract(NO_MEDIA, END, "ab") == [];
  }

  lemma IsOver(ev: ChatEvent, over: bool)
    requires ev.name == "chat" && "stream" !in ev.payload.fields && Flagged(ev.payload, "isFinal") == over
    requires !Flagged(ev.payload, "isEnd") && forall k :: k in ["status", "phase", "state"] ==> k !in ev.payload.fields
    ensures IsTerminal(ev) == over
  {
    PlainWord("chat");
    NoStream(ev.payload);
    NoString(ev.payload, ["status", "phase", "state"]);
    PlainLower("");
  }

  lemma DeltaEvent()
    ensures EventOf(ANY, TURN[0]) == Some(ChatEvent("chat", DELTA)) && !IsTerminal(ChatEvent("chat", DELTA))
  {
    assert "delta" in DELTA.fields;
    IsOver(ChatEvent("chat", DELTA), false);
  }

  lemma EndEvent()
    ensures EventOf(ANY, TURN[1]) == Some(ChatEvent("chat", END)) && IsTerminal(ChatEvent("chat", END))
  {
    assert "isFinal" in END.fields;
    IsOver(ChatEvent("chat", END), true);
  }

  lemma ObserveOne(libs: Libs, scope: Scope, st: Turn, f: Frame, rest: seq<Frame>, ev: ChatEvent, after: Turn)
    requires EventOf(scope, f) == Some(ev) && Absorb(libs, scope, st, ev.payload) == after
    ensures Observe(libs, scope, st, [f] + rest) == Observe(libs, scope, after, rest)
  {
    assert ([f] + rest)[1..] == rest;
  }

  lemma Ends(scope: Scope, f: Frame, ev: ChatEvent)
    requires EventOf(scope, f) == Some(ev)
    ensures EndsTurn(scope, f) == IsTerminal(ev)
  {
  }

  lemma EndsSecond(scope: Scope, frames: seq<Frame>)
    requires |frames| == 2 && !EndsTurn(scope, frames[0]) && EndsTurn(scope, frames[1])
    ensures FirstEnd(scope, frames) == 1
  {
    var n := FirstEnd(scope, frames);
    assert n != 0;
    assert n != 2;
  }

  lemma AfterDelta(rest: seq<Frame>)
    ensures Observe(NO_MEDIA, ANY, START, [TURN[0]] + rest) == Observe(NO_MEDIA, ANY, STREAMED, rest)
  {
    DeltaEvent();
    DeltaAbsorbed();
    ObserveOne(NO_MEDIA, ANY, START, TURN[0], rest, ChatEvent("chat", DELTA), STREAMED);
  }

  lemma AfterEnd(rest: seq<Frame>)
    ensures Observe(NO_MEDIA, ANY, STREAMED, [TURN[1]] + rest) == Observe(NO_MEDIA, ANY, ENDED, rest)
  {
    EndEvent();
    EndAbsorbed();
    ObserveOne(NO_MEDIA, ANY, STREAMED, TURN[1], rest, ChatEvent("chat", END), ENDED);
  }

  lemma TurnState()
    ensures At(NO_MEDIA, ANY, TURN, 2) == ENDED
  {
    AfterDelta([TURN[1]] + []);
    AfterEnd([]);
    assert TURN[..2] == [TURN[0]] + ([TURN[1]] + []);
  }

  lemma TurnEnds()
    ensures FirstEnd(ANY, TURN) == 1
  {
    DeltaEvent();
    EndEvent();
    Ends(ANY, TURN[0], ChatEvent("chat", DELTA));
    Ends(ANY, TURN[1], ChatEvent("chat", END));
    EndsSecond(ANY, TURN);
  }

  const ENDED := STREAMED.(transcriptID := "s")

  lemma TranscriptUsed()
    ensures UsedTranscript(ENDED, ELSEWHERE) == Some(Recovered("xy", []))
  {
    PlainWord("s");
    PlainWord("xy");
    BlankChars("");
  }

  lemma NoAttachments()
    ensures Settle(ANY, ENDED, ELSEWHERE).attachments == []
  {
    TranscriptUsed();
    SettleAttachments(ANY, ENDED, ELSEWHERE, []);
  }

  lemma SoundElsewhere()
    ensures SoundRecovery(NO_MEDIA, ELSEWHERE)
  {
    TrimFixed("xy", IsNewline);
  }

  /** "ab" is streamed, and the transcript turns out to say "xy": it is sent twice. */
  lemma TranscriptSentTwice()
    ensures var out := Collect(NO_MEDIA, ANY, ELSEWHERE, START, TURN);
      out.Finished? && FullText(out.replies) == "abxyxy"
  {
    TurnState();
    TurnEnds();
    SoundElsewhere();
    CollectedStream(NO_MEDIA, ANY, ELSEWHERE, TURN);
    TurnText(NO_MEDIA, ANY, ELSEWHERE, TURN, 1);
    NoAttachments();
    TranscriptUsed();
    TranscriptMishaps();
  }

  // ---------- .env ----------

  lemma EscapedQuote()
    ensures EnvFile.EscapeQuotes("it's") == "it'\"'\"'s"
  {
    assert "it's"[1..] == "t's" && "t's"[1..] == "'s" && "'s"[1..] == "s" && "s"[1..] == "";
    assert EnvFile.EscapeQuotes("s") == "s";
    assert EnvFile.EscapeQuotes("'s") == "'\"'\"'" + "s";
    assert EnvFile.EscapeQuotes("t's") == "t" + ("'\"'\"'" + "s");
  }

  const QUOTED: map<string, string> := map["NAME" := "it's"]

  lemma QuotedIsPrintable()
    ensures EnvFile.Printable(QUOTED)
  {
    assert EnvFile.CleanKey("NAME") && '\n' !in "it's";
  }

  /** A single quote comes back as the five characters it is escaped with. */
  lemma QuoteComesBackEscaped()
    ensures var read := EnvFile.LoadLines(EnvFile.SplitLines(EnvFile.Print(QUOTED)));
      "NAME" in read && read["NAME"] == "it'\"'\"'s" && read["NAME"] != QUOTED["NAME"]
  {
    QuotedIsPrintable();
    EnvFile.LoadOfPrint(QUOTED);
    EnvFile.StripAllPrinted("it's");
    EscapedQuote();
    assert |"it'\"'\"'s"| != |"it's"|;
  }
}
