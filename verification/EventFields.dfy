/** Where in an event its identifiers and texts are found, however deeply the event is wrapped. */
module EventFields {
  import opened GoText
  import opened Json
  import opened ChatEvents

  /** The object at the end of a chain of keys. */
  function Reached(m: Object, keys: seq<string>): Option<Object>
    decreases |keys|
  {
    if keys == [] then Some(m)
    else match Obj(m, keys[0]) case None => None case Some(inner) => Reached(inner, keys[1..])
  }

  ghost predicate Through(keys: seq<string>, wrappers: set<string>) { forall k :: k in keys ==> k in wrappers }

  /** Keys an event may be wrapped in. */
  const WRAPPERS := {"payload", "data", "session"}

  // ---------- which events concern a turn ----------

  /** The session of the cloud, or the gateway's name for it, which ends in a colon and that. */
  ghost predicate SameSession(name: string, cloud: string) {
    TrimSpace(cloud) != "" && (TrimSpace(name) == TrimSpace(cloud) || EndsIn(TrimSpace(name), ":" + TrimSpace(cloud)))
  }

  ghost predicate EndsIn(s: string, end: string) { exists before :: s == before + end }

  lemma HasSuffixIff(s: string, end: string)
    ensures HasSuffix(s, end) <==> EndsIn(s, end)
  {
    if HasSuffix(s, end) {
      assert s == s[..|s| - |end|] + end;
    }
  }

  lemma SameSessionIff(name: string, cloud: string)
    ensures SessionIdentifierMatches(name, cloud) <==> SameSession(name, cloud)
  {
    HasSuffixIff(TrimSpace(name), ":" + TrimSpace(cloud));
  }

  ghost predicate NamesRun(m: Object, runID: string) {
    runID != "" && exists key :: key in {"runId", "run_id"} && Str(m, key) == Some(runID)
  }

  ghost predicate NamesSession(m: Object, sessionID: string) {
    sessionID != "" && exists key :: key in {"sessionKey", "sessionId", "session_id"} && SessionAt(m, key, sessionID)
  }

  ghost predicate SessionAt(m: Object, key: string, sessionID: string) {
    Str(m, key).Some? && SameSession(Str(m, key).value, sessionID)
  }

  /** The collector looks at a frame if and only if it is one of three kinds of events and names the run or the
      session, or there is nothing to name. */
  lemma ConcernsIff(scope: Scope, frame: Frame)
    ensures EventOf(scope, frame).Some? <==>
      && frame.Event? && (frame.name == "chat" || frame.name == "session.message" || frame.name == "agent")
      && frame.payload.Some? && frame.payload.value.fields != map[]
      && (|| NamesRun(frame.payload.value, scope.runID)
          || NamesSession(frame.payload.value, scope.sessionID)
          || (scope.runID == "" && scope.sessionID == ""))
    ensures EventOf(scope, frame).Some? ==> EventOf(scope, frame).value == ChatEvent(frame.name, frame.payload.value)
  {
    if frame.Event? && frame.payload.Some? {
      RunIsNamed(frame.payload.value, scope.runID);
      SessionIsNamed(frame.payload.value, scope.sessionID);
    }
  }

  lemma RunIsNamed(m: Object, runID: string)
    ensures CarriesRun(m, runID) <==> NamesRun(m, runID)
  {
    assert forall key :: key in ["runId", "run_id"] <==> key in {"runId", "run_id"};
  }

  lemma SessionIsNamed(m: Object, sessionID: string)
    ensures sessionID != "" && AnySessionMatches(m, sessionID, ["sessionKey", "sessionId", "session_id"]) <==>
      NamesSession(m, sessionID)
  {
    var keys := ["sessionKey", "sessionId", "session_id"];
    assert forall key :: key in keys <==> key in {"sessionKey", "sessionId", "session_id"};
    forall key | Str(m, key).Some?
      ensures SessionIdentifierMatches(TrimSpace(Str(m, key).value), sessionID) <==> SessionAt(m, key, sessionID)
    {
      SameSessionIff(TrimSpace(Str(m, key).value), sessionID);
      TrimSpaceTwice(Str(m, key).value);
    }
  }

  // ---------- the gateway's session ----------

  /** A session of the gateway's own: not blank, and not a name for the cloud's session. */
  ghost predicate HasSession(m: Object, cloud: string, id: string) {
    id != "" && !SameSession(id, cloud) && exists key :: key in {"sessionId", "session_id"} && NameAt(m, key, id)
  }

  predicate NameAt(m: Object, key: string, id: string) { Str(m, key).Some? && TrimSpace(Str(m, key).value) == id }

  ghost predicate HasSessionIn(m: Object, cloud: string, id: string) {
    exists keys :: Through(keys, WRAPPERS) && SessionBelow(m, keys, cloud, id)
  }

  ghost predicate SessionBelow(m: Object, keys: seq<string>, cloud: string, id: string) {
    Reached(m, keys).Some? && HasSession(Reached(m, keys).value, cloud, id)
  }

  lemma OwnSessionIs(m: Object, cloud: string)
    ensures var own := OwnSessionID(m, cloud, ["sessionId", "session_id"]);
      && (own != "" ==> HasSession(m, cloud, own))
      && (own == "" ==> forall id :: !HasSession(m, cloud, id))
  {
    var keys := ["sessionId", "session_id"];
    assert keys[1..] == ["session_id"] && keys[1..][1..] == [];
    assert OwnSessionID(m, cloud, []) == "";
    SessionKey(m, cloud, "sessionId", ["session_id"]);
    SessionKey(m, cloud, "session_id", []);
    assert keys == ["sessionId"] + ["session_id"] && ["session_id"] == ["session_id"] + [];
    var own := OwnSessionID(m, cloud, keys);
    assert own != "" ==> NameAt(m, "sessionId", own) || NameAt(m, "session_id", own);
  }

  lemma SessionKey(m: Object, cloud: string, key: string, others: seq<string>)
    ensures OwnSessionID(m, cloud, [key] + others) ==
      if Str(m, key).Some? && TrimSpace(Str(m, key).value) != "" && !SameSession(TrimSpace(Str(m, key).value), cloud)
      then TrimSpace(Str(m, key).value) else OwnSessionID(m, cloud, others)
  {
    assert ([key] + others)[1..] == others;
    if Str(m, key).Some? {
      SameSessionIff(TrimSpace(Str(m, key).value), cloud);
    }
  }

  /** The session whose transcript is looked up is one the event names, however deeply wrapped; none is found only if
      the event names none. */
  lemma SessionIsFound(m: Object, cloud: string)
    ensures TranscriptSessionID(m, cloud) != "" ==> HasSessionIn(m, cloud, TranscriptSessionID(m, cloud))
    ensures TranscriptSessionID(m, cloud) == "" ==> forall id :: !HasSessionIn(m, cloud, id)
  {
    if TranscriptSessionID(m, cloud) != "" {
      SessionFoundBelow(m, cloud);
    } else {
      forall keys, id | Through(keys, WRAPPERS) && SessionBelow(m, keys, cloud, id)
        ensures TranscriptSessionID(m, cloud) != ""
      {
        SessionNotMissed(m, keys, cloud, id);
      }
    }
  }

  lemma {:induction false} SessionFoundBelow(m: Object, cloud: string)
    requires TranscriptSessionID(m, cloud) != ""
    ensures HasSessionIn(m, cloud, TranscriptSessionID(m, cloud))
    decreases m, 1
  {
    OwnSessionIs(m, cloud);
    if OwnSessionID(m, cloud, ["sessionId", "session_id"]) != "" {
      assert Through([], WRAPPERS) && SessionBelow(m, [], cloud, TranscriptSessionID(m, cloud));
    } else {
      SessionFoundNested(m, cloud, ["session", "payload", "data"]);
    }
  }

  lemma {:induction false} SessionFoundNested(m: Object, cloud: string, keys: seq<string>)
    requires NestedSessionID(m, cloud, keys) != "" && Through(keys, WRAPPERS)
    ensures HasSessionIn(m, cloud, NestedSessionID(m, cloud, keys))
    decreases m, 0, keys
  {
    var inner := Obj(m, keys[0]);
    if inner.Some? && TranscriptSessionID(inner.value, cloud) != "" {
      var id := TranscriptSessionID(inner.value, cloud);
      SessionFoundBelow(inner.value, cloud);
      var below :| Through(below, WRAPPERS) && SessionBelow(inner.value, below, cloud, id);
      assert ([keys[0]] + below)[1..] == below;
      assert keys[0] in keys && Through([keys[0]] + below, WRAPPERS) && SessionBelow(m, [keys[0]] + below, cloud, id);
    } else {
      assert forall k :: k in keys[1..] ==> k in keys;
      SessionFoundNested(m, cloud, keys[1..]);
    }
  }

  lemma {:induction false} SessionNotMissed(m: Object, keys: seq<string>, cloud: string, id: string)
    requires Through(keys, WRAPPERS) && SessionBelow(m, keys, cloud, id)
    ensures TranscriptSessionID(m, cloud) != ""
    decreases |keys|
  {
    OwnSessionIs(m, cloud);
    if keys != [] {
      assert keys[0] in keys && forall k :: k in keys[1..] ==> k in keys;
      SessionNotMissed(Obj(m, keys[0]).value, keys[1..], cloud, id);
      NestedSessionCounts(m, cloud, ["session", "payload", "data"], keys[0]);
    }
  }

  lemma {:induction false} NestedSessionCounts(m: Object, cloud: string, keys: seq<string>, key: string)
    requires key in keys && Obj(m, key).Some? && TranscriptSessionID(Obj(m, key).value, cloud) != ""
    ensures NestedSessionID(m, cloud, keys) != ""
    decreases |keys|
  {
    if keys[0] != key {
      NestedSessionCounts(m, cloud, keys[1..], key);
    }
  }

  // ---------- texts ----------

  const TEXT_WRAPPERS := {"payload", "data"}

  ghost predicate TextIn(m: Object, text: ChatText) {
    exists keys :: Through(keys, TEXT_WRAPPERS) && TextBelow(m, keys, text)
  }

  predicate TextBelow(m: Object, keys: seq<string>, text: ChatText) {
    Reached(m, keys).Some? && !text.NoText? && OwnChatText(Reached(m, keys).value) == text
  }

  /** The text an event carries is that of something in it, however deeply wrapped; it carries none only if nothing in
      it does; and what is wrapped comes before the event's own. */
  lemma TextIsFound(m: Object)
    ensures !ExtractChatText(m).NoText? ==> TextIn(m, ExtractChatText(m))
    ensures ExtractChatText(m).NoText? ==> forall text :: !TextIn(m, text)
    ensures forall key :: key in TEXT_WRAPPERS && Obj(m, key).Some? && ExtractChatText(m).NoText? ==>
      ExtractChatText(Obj(m, key).value).NoText?
  {
    if !ExtractChatText(m).NoText? {
      TextFoundBelow(m);
    } else {
      forall keys, text | Through(keys, TEXT_WRAPPERS) && TextBelow(m, keys, text)
        ensures !ExtractChatText(m).NoText?
      {
        TextNotMissed(m, keys, text);
      }
      forall key | key in TEXT_WRAPPERS && Obj(m, key).Some? ensures ExtractChatText(Obj(m, key).value).NoText? {
        if !ExtractChatText(Obj(m, key).value).NoText? {
          NestedTextCounts(m, ["payload", "data"], key);
        }
      }
    }
  }

  lemma WrappedTextFirst(m: Object, key: string)
    requires key in TEXT_WRAPPERS && Obj(m, key).Some? && !ExtractChatText(Obj(m, key).value).NoText?
    requires key == "payload" || Obj(m, "payload").None?
    ensures ExtractChatText(m) == ExtractChatText(Obj(m, key).value)
  {
    var keys := ["payload", "data"];
    assert keys[1..] == ["data"];
    if key == "data" {
      assert NestedChatText(m, keys) == NestedChatText(m, keys[1..]);
    }
  }

  lemma {:induction false} TextFoundBelow(m: Object)
    requires !ExtractChatText(m).NoText?
    ensures TextIn(m, ExtractChatText(m))
    decreases m, 1
  {
    if NestedChatText(m, ["payload", "data"]).NoText? {
      assert Through([], TEXT_WRAPPERS) && TextBelow(m, [], ExtractChatText(m));
    } else {
      TextFoundNested(m, ["payload", "data"]);
    }
  }

  lemma {:induction false} TextFoundNested(m: Object, keys: seq<string>)
    requires !NestedChatText(m, keys).NoText? && Through(keys, TEXT_WRAPPERS)
    ensures TextIn(m, NestedChatText(m, keys))
    decreases m, 0, keys
  {
    var inner := Obj(m, keys[0]);
    if inner.Some? && !ExtractChatText(inner.value).NoText? {
      var text := ExtractChatText(inner.value);
      TextFoundBelow(inner.value);
      var below :| Through(below, TEXT_WRAPPERS) && TextBelow(inner.value, below, text);
      assert ([keys[0]] + below)[1..] == below;
      assert keys[0] in keys && Through([keys[0]] + below, TEXT_WRAPPERS) && TextBelow(m, [keys[0]] + below, text);
    } else {
      assert forall k :: k in keys[1..] ==> k in keys;
      TextFoundNested(m, keys[1..]);
    }
  }

  lemma {:induction false} TextNotMissed(m: Object, keys: seq<string>, text: ChatText)
    requires Through(keys, TEXT_WRAPPERS) && TextBelow(m, keys, text)
    ensures !ExtractChatText(m).NoText?
    decreases |keys|
  {
    if keys != [] {
      assert keys[0] in keys && forall k :: k in keys[1..] ==> k in keys;
      TextNotMissed(Obj(m, keys[0]).value, keys[1..], text);
      NestedTextCounts(m, ["payload", "data"], keys[0]);
    }
  }

  lemma {:induction false} NestedTextCounts(m: Object, keys: seq<string>, key: string)
    requires key in keys && Obj(m, key).Some? && !ExtractChatText(Obj(m, key).value).NoText?
    ensures !NestedChatText(m, keys).NoText?
    decreases |keys|
  {
    if keys[0] != key {
      NestedTextCounts(m, keys[1..], key);
    }
  }

  /** A delta is what the field of that name holds; only on the assistant's stream may it be a structure. */
  lemma DeltaIs(m: Object, text: string)
    ensures OwnChatText(m) == Delta(text) <==>
      && text != ""
      && (|| Str(m, "delta") == Some(text)
          || (TextField(m, "delta") == "" && FromAssistant(m) && DeepField(m, "delta") == text))
  {
  }

  predicate FromAssistant(m: Object) { Word(FirstString(m, ["stream"])) == "assistant" }

  /** Where a snapshot may be, in order. */
  function SnapshotPlaces(m: Object): seq<string> {
    (if FromAssistant(m) then [DeepField(m, "text"), MarkdownField(m, "content")] else []) +
    [AssistantMessageText(m), MarkdownField(m, "content"), MarkdownField(m, "parts"), TextField(m, "text")]
  }

  ghost predicate IsFirstText(texts: seq<string>, text: string) {
    exists i :: 0 <= i < |texts| && texts[i] == text && text != "" && forall j :: 0 <= j < i ==> texts[j] == ""
  }

  /** A snapshot is the first text there is. */
  lemma SnapshotIs(m: Object, text: string)
    requires !OwnChatText(m).Delta?
    ensures OwnChatText(m) == Snapshot(text) <==> IsFirstText(SnapshotPlaces(m), text)
  {
    FirstTextIs(SnapshotPlaces(m), text);
    var a, b, c, d :=
      AssistantMessageText(m), MarkdownField(m, "content"), MarkdownField(m, "parts"), TextField(m, "text");
    FirstOfFour(a, b, c, d);
    if FromAssistant(m) {
      var t := DeepField(m, "text");
      FirstOf(t, [b] + [a, b, c, d]);
      FirstOf(b, [a, b, c, d]);
      assert SnapshotPlaces(m) == [t] + ([b] + [a, b, c, d]);
    } else {
      assert SnapshotPlaces(m) == [a, b, c, d];
    }
  }

  function FirstText(texts: seq<string>): string {
    if texts == [] then "" else if texts[0] != "" then texts[0] else FirstText(texts[1..])
  }

  lemma FirstOf(text: string, others: seq<string>)
    ensures FirstText([text] + others) == if text != "" then text else FirstText(others)
  {
    assert ([text] + others)[1..] == others;
  }

  lemma FirstOfFour(a: string, b: string, c: string, d: string)
    ensures FirstText([a, b, c, d]) == if a != "" then a else if b != "" then b else if c != "" then c else d
  {
    FirstOf(c, [d]);
    FirstOf(b, [c, d]);
    FirstOf(a, [b, c, d]);
    FirstOf(d, []);
    assert [d] == [d] + [] && [c, d] == [c] + [d] && [b, c, d] == [b] + [c, d] && [a, b, c, d] == [a] + [b, c, d];
  }

  lemma {:induction false} FirstTextIs(texts: seq<string>, text: string)
    ensures IsFirstText(texts, text) <==> text != "" && FirstText(texts) == text
  {
    if texts != [] {
      FirstTextIs(texts[1..], text);
      if texts[0] == "" {
        if IsFirstText(texts, text) {
          var i :| 0 <= i < |texts| && texts[i] == text && text != "" && forall j :: 0 <= j < i ==> texts[j] == "";
          assert texts[1..][i - 1] == text && forall j :: 0 <= j < i - 1 ==> texts[1..][j] == texts[j + 1];
        }
        if IsFirstText(texts[1..], text) {
          var i :| 0 <= i < |texts[1..]| && texts[1..][i] == text && text != ""
            && forall j :: 0 <= j < i ==> texts[1..][j] == "";
          assert texts[i + 1] == text && forall j :: 0 < j < i + 1 ==> texts[j] == texts[1..][j - 1];
        }
      } else if IsFirstText(texts, text) {
        var i :| 0 <= i < |texts| && texts[i] == text && text != "" && forall j :: 0 <= j < i ==> texts[j] == "";
        assert i == 0;
      } else {
        assert texts[0] != text || text == "";
      }
    }
  }

  /** A message is listened to only if it is the assistant's, or nobody's: what the user says never comes back. */
  lemma MessageTextIs(m: Object, text: string)
    requires text != ""
    ensures AssistantMessageText(m) == text <==>
      && Obj(m, "message").Some?
      && var message := Obj(m, "message").value;
         && (Word(FirstString(message, ["role"])) == "" || Word(FirstString(message, ["role"])) == "assistant")
         && IsFirstText([MarkdownField(message, "content"), TextField(message, "text"), TextField(message, "value")],
              text)
  {
    if Obj(m, "message").Some? {
      var message := Obj(m, "message").value;
      var a, b, c := MarkdownField(message, "content"), TextField(message, "text"), TextField(message, "value");
      FirstTextIs([a, b, c], text);
      FirstOf(c, []);
      FirstOf(b, [c]);
      FirstOf(a, [b, c]);
      assert [c] == [c] + [] && [b, c] == [b] + [c] && [a, b, c] == [a] + [b, c];
    }
  }
}
