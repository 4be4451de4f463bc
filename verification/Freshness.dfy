/** Which snapshots a turn takes, and which times count: only what is newer than everything the user said. */
module Freshness {
  import opened GoText
  import opened Json
  import opened Attachments
  import opened ChatEvents
  import opened Collector
  import opened EventFields
  import opened CollectorRuns

  // ---------- times ----------

  /** The object holds a user message of that time. */
  predicate UserSpeaks(libs: Libs, m: Object, ts: int) {
    && Obj(m, "message").Some? && ts > 0
    && Word(FirstString(Obj(m, "message").value, ["role"])) == "user"
    && TimestampMillis(libs, Obj(m, "message").value, "timestamp") == ts
  }

  ghost predicate UserSpeaksIn(libs: Libs, m: Object, ts: int) {
    exists keys :: Through(keys, WRAPPERS) && SpeaksBelow(libs, m, keys, ts)
  }

  predicate SpeaksBelow(libs: Libs, m: Object, keys: seq<string>, ts: int) {
    Reached(m, keys).Some? && UserSpeaks(libs, Reached(m, keys).value, ts)
  }

  /** The time an event gives for the user is that of some user message in it, however deeply wrapped; it gives none
      only if there is no such message with a time. A message right in the event comes first. */
  lemma UserTimeIsFound(libs: Libs, m: Object)
    ensures UserTimestamp(libs, m) > 0 ==> UserSpeaksIn(libs, m, UserTimestamp(libs, m))
    ensures UserTimestamp(libs, m) == 0 ==> forall ts :: !UserSpeaksIn(libs, m, ts)
    ensures forall ts :: UserSpeaks(libs, m, ts) ==> UserTimestamp(libs, m) == ts
  {
    if UserTimestamp(libs, m) > 0 {
      FoundBelow(libs, m);
    } else {
      forall keys, ts | Through(keys, WRAPPERS) && SpeaksBelow(libs, m, keys, ts) ensures UserTimestamp(libs, m) > 0 {
        NotMissed(libs, m, keys, ts);
      }
    }
  }

  lemma {:induction false} FoundBelow(libs: Libs, m: Object)
    requires UserTimestamp(libs, m) > 0
    ensures UserSpeaksIn(libs, m, UserTimestamp(libs, m))
    decreases m, 1
  {
    var ts := UserTimestamp(libs, m);
    if UserSpeaks(libs, m, ts) {
      assert Through([], WRAPPERS) && SpeaksBelow(libs, m, [], ts);
    } else {
      FoundNested(libs, m, ["payload", "data", "session"]);
    }
  }

  lemma {:induction false} FoundNested(libs: Libs, m: Object, keys: seq<string>)
    requires NestedUserTimestamp(libs, m, keys) > 0 && Through(keys, WRAPPERS)
    ensures UserSpeaksIn(libs, m, NestedUserTimestamp(libs, m, keys))
    decreases m, 0, keys
  {
    var inner := Obj(m, keys[0]);
    if inner.Some? && UserTimestamp(libs, inner.value) > 0 {
      var ts := UserTimestamp(libs, inner.value);
      FoundBelow(libs, inner.value);
      var below :| Through(below, WRAPPERS) && SpeaksBelow(libs, inner.value, below, ts);
      assert ([keys[0]] + below)[1..] == below;
      assert keys[0] in keys && Through([keys[0]] + below, WRAPPERS) && SpeaksBelow(libs, m, [keys[0]] + below, ts);
    } else {
      assert forall k :: k in keys[1..] ==> k in keys;
      FoundNested(libs, m, keys[1..]);
    }
  }

  lemma {:induction false} NotMissed(libs: Libs, m: Object, keys: seq<string>, ts: int)
    requires Through(keys, WRAPPERS) && SpeaksBelow(libs, m, keys, ts)
    ensures UserTimestamp(libs, m) > 0
    decreases |keys|
  {
    if keys != [] {
      assert keys[0] in keys && forall k :: k in keys[1..] ==> k in keys;
      NotMissed(libs, Obj(m, keys[0]).value, keys[1..], ts);
      NestedCounts(libs, m, ["payload", "data", "session"], keys[0]);
    }
  }

  lemma {:induction false} NestedCounts(libs: Libs, m: Object, keys: seq<string>, key: string)
    requires key in keys && Obj(m, key).Some? && UserTimestamp(libs, Obj(m, key).value) > 0
    ensures NestedUserTimestamp(libs, m, keys) > 0
    decreases |keys|
  {
    if keys[0] != key {
      NestedCounts(libs, m, keys[1..], key);
    }
  }

  /** A number becomes a whole number by cutting off its fraction, whatever its sign. */
  lemma TruncatesTowardZero(n: Float)
    ensures n.exponent >= 0 ==> Truncate(n) == n.mantissa * PowerOfTwo(n.exponent)
    ensures n.exponent < 0 ==>
      var unit, whole := PowerOfTwo(-n.exponent), Magnitude(Truncate(n));
      && whole * unit <= Magnitude(n.mantissa) < (whole + 1) * unit
      && (n.mantissa >= 0 ==> Truncate(n) >= 0) && (n.mantissa <= 0 ==> Truncate(n) <= 0)
  {
    if n.exponent < 0 {
      DividesDown(Magnitude(n.mantissa), PowerOfTwo(-n.exponent));
    }
  }

  lemma DividesDown(a: nat, unit: nat)
    requires unit > 0
    ensures a / unit * unit <= a < (a / unit + 1) * unit
    ensures a / unit >= 0
  {
    assert a == a / unit * unit + a % unit;
    assert (a / unit + 1) * unit == a / unit * unit + unit;
  }

  /** Times are numbers, or texts that can be read as a time, blanks around them not counted; all else is none. */
  lemma DateIs(libs: Libs, m: Object, key: string)
    ensures var ts := TimestampMillis(libs, m, key);
      if key in m.fields && m.fields[key].JNum? then ts == Truncate(m.fields[key].number)
      else if Str(m, key).Some? && !Blank(Str(m, key).value) && libs.parseTime(TrimSpace(Str(m, key).value)).Some?
      then libs.parseTime(TrimSpace(Str(m, key).value)) == Some(ts)
      else ts == 0
  {
  }

  // ---------- snapshots ----------

  /** The snapshot a frame offers, newlines around it not counted; nothing if it offers none. */
  function Offered(scope: Scope, frame: Frame): string {
    match EventOf(scope, frame)
    case None => ""
    case Some(ev) => (match ExtractChatText(ev.payload) case Snapshot(text) => TrimNewlines(text) case _ => "")
  }

  ghost predicate OfThisRun(scope: Scope, frame: Frame) {
    EventOf(scope, frame).Some? && NamesRun(EventOf(scope, frame).value.payload, scope.runID)
  }

  /** The message in frame `k` is the assistant's, or nobody's, and dated later than everything the user has said by
      then; at least one of the user's messages is dated. */
  ghost predicate LaterThanUser(libs: Libs, scope: Scope, frames: seq<Frame>, k: nat)
    requires k < |frames|
  {
    && EventOf(scope, frames[k]).Some?
    && Obj(EventOf(scope, frames[k]).value.payload, "message").Some?
    && var message := Obj(EventOf(scope, frames[k]).value.payload, "message").value;
       && (Word(FirstString(message, ["role"])) == "" || Word(FirstString(message, ["role"])) == "assistant")
       && (exists i :: 0 <= i <= k && UserTime(libs, scope, frames[i]) > 0)
       && (forall i :: 0 <= i <= k ==> TimestampMillis(libs, message, "timestamp") > UserTime(libs, scope, frames[i]))
  }

  ghost predicate Fresh(libs: Libs, scope: Scope, frames: seq<Frame>, k: nat)
    requires k < |frames|
  {
    && Offered(scope, frames[k]) != ""
    && (OfThisRun(scope, frames[k]) || LaterThanUser(libs, scope, frames, k))
  }

  /** A frame replaces the held snapshot if and only if it offers a fresh one. */
  lemma ReplacedIffFresh(libs: Libs, scope: Scope, frames: seq<Frame>, k: nat)
    requires k < |frames|
    ensures At(libs, scope, frames, k + 1).snapshot ==
      if Fresh(libs, scope, frames, k) then Offered(scope, frames[k]) else At(libs, scope, frames, k).snapshot
  {
    AtStep(libs, scope, frames, k);
    if EventOf(scope, frames[k]).Some? {
      var m, st := EventOf(scope, frames[k]).value.payload, At(libs, scope, frames, k);
      SnapshotTaken(libs, scope, st, m);
      RunIsNamed(m, scope.runID);
      NewerIsLater(libs, scope, frames, k);
    }
  }

  lemma SnapshotTaken(libs: Libs, scope: Scope, st: Turn, m: Object)
    ensures var after := Absorb(libs, scope, st, m); var text := ExtractChatText(m);
      after.snapshot ==
        if text.Snapshot? && TrimNewlines(text.text) != "" &&
           SnapshotBelongsToCurrentTurn(libs, m, scope.runID, after.floor)
        then TrimNewlines(text.text) else st.snapshot
  {
  }

  lemma NewerIsLater(libs: Libs, scope: Scope, frames: seq<Frame>, k: nat)
    requires k < |frames| && EventOf(scope, frames[k]).Some?
    ensures var floor := At(libs, scope, frames, k + 1).floor;
      floor > 0 && NewerMessage(libs, EventOf(scope, frames[k]).value.payload, floor) <==>
      LaterThanUser(libs, scope, frames, k)
  {
    var times, floor := UserTimes(libs, scope, frames)[..k + 1], At(libs, scope, frames, k + 1).floor;
    FloorRises(libs, scope, frames, k + 1, k + 1);
    var m := EventOf(scope, frames[k]).value.payload;
    if Obj(m, "message").Some? {
      var ts := TimestampMillis(libs, Obj(m, "message").value, "timestamp");
      LatestBelow(times, floor, ts);
      assert forall i :: 0 <= i <= k ==> times[i] == UserTime(libs, scope, frames[i]);
      LaterByTimes(libs, scope, frames, k, times, ts);
    }
  }

  lemma LatestBelow(times: seq<int>, latest: int, ts: int)
    requires IsLatest(times, latest)
    ensures latest > 0 && ts > latest <==>
      (exists i :: 0 <= i < |times| && times[i] > 0) && (forall i :: 0 <= i < |times| ==> ts > times[i])
  {
    forall i | 0 <= i < |times| ensures times[i] <= latest {
      assert times[i] in times;
    }
    if latest > 0 {
      assert latest in times;
      var i :| 0 <= i < |times| && times[i] == latest;
    }
  }

  lemma LaterByTimes(libs: Libs, scope: Scope, frames: seq<Frame>, k: nat, times: seq<int>, ts: int)
    requires k < |frames| && EventOf(scope, frames[k]).Some? && |times| == k + 1
    requires forall i :: 0 <= i <= k ==> times[i] == UserTime(libs, scope, frames[i])
    requires var m := EventOf(scope, frames[k]).value.payload;
      Obj(m, "message").Some? && ts == TimestampMillis(libs, Obj(m, "message").value, "timestamp")
    ensures var message := Obj(EventOf(scope, frames[k]).value.payload, "message").value;
      LaterThanUser(libs, scope, frames, k) <==>
        && (Word(FirstString(message, ["role"])) == "" || Word(FirstString(message, ["role"])) == "assistant")
        && (exists i :: 0 <= i < |times| && times[i] > 0)
        && (forall i :: 0 <= i < |times| ==> ts > times[i])
  {
    assert forall i :: 0 <= i <= k ==> UserTime(libs, scope, frames[i]) == times[i];
  }

  /** Which frames offer a fresh snapshot. */
  ghost function Takes(libs: Libs, scope: Scope, frames: seq<Frame>): seq<bool> {
    seq(|frames|, k requires 0 <= k < |frames| => Fresh(libs, scope, frames, k))
  }

  function Held(libs: Libs, scope: Scope, frames: seq<Frame>): seq<string> {
    seq(|frames| + 1, k requires 0 <= k <= |frames| => At(libs, scope, frames, k).snapshot)
  }

  function Offers(scope: Scope, frames: seq<Frame>): seq<string> {
    seq(|frames|, k requires 0 <= k < |frames| => Offered(scope, frames[k]))
  }

  lemma HeldStep(libs: Libs, scope: Scope, frames: seq<Frame>, k: nat)
    requires k < |frames|
    ensures var held, takes, offered := Held(libs, scope, frames), Takes(libs, scope, frames), Offers(scope, frames);
      held[k + 1] == (if takes[k] then offered[k] else held[k]) && (takes[k] ==> offered[k] != "")
  {
    ReplacedIffFresh(libs, scope, frames, k);
  }

  /** Nothing is held if and only if nothing fresh has been offered; otherwise what is held is the last of it. */
  lemma HeldIsLastFresh(libs: Libs, scope: Scope, frames: seq<Frame>, n: nat)
    requires n <= |frames|
    ensures var held, takes := At(libs, scope, frames, n).snapshot, Takes(libs, scope, frames);
      if held == "" then forall k :: 0 <= k < n ==> !takes[k]
      else exists k :: 0 <= k < n && IsLast(takes, k, n) && Offers(scope, frames)[k] == held
  {
    var held, takes, offered := Held(libs, scope, frames), Takes(libs, scope, frames), Offers(scope, frames);
    forall k | 0 <= k < |frames|
      ensures held[k + 1] == (if takes[k] then offered[k] else held[k]) && (takes[k] ==> offered[k] != "")
    {
      HeldStep(libs, scope, frames, k);
    }
    assert held[0] == "" by { assert frames[..0] == []; }
    LastUpdate(held, takes, offered, n);
  }

  ghost predicate IsLast(takes: seq<bool>, k: nat, n: nat)
    requires k < n <= |takes|
  {
    takes[k] && forall j :: k < j < n ==> !takes[j]
  }

  lemma {:induction false} LastUpdate(held: seq<string>, takes: seq<bool>, offered: seq<string>, n: nat)
    requires n <= |takes| == |offered| && |held| == |takes| + 1 && held[0] == ""
    requires forall k :: 0 <= k < |takes| ==> (takes[k] ==> offered[k] != "")
    requires forall k :: 0 <= k < |takes| ==> held[k + 1] == if takes[k] then offered[k] else held[k]
    ensures if held[n] == "" then forall k :: 0 <= k < n ==> !takes[k]
      else exists k :: 0 <= k < n && IsLast(takes, k, n) && offered[k] == held[n]
    decreases n
  {
    if n > 0 {
      LastUpdate(held, takes, offered, n - 1);
      assert held[n - 1 + 1] == if takes[n - 1] then offered[n - 1] else held[n - 1];
      if takes[n - 1] {
        assert IsLast(takes, n - 1, n);
      } else if held[n] != "" {
        var k :| 0 <= k < n - 1 && IsLast(takes, k, n - 1) && offered[k] == held[n - 1];
        assert IsLast(takes, k, n);
      }
    }
  }

  // ---------- the session ----------

  /** The gateway's session a frame names, if any. */
  function SessionNamed(scope: Scope, frame: Frame): string {
    match EventOf(scope, frame) case None => "" case Some(ev) => TranscriptSessionID(ev.payload, scope.sessionID)
  }

  function Sessions(scope: Scope, frames: seq<Frame>): seq<string> {
    seq(|frames|, k requires 0 <= k < |frames| => SessionNamed(scope, frames[k]))
  }

  function Named(scope: Scope, frames: seq<Frame>): seq<bool> {
    seq(|frames|, k requires 0 <= k < |frames| => SessionNamed(scope, frames[k]) != "")
  }

  lemma NoSessionYet(libs: Libs, scope: Scope, frames: seq<Frame>)
    ensures At(libs, scope, frames, 0).transcriptID == ""
  {
    assert frames[..0] == [];
  }

  lemma SessionStep(libs: Libs, scope: Scope, frames: seq<Frame>, k: nat)
    requires k < |frames|
    ensures var held, named, ids := SessionsHeld(libs, scope, frames), Named(scope, frames), Sessions(scope, frames);
      held[k + 1] == (if named[k] then ids[k] else held[k]) && (named[k] ==> ids[k] != "")
  {
    AtStep(libs, scope, frames, k);
    if EventOf(scope, frames[k]).Some? {
      SessionNoted(libs, scope, At(libs, scope, frames, k), EventOf(scope, frames[k]).value.payload);
    }
  }

  lemma SessionNoted(libs: Libs, scope: Scope, st: Turn, m: Object)
    ensures var id := TranscriptSessionID(m, scope.sessionID);
      Absorb(libs, scope, st, m).transcriptID == if id != "" then id else st.transcriptID
  {
  }

  function SessionsHeld(libs: Libs, scope: Scope, frames: seq<Frame>): seq<string> {
    seq(|frames| + 1, k requires 0 <= k <= |frames| => At(libs, scope, frames, k).transcriptID)
  }

  /** The transcript looked up is that of the session named last, if any was. */
  lemma LastSessionWins(libs: Libs, scope: Scope, frames: seq<Frame>, n: nat)
    requires n <= |frames|
    ensures var held, named := At(libs, scope, frames, n).transcriptID, Named(scope, frames);
      if held == "" then forall k :: 0 <= k < n ==> !named[k]
      else exists k :: 0 <= k < n && IsLast(named, k, n) && Sessions(scope, frames)[k] == held
  {
    var held, named, ids := SessionsHeld(libs, scope, frames), Named(scope, frames), Sessions(scope, frames);
    forall k | 0 <= k < |frames|
      ensures held[k + 1] == (if named[k] then ids[k] else held[k]) && (named[k] ==> ids[k] != "")
    {
      SessionStep(libs, scope, frames, k);
    }
    NoSessionYet(libs, scope, frames);
    LastUpdate(held, named, ids, n);
  }
}
