/** From the session log to the text of the reply: polling, recovery and merging put together. */
module TranscriptRecovery {
  import opened GoText
  import opened Json
  import opened Attachments
  import opened Protocol
  import opened ChatEvents
  import opened Collector
  import opened TurnEnd
  import opened Transcript
  import opened TranscriptPoller

  /** What is in the log at each read; nothing where it cannot be read. */
  type Logs = nat -> Option<seq<Line>>

  function Read(libs: Libs, log: seq<Line>): Reading { LastTurnReply(Marks(libs, log)) }

  ghost predicate Polls(libs: Libs, w: Wait, logs: Logs) {
    forall i: nat :: w.read(i) == match logs(i) case None => None case Some(log) => Some(Read(libs, log))
  }

  /** Up to the k-th read the log is appended to, and the user does not speak again. */
  ghost predicate SameTurn(libs: Libs, logs: Logs, k: nat) {
    forall i: nat, j: nat :: i <= j <= k && logs(i).Some? && logs(j).Some? ==>
      Grows(logs(i).value, logs(j).value) && NoNewUser(libs, logs(i).value, logs(j).value)
  }

  lemma ReadsGrow(libs: Libs, w: Wait, logs: Logs, k: nat)
    requires Polls(libs, w, logs) && SameTurn(libs, logs, k)
    ensures Growing(w, k)
  {
    forall i: nat, j: nat | i <= j <= k && w.read(i).Some? && w.read(j).Some?
      ensures w.read(i).value.text <= w.read(j).value.text
    {
      ReplyGrows(libs, logs(i).value, logs(j).value);
    }
  }

  /** As long as the user does not speak again, nothing acceptable that was read is lost. */
  lemma NothingLostInOneTurn(libs: Libs, w: Wait, logs: Logs, k: nat, i: nat)
    requires Polls(libs, w, logs) && SameTurn(libs, logs, k)
    requires i <= k && logs(i).Some? && w.Acceptable(Read(libs, logs(i).value)) && w.Outcome(k).Recovered?
    ensures Read(libs, logs(i).value).text <= w.Outcome(k).text && !Blank(w.Outcome(k).text)
  {
    ReadsGrow(libs, w, logs, k);
    OutcomeExtendsReadings(w, k, i);
  }

  /** The outcome of a poll over logs. */
  ghost predicate IsPolled(libs: Libs, r: Recovery) {
    exists w: Wait, logs: Logs, k: nat :: Polls(libs, w, logs) && r == w.Outcome(k)
  }

  /** The transcript is looked up by polling the session's log. */
  ghost predicate LooksUpLogs(libs: Libs, world: World) {
    forall id, floor :: IsPolled(libs, world.lookup(id, floor))
  }

  lemma PolledIsSound(libs: Libs, w: Wait, logs: Logs, k: nat)
    requires Polls(libs, w, logs) && w.Outcome(k).Recovered?
    ensures Tight(w.Outcome(k).text, IsNewline) && AllFromRefs(libs, w.Outcome(k).attachments)
  {
    forall i: nat | w.read(i).Some? ensures SoundReading(libs, w.read(i).value) {
      ReadingIsSound(libs, logs(i).value);
    }
    PolledRecoveryIsSound(libs, w, k);
  }

  /** So what the collector gets has no newline around it, and attachments built from references. */
  lemma LogsAreSound(libs: Libs, world: World)
    requires LooksUpLogs(libs, world)
    ensures SoundRecovery(libs, world)
  {
    forall id, floor | world.lookup(id, floor).Recovered?
      ensures Tight(world.lookup(id, floor).text, IsNewline) && AllFromRefs(libs, world.lookup(id, floor).attachments)
    {
      assert IsPolled(libs, world.lookup(id, floor));
      var w: Wait, logs: Logs, k: nat :| Polls(libs, w, logs) && world.lookup(id, floor) == w.Outcome(k);
      PolledIsSound(libs, w, logs, k);
    }
  }

  /** If the last log read has an acceptable reply, that is what was recovered. */
  lemma RecoversLastRead(w: Wait, k: nat)
    requires w.read(k).Some? && w.Acceptable(w.read(k).value) && w.Outcome(k).Recovered?
    ensures w.Outcome(k) == Recovered(w.read(k).value.text, w.read(k).value.attachments)
  {
    assert w.Best(k + 1) == w.read(k);
  }

  /** The text of a turn whose transcript is polled, from the last log read. */
  lemma TextFromLog(libs: Libs, scope: Scope, st: Turn, world: World, w: Wait, logs: Logs, k: nat)
    requires Streaming(libs, scope, st) && LooksUpLogs(libs, world) && NeedsTranscript(st)
    requires Polls(libs, w, logs) && world.lookup(st.transcriptID, st.floor) == w.Outcome(k) && w.Outcome(k).Recovered?
    requires logs(k).Some? && w.Acceptable(Read(libs, logs(k).value))
    ensures FullText(Settle(scope, st, world).replies) ==
      FinalText(st.assembled, st.snapshot, Some(Read(libs, logs(k).value).text))
  {
    LogsAreSound(libs, world);
    RecoversLastRead(w, k);
    SettledText(libs, scope, st, world);
  }

  /** If what was streamed is the reply as the log had it at some earlier moment of the turn, the chunks add up to the
      reply as the last log read has it. */
  lemma StreamedTurnEndsAsLog(libs: Libs, scope: Scope, st: Turn, world: World, w: Wait, logs: Logs, k: nat,
      earlier: seq<Line>)
    requires Streaming(libs, scope, st) && LooksUpLogs(libs, world) && NeedsTranscript(st)
    requires Polls(libs, w, logs) && world.lookup(st.transcriptID, st.floor) == w.Outcome(k) && w.Outcome(k).Recovered?
    requires logs(k).Some? && w.Acceptable(Read(libs, logs(k).value))
    requires Grows(earlier, logs(k).value) && NoNewUser(libs, earlier, logs(k).value)
    requires st.assembled == Read(libs, earlier).text && !Blank(st.assembled)
    ensures FullText(Settle(scope, st, world).replies) == Read(libs, logs(k).value).text
  {
    TextFromLog(libs, scope, st, world, w, logs, k);
    StreamedPartIsCompleted(libs, earlier, logs(k).value, st.snapshot);
  }
}
