/** Waiting for the assistant's reply to appear in a log that is still being written. */
module TranscriptPoller {
  import opened GoText
  import opened Json
  import opened Attachments
  import opened Transcript
  import opened Collector
  import opened TurnEnd

  // ---------- what the last turn depends on ----------

  /** Whatever precedes the last user entry is irrelevant. */
  lemma OnlyLastTurnMatters(before: seq<Mark>, after: seq<Mark>)
    ensures LastTurnReply(before + [User] + after) == LastTurnReply([User] + after)
  {
    LastTurnShift(before, after);
  }

  lemma {:induction false} LastTurnShift(before: seq<Mark>, after: seq<Mark>)
    ensures LastTurn(before + [User] + after) == LastTurn([User] + after)
  {
    if after == [] {
      assert before + [User] + after == before + [User] && [User] + after == [] + [User];
      LastTurnStep(before, User);
      LastTurnStep([], User);
    } else {
      var less, m := after[..|after| - 1], after[|after| - 1];
      assert before + [User] + after == (before + [User] + less) + [m] && [User] + after == ([User] + less) + [m];
      LastTurnShift(before, less);
      LastTurnStep(before + [User] + less, m);
      LastTurnStep([User] + less, m);
    }
  }

  // ---------- growth ----------

  /** The log is only appended to; a torn last line may have been completed meanwhile. */
  ghost predicate Grows(earlier: seq<Line>, later: seq<Line>) {
    || earlier <= later
    || (earlier != [] && earlier[|earlier| - 1].Unreadable? && earlier[..|earlier| - 1] <= later)
  }

  ghost predicate NoNewUser(libs: Libs, earlier: seq<Line>, later: seq<Line>) {
    forall i :: (if earlier <= later then |earlier| else |earlier| - 1) <= i < |later| ==> !MarkOf(libs, later[i]).User?
  }

  /** As long as the user does not speak again, the reply text only ever gets longer. */
  lemma ReplyGrows(libs: Libs, earlier: seq<Line>, later: seq<Line>)
    requires Grows(earlier, later) && NoNewUser(libs, earlier, later)
    ensures LastTurnReply(Marks(libs, earlier)).text <= LastTurnReply(Marks(libs, later)).text
  {
    var kept := if earlier <= later then |earlier| else |earlier| - 1;
    var common, torn, more := earlier[..kept], earlier[kept..], later[kept..];
    assert earlier == common + torn && later == common + more;
    MarksSplit(libs, common, torn);
    MarksSplit(libs, common, more);
    forall i | 0 <= i < |more| ensures !Marks(libs, more)[i].User? {
      assert more[i] == later[kept + i];
    }
    assert torn == [] || torn == [Unreadable];
    assert Marks(libs, torn) == [] || Marks(libs, torn) == [Ignored];
    MarksGrow(Marks(libs, common), Marks(libs, torn), Marks(libs, more));
  }

  lemma MarksSplit(libs: Libs, a: seq<Line>, b: seq<Line>)
    ensures Marks(libs, a + b) == Marks(libs, a) + Marks(libs, b)
  {}

  /** `torn` is at most one line that means nothing. */
  lemma MarksGrow(marks: seq<Mark>, torn: seq<Mark>, more: seq<Mark>)
    requires torn == [] || torn == [Ignored]
    requires forall i :: 0 <= i < |more| ==> !more[i].User?
    ensures LastTurnReply(marks + torn).text <= LastTurnReply(marks + more).text
  {
    assert marks + [] == marks;
    NotesStep(marks, Ignored);
    NotesGrow(marks, more);
    TextOfNotes(marks + torn);
    TextOfNotes(marks + more);
    JoinGrows(NotesOf(marks + torn).texts, NotesOf(marks + more).texts);
  }

  lemma {:induction false} NotesGrow(marks: seq<Mark>, more: seq<Mark>)
    requires forall i :: 0 <= i < |more| ==> !more[i].User?
    ensures NotesOf(marks).texts <= NotesOf(marks + more).texts
  {
    if more == [] {
      assert marks + more == marks;
    } else {
      var most, last := more[..|more| - 1], more[|more| - 1];
      NotesGrow(marks, most);
      NotesStep(marks + most, last);
      assert marks + most + [last] == marks + more;
    }
  }

  lemma TextOfNotes(marks: seq<Mark>)
    ensures LastTurnReply(marks).text == Join(NotesOf(marks).texts, "\n\n")
  {}

  lemma {:induction false} JoinGrows(a: seq<string>, b: seq<string>)
    requires a <= b
    ensures Join(a, "\n\n") <= Join(b, "\n\n")
  {
    if |a| > 1 {
      JoinGrows(a[1..], b[1..]);
    }
  }

  // ---------- what a reading is like ----------

  lemma {:induction false} JoinIsTight(blocks: seq<string>)
    requires AllTight(blocks)
    ensures Tight(Join(blocks, "\n\n"), IsNewline)
    ensures blocks != [] ==> Join(blocks, "\n\n") != ""
  {
    if blocks != [] {
      assert TightBlock(blocks[0]);
      if |blocks| > 1 { JoinIsTight(blocks[1..]); }
    }
  }

  ghost predicate SoundReading(libs: Libs, r: Reading) {
    Tight(r.text, IsNewline) && AllFromRefs(libs, r.attachments)
  }

  /** A reading's text has no newline around it, and its attachments come from media references. */
  lemma ReadingIsSound(libs: Libs, log: seq<Line>)
    ensures SoundReading(libs, LastTurnReply(Marks(libs, log)))
  {
    var marks := Marks(libs, log);
    MarksAreTight(libs, log);
    MarksFromRefs(libs, log);
    if LastTurn(marks).Some? {
      LastTurnIsSuffix(marks);
      TurnIsSound(libs, LastTurn(marks).value);
    }
  }

  lemma TurnIsSound(libs: Libs, turn: seq<Mark>)
    requires AllTightMarks(turn) && AllFromRefsMarks(libs, turn)
    ensures SoundReading(libs, TurnReply(turn))
  {
    TextsAreTight(turn);
    JoinIsTight(TextsOf(turn));
    FoundFromRefs(libs, turn);
    DedupKeys({}, ToolsOf(turn));
    DedupKeys({}, ToolsOf(turn) + SpokenOf(turn));
  }

  ghost predicate FromRefsMark(libs: Libs, m: Mark) {
    m.Assistant? || m.Tool? ==> AllFromRefs(libs, m.found)
  }

  ghost predicate AllFromRefsMarks(libs: Libs, marks: seq<Mark>) {
    forall i :: 0 <= i < |marks| ==> FromRefsMark(libs, marks[i])
  }

  lemma MarksFromRefs(libs: Libs, log: seq<Line>)
    ensures AllFromRefsMarks(libs, Marks(libs, log))
  {
    forall i | 0 <= i < |log| ensures FromRefsMark(libs, Marks(libs, log)[i]) {
      MarkFromRefs(libs, log[i]);
    }
  }

  lemma MarkFromRefs(libs: Libs, line: Line)
    ensures FromRefsMark(libs, MarkOf(libs, line))
  {
    if line.Entry? && Obj(line.value, "message").Some? {
      var message := Obj(line.value, "message").value;
      ExtractFromRefs(libs, libs.refsIn(message, AssistantText(message)));
      ToolAttachmentsFromRefs(libs, message);
    }
  }

  lemma ToolAttachmentsFromRefs(libs: Libs, message: Object)
    ensures AllFromRefs(libs, ToolAttachments(libs, message))
  {
    ExtractFromRefs(libs, libs.refsIn(message, ""));
    var details := match Obj(message, "details")
      case None => []
      case Some(d) =>
        Extract(libs, d, "") + (match Obj(d, "media") case None => [] case Some(m) => Extract(libs, m, ""));
    if Obj(message, "details").Some? {
      var d := Obj(message, "details").value;
      ExtractFromRefs(libs, libs.refsIn(d, ""));
      if Obj(d, "media").Some? { ExtractFromRefs(libs, libs.refsIn(Obj(d, "media").value, "")); }
    }
    assert AllFromRefs(libs, details);
    DedupKeys({}, details + Extract(libs, message, ""));
  }

  lemma {:induction false} FoundFromRefs(libs: Libs, turn: seq<Mark>)
    requires AllFromRefsMarks(libs, turn)
    ensures AllFromRefs(libs, ToolsOf(turn)) && AllFromRefs(libs, SpokenOf(turn))
  {
    if turn != [] {
      assert FromRefsMark(libs, turn[|turn| - 1]);
      FoundFromRefs(libs, turn[..|turn| - 1]);
    }
  }

  // ---------- polling ----------

  /** One wait: what the reads give (None for a read error), the clock at each deadline test, where the
      context was cancelled instead of the pause being slept, and until when to wait. */
  datatype Wait = Wait(
    read: nat -> Option<Reading>, now: nat -> int, cancelled: nat -> bool, deadline: int, floor: int)
  {
    /** The reading has a text, and is later than the user's message if its time is known. */
    predicate Acceptable(r: Reading) {
      !Blank(r.text) && Later(r)
    }

    predicate Later(r: Reading) {
      floor <= 0 || r.timestamp > floor
    }

    /** The last acceptable reading among the first `n`. */
    function Best(n: nat): Option<Reading> {
      if n == 0 then None
      else if read(n - 1).Some? && Acceptable(read(n - 1).value) then read(n - 1)
      else Best(n - 1)
    }

    predicate Answered(k: nat) {
      read(k).Some? && Best(k + 1).Some? && read(k).value.complete && Later(read(k).value)
    }

    /** The wait is over with read `k`. */
    predicate Over(k: nat) {
      read(k).None? || Answered(k) || now(k) > deadline || cancelled(k)
    }

    function Outcome(k: nat): Recovery {
      if read(k).None? then LookupFailed
      else if Answered(k) then Recovered(read(k).value.text, read(k).value.attachments)
      else if now(k) > deadline then
        (match Best(k + 1)
         case None => Recovered("", [])
         case Some(r) => Recovered(r.text, r.attachments))
      else LookupFailed
    }

    /** Every pause takes its 100 ms. */
    ghost predicate Paced(start: int) {
      && now(0) >= start
      && forall k: nat :: k > 0 ==> now(k) >= now(k - 1) + 100
    }
  }

  lemma {:induction false} PacedBy(w: Wait, start: int, k: nat)
    requires w.Paced(start)
    ensures w.now(k) >= start + 100 * k
  {
    if k > 0 {
      PacedBy(w, start, k - 1);
    }
  }

  /** The poll stops at the first read after which the wait is over, with that read's outcome; the clock
      bounds the number of reads. */
  method LoadTranscriptAssistantReply(w: Wait, start: int) returns (r: Recovery, count: nat)
    requires w.Paced(start)
    ensures count > 0 && w.Over(count - 1) && forall k :: 0 <= k < count - 1 ==> !w.Over(k)
    ensures r == w.Outcome(count - 1)
    ensures w.deadline >= start ==> count <= (w.deadline - start) / 100 + 2
  {
    count := 0;
    var best: Option<Reading> := None;
    while true
      invariant best == w.Best(count)
      invariant forall k :: 0 <= k < count ==> !w.Over(k)
      decreases w.deadline - (start + 100 * count)
    {
      PacedBy(w, start, count);
      if count > 0 {
        PacedBy(w, start, count - 1);
        assert !w.Over(count - 1);
      }
      var attempt := w.read(count);
      count := count + 1;
      if attempt.None? {
        return LookupFailed, count;
      }
      var reading := attempt.value;
      if !Blank(reading.text) && (w.floor <= 0 || reading.timestamp > w.floor) {
        best := attempt;
      }
      if best.Some? && reading.complete && (w.floor <= 0 || reading.timestamp > w.floor) {
        return Recovered(reading.text, reading.attachments), count;
      }
      if w.now(count - 1) > w.deadline {
        if best.None? {
          return Recovered("", []), count;
        }
        return Recovered(best.value.text, best.value.attachments), count;
      }
      if w.cancelled(count - 1) {
        return LookupFailed, count;
      }
    }
  }

  lemma {:induction false} BestIsARead(w: Wait, n: nat)
    ensures w.Best(n).Some? ==>
      exists k: nat :: k < n && w.read(k) == w.Best(n) && w.Acceptable(w.Best(n).value)
  {
    if n > 0 && w.Best(n) == w.Best(n - 1) {
      BestIsARead(w, n - 1);
    }
  }

  ghost predicate IsReading(w: Wait, i: nat, r: Recovery) {
    && w.read(i).Some?
    && w.Acceptable(w.read(i).value)
    && r == Recovered(w.read(i).value.text, w.read(i).value.attachments)
  }

  /** A non-blank outcome is one single reading, text and attachments together, and later than the floor. */
  lemma OutcomeIsOneReading(w: Wait, k: nat)
    requires w.Outcome(k).Recovered? && !Blank(w.Outcome(k).text)
    ensures exists i: nat :: i <= k && IsReading(w, i, w.Outcome(k))
  {
    if w.Answered(k) {
      assert IsReading(w, k, w.Outcome(k));
    } else {
      BestIsARead(w, k + 1);
      var i: nat :| i < k + 1 && w.read(i) == w.Best(k + 1) && w.Acceptable(w.Best(k + 1).value);
      assert IsReading(w, i, w.Outcome(k));
    }
  }

  /** Until the wait is over the texts read only grow. */
  ghost predicate Growing(w: Wait, k: nat) {
    forall i: nat, j: nat :: i <= j <= k && w.read(i).Some? && w.read(j).Some? ==>
      w.read(i).value.text <= w.read(j).value.text
  }

  /** On a growing log nothing acceptable is lost: the outcome extends every acceptable reading made. */
  lemma {:induction false} OutcomeExtendsReadings(w: Wait, k: nat, i: nat)
    requires Growing(w, k) && i <= k && w.read(i).Some? && w.Acceptable(w.read(i).value)
    requires w.Outcome(k).Recovered?
    ensures w.read(i).value.text <= w.Outcome(k).text && !Blank(w.Outcome(k).text)
  {
    BestAfter(w, k + 1, i);
    if w.Answered(k) {
      NonBlankExtends(w.read(i).value.text, w.read(k).value.text);
    }
  }

  lemma {:induction false} BestAfter(w: Wait, n: nat, i: nat)
    requires n > 0 && Growing(w, n - 1) && i < n && w.read(i).Some? && w.Acceptable(w.read(i).value)
    ensures w.Best(n).Some? && !Blank(w.Best(n).value.text)
    ensures w.read(i).value.text <= w.Best(n).value.text
  {
    if w.Best(n) == w.Best(n - 1) && i < n - 1 {
      BestAfter(w, n - 1, i);
    }
  }

  /** An acceptable reading is lost, the outcome being blank, if and only if the read that ends the wait finds a
      complete reply that is late enough but blank: that of a turn the user began meanwhile. */
  lemma ReadingLostIff(w: Wait, k: nat, i: nat)
    requires i <= k && w.read(i).Some? && w.Acceptable(w.read(i).value) && w.Outcome(k).Recovered?
    ensures Blank(w.Outcome(k).text) <==>
      w.read(k).Some? && w.read(k).value.complete && w.Later(w.read(k).value) && Blank(w.read(k).value.text)
  {
    BestExists(w, k + 1, i);
    BestIsARead(w, k + 1);
  }

  lemma {:induction false} BestExists(w: Wait, n: nat, i: nat)
    requires i < n && w.read(i).Some? && w.Acceptable(w.read(i).value)
    ensures w.Best(n).Some?
  {
    if i < n - 1 {
      BestExists(w, n - 1, i);
    }
  }

  /** A reply was read that is not blank and, if the user's message is dated, later than that. */
  predicate Usable(w: Wait, i: nat) {
    w.read(i).Some? && !Blank(w.read(i).value.text) && (w.floor > 0 ==> w.read(i).value.timestamp > w.floor)
  }

  ghost predicate LastUsable(w: Wait, i: nat, n: nat) {
    i < n && Usable(w, i) && forall j :: i < j < n ==> !Usable(w, j)
  }

  lemma {:induction false} BestIsLastUsable(w: Wait, n: nat)
    ensures w.Best(n).None? <==> forall i: nat :: i < n ==> !Usable(w, i)
    ensures forall i: nat :: LastUsable(w, i, n) ==> w.Best(n) == w.read(i)
  {
    if n > 0 {
      BestIsLastUsable(w, n - 1);
      assert Usable(w, n - 1) <==> w.read(n - 1).Some? && w.Acceptable(w.read(n - 1).value);
      forall i: nat | LastUsable(w, i, n) ensures w.Best(n) == w.read(i) {
        assert i < n - 1 ==> LastUsable(w, i, n - 1) && !Usable(w, n - 1);
      }
    }
  }

  /** The read finds a complete reply that is late enough, and some usable one has been read by then. */
  ghost predicate Completed(w: Wait, k: nat) {
    && w.read(k).Some? && w.read(k).value.complete && (w.floor > 0 ==> w.read(k).value.timestamp > w.floor)
    && exists i: nat :: i <= k && Usable(w, i)
  }

  /** When the wait is over, and what it then gives: the complete reply, or at the deadline the last usable one, if
      there is one; an error if the log cannot be read or the wait is cancelled. */
  lemma OutcomeIs(w: Wait, k: nat)
    ensures w.Over(k) <==> w.read(k).None? || Completed(w, k) || w.now(k) > w.deadline || w.cancelled(k)
    ensures w.read(k).None? ==> w.Outcome(k) == LookupFailed
    ensures Completed(w, k) ==> w.Outcome(k) == Recovered(w.read(k).value.text, w.read(k).value.attachments)
    ensures w.read(k).Some? && !Completed(w, k) && w.now(k) <= w.deadline ==> w.Outcome(k) == LookupFailed
    ensures w.read(k).Some? && !Completed(w, k) && w.now(k) > w.deadline ==>
      && ((forall i: nat :: i <= k ==> !Usable(w, i)) ==> w.Outcome(k) == Recovered("", []))
      && forall i: nat :: LastUsable(w, i, k + 1) ==>
        w.Outcome(k) == Recovered(w.read(i).value.text, w.read(i).value.attachments)
  {
    BestIsLastUsable(w, k + 1);
    assert Completed(w, k) <==> w.Answered(k);
  }

  /** Polling real logs gives the collector a recovery it can rely on. */
  lemma PolledRecoveryIsSound(libs: Libs, w: Wait, k: nat)
    requires forall i: nat :: w.read(i).Some? ==> SoundReading(libs, w.read(i).value)
    ensures w.Outcome(k).Recovered? ==>
      Tight(w.Outcome(k).text, IsNewline) && AllFromRefs(libs, w.Outcome(k).attachments)
  {
    BestIsARead(w, k + 1);
  }

  /** If the streamed text is what the log's last turn said at some moment, a recovery from the same turn later on
      gives exactly the transcript's text. */
  lemma StreamedPartIsCompleted(libs: Libs, earlier: seq<Line>, later: seq<Line>, snapshot: string)
    requires Grows(earlier, later) && NoNewUser(libs, earlier, later)
    requires !Blank(LastTurnReply(Marks(libs, earlier)).text)
    ensures var streamed, t := LastTurnReply(Marks(libs, earlier)).text, LastTurnReply(Marks(libs, later)).text;
      !Blank(t) && FinalText(streamed, snapshot, Some(t)) == t
  {
    ReplyGrows(libs, earlier, later);
    NonBlankExtends(LastTurnReply(Marks(libs, earlier)).text, LastTurnReply(Marks(libs, later)).text);
    FinalTextIsTranscript(LastTurnReply(Marks(libs, earlier)).text, snapshot, LastTurnReply(Marks(libs, later)).text);
  }
}
