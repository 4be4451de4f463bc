/** What a finished turn looks like: its text, its chunks, its attachments. */
module TurnEnd {
  import opened GoText
  import opened Json
  import opened Attachments
  import opened Protocol
  import opened ChatEvents
  import opened ReplyText
  import opened Collector
  import opened CollectorRuns

  // ---------- the text ----------

  /** What the chunks of a turn add up to, from the streamed text `a`, the snapshot `s` and the transcript `t`. */
  function FinalText(a: string, s: string, t: Option<string>): string {
    match t
    case None =>
      if a == "" then s
      else if Blank(a) then a
      else IncrementalReplyText(a, s).text
    case Some(t) =>
      if !Blank(a) then (if a <= t then t else a + t + t)
      else if Blank(s) then (if a == "" then t else a)
      else if t == s then (if a == "" then t else a)
      else if s <= t then a + t[|s|..]
      else a + t + t
  }

  /** The transcript gives a usable text: one that neither begins nor ends with a newline. */
  ghost predicate SoundRecovery(libs: Libs, world: World) {
    forall id, floor :: world.lookup(id, floor).Recovered? ==>
      && Tight(world.lookup(id, floor).text, IsNewline)
      && AllFromRefs(libs, world.lookup(id, floor).attachments)
  }

  function UsedText(st: Turn, world: World): Option<string> {
    match UsedTranscript(st, world)
    case None => None
    case Some(r) => Some(r.text)
  }

  /** Numbered, open chunks whose texts add up to `text`. */
  ghost predicate Open(scope: Scope, st: Turn, text: string) {
    && st.chunkSeq == |st.replies|
    && (forall i :: 0 <= i < |st.replies| ==> st.replies[i] == Chunk(scope, st.replies[i].text, i + 1))
    && FullText(st.replies) == text
  }

  lemma EmitOpen(scope: Scope, st: Turn, text: string, chunk: string)
    requires Open(scope, st, text)
    ensures Open(scope, Emit(scope, st, chunk), text + chunk)
    ensures st.replies <= Emit(scope, st, chunk).replies
  {
    if chunk == "" {
      assert text + "" == text;
    } else {
      FullTextAppend(st.replies, Chunk(scope, chunk, st.chunkSeq + 1));
    }
  }

  lemma OneChunk(scope: Scope, text: string)
    ensures FullText([Chunk(scope, text, 1)]) == text
  {
    assert Texts([Chunk(scope, text, 1)]) == [text];
    assert Concat([text]) == text + "";
  }

  lemma EmptyStream(replies: seq<ChatReply>)
    requires replies == []
    ensures FullText(replies) == ""
  {
    assert Texts(replies) == [];
  }

  /** Flushing a snapshot after the transcript has been merged into `base`. */
  lemma FlushOpen(scope: Scope, st: Turn, text: string)
    requires Open(scope, st, text) && st.snapshot != "" && Tight(st.snapshot, IsNewline)
    requires st.replies == [] ==> text == ""
    ensures var flushed := FlushSnapshot(scope, st);
      && st.replies <= flushed.replies
      && Open(scope, flushed,
              if st.replies == [] then st.snapshot
              else if Blank(st.assembled) then text
              else text + IncrementalReplyText(st.assembled, st.snapshot).chunk)
  {
    if st.replies == [] {
      OneChunk(scope, st.snapshot);
    } else if !Blank(st.assembled) {
      var merge := IncrementalReplyText(st.assembled, st.snapshot);
      EmitOpen(scope, st.(assembled := merge.text), text, merge.chunk);
    }
  }

  /** The same text twice: once merged into `base`, once more unless it is then all there is. */
  lemma MergeTwice(base: string, t: string)
    requires !Blank(base) && !Blank(t) && Tight(t, IsNewline)
    ensures var first := IncrementalReplyText(base, t);
      var second := IncrementalReplyText(first.text, t);
      && !Blank(first.text)
      && (base <= t ==> first.chunk == t[|base|..] && second.chunk == "")
      && (!(base <= t) ==> first.chunk == t && second.chunk == t)
  {
    TrimFixed(t, IsNewline);
    var first := IncrementalReplyText(base, t);
    if t == base {
      assert t[|base|..] == "";
    } else if base <= t {
      NonBlankExtends(base, t);
    } else {
      NonBlankExtends(base, base + t);
      assert |base + t| > |t|;
    }
  }

  lemma TakeTranscriptOpen(libs: Libs, scope: Scope, st: Turn, t: string, found: seq<Attachment>)
    requires Streaming(libs, scope, st) && !Blank(t) && Tight(t, IsNewline)
    ensures var flushed := FlushSnapshot(scope, TakeTranscript(scope, st, t, found));
      && Open(scope, flushed, FinalText(st.assembled, st.snapshot, Some(t)))
      && st.replies <= flushed.replies
  {
    var with := st.(attachments := Dedup(st.attachments + found));
    var base := if Blank(st.assembled) then st.snapshot else st.assembled;
    if st.replies == [] { EmptyStream(st.replies); } else { ChunksNonEmpty(libs, scope, st); }
    assert t != "" by { BlankChars(t); }
    if Blank(base) {
      FlushOpen(scope, with.(snapshot := t, verified := true), st.assembled);
    } else {
      var merge := IncrementalReplyText(base, t);
      var merged := with.(assembled := merge.text, snapshot := t, verified := true);
      var second := IncrementalReplyText(merge.text, t).chunk;
      MergeTwice(base, t);
      EmitOpen(scope, merged, st.assembled, merge.chunk);
      FlushOpen(scope, Emit(scope, merged, merge.chunk), st.assembled + merge.chunk);
      MergedTwiceText(st.assembled, st.snapshot, t, base);
    }
  }

  lemma MergedTwiceText(a: string, s: string, t: string, base: string)
    requires base == (if Blank(a) then s else a) && !Blank(base) && !Blank(t) && Tight(t, IsNewline)
    ensures var merge := IncrementalReplyText(base, t);
      var second := IncrementalReplyText(merge.text, t).chunk;
      && a + merge.chunk + second == (if a == "" && merge.chunk == "" then "" else FinalText(a, s, Some(t)))
      && (a == "" && merge.chunk == "" ==> FinalText(a, s, Some(t)) == t)
  {
    MergeTwice(base, t);
    var merge := IncrementalReplyText(base, t);
    BlankChars("");
    if base <= t {
      assert t == base + t[|base|..];
      assert a + t[|base|..] + "" == a + t[|base|..];
    }
  }

  lemma ChunksNonEmpty(libs: Libs, scope: Scope, st: Turn)
    requires Streaming(libs, scope, st) && st.replies != []
    ensures st.assembled != ""
  {
    assert Texts(st.replies)[0] != "";
  }

  /** The text of a turn, in every case; and no streamed chunk is taken back. */
  lemma SettledText(libs: Libs, scope: Scope, st: Turn, world: World)
    requires Streaming(libs, scope, st) && SoundRecovery(libs, world)
    ensures var settled := Settle(scope, st, world);
      && FullText(settled.replies) == FinalText(st.assembled, st.snapshot, UsedText(st, world))
      && st.replies <= settled.replies
      && settled.replies != []
      && forall i :: 0 <= i < |settled.replies| ==> settled.replies[i] == Chunk(scope, settled.replies[i].text, i + 1)
  {
    if st.replies == [] { EmptyStream(st.replies); } else { ChunksNonEmpty(libs, scope, st); }
    match UsedTranscript(st, world) {
      case Some(r) => TakeTranscriptOpen(libs, scope, st, r.text, r.attachments);
      case None =>
        if st.snapshot != "" {
          FlushOpen(scope, st, st.assembled);
        } else {
          assert IncrementalReplyText(st.assembled, "").text == st.assembled;
        }
    }
    OneChunk(scope, "");
  }

  /** The text is the transcript's exactly when the transcript extends what was streamed, or nothing was
      streamed and no other snapshot is held. */
  lemma FinalTextIsTranscript(a: string, s: string, t: string)
    requires !Blank(t)
    ensures FinalText(a, s, Some(t)) == t <==>
      (!Blank(a) && a <= t) || (a == "" && (Blank(s) || s == t))
  {
    BlankChars("");
    if Blank(s) { BlankChars(s); }
    if !Blank(a) && !(a <= t) {
      assert |a + t + t| > |t|;
    } else if Blank(a) && !Blank(s) && t != s && s <= t {
      BlankPrefix(a, s, t);
    } else if Blank(a) && !Blank(s) && t != s {
      assert |a + t + t| > |t|;
    }
  }

  /** A blank text in front of what `s` leaves of `t` does not give `t` back. */
  lemma BlankPrefix(a: string, s: string, t: string)
    requires Blank(a) && !Blank(s) && s <= t
    ensures a + t[|s|..] != t
  {
    if |a| == |s| {
      assert t[..|s|] == s;
      assert (a + t[|s|..])[..|s|] == a;
    }
  }

  /** Without a transcript it is the snapshot if nothing was streamed or the snapshot extends it, both one after the
      other if it does not, and a blank streamed text hides the snapshot. */
  lemma FinalTextWithoutTranscript(a: string, s: string)
    requires Tight(s, IsNewline)
    ensures FinalText(a, s, None) ==
      if a == "" then s
      else if Blank(a) || s == "" then a
      else if a <= s then s
      else a + s
  {
    TrimFixed(s, IsNewline);
  }

  /** Three inputs on which the transcript is sent twice, sent without its beginning, or not sent at all. */
  lemma TranscriptMishaps()
    ensures FinalText("ab", "", Some("xy")) == "abxyxy"
    ensures FinalText("", "ab", Some("abc")) == "c"
    ensures FinalText(" ", "", Some("xy")) == " "
  {
    BlankChars("ab"); BlankChars(" "); BlankChars("");
    assert 'a' in "ab" && !IsSpace('a');
    assert "abc"[2..] == "c";
  }

  // ---------- the chunks ----------

  ghost predicate Numbered(scope: Scope, st: Turn) {
    && st.chunkSeq == |st.replies|
    && forall i :: 0 <= i < |st.replies| ==> st.replies[i] == Chunk(scope, st.replies[i].text, i + 1)
  }

  lemma EmitNumbers(scope: Scope, st: Turn, text: string)
    requires Numbered(scope, st)
    ensures Numbered(scope, Emit(scope, st, text))
  {}

  lemma TakeTranscriptNumbers(scope: Scope, st: Turn, text: string, found: seq<Attachment>)
    requires Numbered(scope, st)
    ensures Numbered(scope, TakeTranscript(scope, st, text, found))
  {
    var base := if Blank(st.assembled) then st.snapshot else st.assembled;
    var merge := IncrementalReplyText(base, text);
    EmitNumbers(scope, st.(attachments := Dedup(st.attachments + found), assembled := merge.text,
                           snapshot := text, verified := true), merge.chunk);
  }

  lemma FlushNumbers(scope: Scope, st: Turn)
    requires Numbered(scope, st)
    ensures Numbered(scope, FlushSnapshot(scope, st))
  {
    var merge := IncrementalReplyText(st.assembled, st.snapshot);
    EmitNumbers(scope, st.(assembled := merge.text), merge.chunk);
  }

  lemma SettleNumbers(scope: Scope, st: Turn, world: World)
    requires Numbered(scope, st)
    ensures Numbered(scope, Settle(scope, st, world)) && Settle(scope, st, world).replies != []
  {
    match UsedTranscript(st, world)
    case None => FlushNumbers(scope, st);
    case Some(r) =>
      TakeTranscriptNumbers(scope, st, r.text, r.attachments);
      FlushNumbers(scope, TakeTranscript(scope, st, r.text, r.attachments));
  }

  /** How sealing changes the last chunk: it stays what it is, except that it ends the turn; "stop" is
      only claimed when there is something to show, and without attachments the text is kept. */
  ghost predicate Sealed(last: ChatReply, r: ChatReply, uploaded: seq<Attachment>) {
    && r == last.(text := r.text, isFinal := true, isEnd := true, finishReason := r.finishReason,
                  errorCode := r.errorCode, errorMessage := r.errorMessage, attachments := uploaded)
    && r.finishReason != NoReason
    && (r.finishReason == Stop ==> Summary(uploaded).None? && (!Blank(r.text) || uploaded != []))
    && (Summary(uploaded).Some? ==> r.finishReason == Error)
    && (uploaded == [] ==> r.text == last.text)
  }

  lemma SealedChunk(libs: Libs, last: ChatReply, m: Object, uploaded: seq<Attachment>)
    requires last.attachments == []
    ensures Sealed(last, SealChunk(libs, last, m, uploaded), uploaded)
  {
    var ended := last.(isFinal := true, isEnd := true, finishReason := FinishReason(m));
    var shown := WithAttachments(libs, ended, uploaded);
    assert shown.attachments == uploaded;
    var judged := WithMissingReply(shown);
    assert Sealed(last, judged, uploaded);
  }

  /** A finished collection is one closed stream of this request's chunks. */
  ghost predicate FinishedStream(scope: Scope, rs: seq<ChatReply>) {
    && ClosedStream(rs)
    && (forall i :: 0 <= i < |rs| ==>
          rs[i].requestMsgID == scope.msgID && rs[i].runID == scope.runID && rs[i].role == "assistant")
    && (forall i :: 0 <= i < |rs| - 1 ==> rs[i] == Chunk(scope, rs[i].text, i + 1))
    && var last := rs[|rs| - 1];
       && last.finishReason != NoReason
       && (last.finishReason == Stop ==> !Blank(last.text) || last.attachments != [])
  }

  lemma ConcludeStream(libs: Libs, scope: Scope, st: Turn, m: Object, world: World)
    requires Numbered(scope, st)
    ensures FinishedStream(scope, Conclude(libs, scope, st, m, world))
  {
    SettleNumbers(scope, st, world);
    var settled := Settle(scope, st, world);
    var last, uploaded := |settled.replies| - 1, UploadAll(settled.attachments, world.backend);
    SealStream(libs, scope, settled, m, uploaded);
    assert Conclude(libs, scope, st, m, world) ==
      settled.replies[last := SealChunk(libs, settled.replies[last], m, uploaded)];
  }

  lemma SealStream(libs: Libs, scope: Scope, settled: Turn, m: Object, uploaded: seq<Attachment>)
    requires Numbered(scope, settled) && settled.replies != []
    ensures var last := |settled.replies| - 1;
      FinishedStream(scope, settled.replies[last := SealChunk(libs, settled.replies[last], m, uploaded)])
  {
    SealedChunk(libs, settled.replies[|settled.replies| - 1], m, uploaded);
  }

  function FirstWhere<T>(xs: seq<T>, p: T -> bool): (n: nat)
    ensures n <= |xs|
    ensures n < |xs| ==> p(xs[n])
    ensures forall i :: 0 <= i < n ==> !p(xs[i])
  {
    if xs == [] || p(xs[0]) then 0
    else
      var n := FirstWhere(xs[1..], p);
      assert forall i :: 0 < i < n + 1 ==> xs[i] == xs[1..][i - 1];
      n + 1
  }

  /** The position of the first frame that ends the turn. */
  function FirstEnd(scope: Scope, frames: seq<Frame>): (n: nat)
    ensures n <= |frames|
    ensures n < |frames| ==> EndsTurn(scope, frames[n])
    ensures forall i :: 0 <= i < n ==> !EndsTurn(scope, frames[i])
  {
    FirstWhere(frames, f => EndsTurn(scope, f))
  }

  /** Every collection either loses the connection before any frame ends the turn, or finishes with a closed
      stream. */
  lemma CollectedStream(libs: Libs, scope: Scope, world: World, frames: seq<Frame>)
    ensures var out := Collect(libs, scope, world, START, frames);
      && (out.Finished? <==> FirstEnd(scope, frames) < |frames|)
      && (out.Finished? ==> FinishedStream(scope, out.replies))
  {
    var n := FirstEnd(scope, frames);
    CollectAtFirstTerminal(libs, scope, world, frames, n);
    if n < |frames| {
      var st := At(libs, scope, frames, n + 1);
      assert Numbered(scope, st) by {
        StartStreams(libs, scope);
        ObserveKeepsStreaming(libs, scope, START, frames[..n + 1]);
      }
      ConcludeStream(libs, scope, st, EventOf(scope, frames[n]).value.payload, world);
    }
  }

  /** The text of a whole turn, from the first frame that ends it: the chunks streamed up to then are sent as
      they are, and everything sent adds up to FinalText; attachments only touch the last chunk. */
  lemma TurnText(libs: Libs, scope: Scope, world: World, frames: seq<Frame>, n: nat)
    requires SoundRecovery(libs, world)
    requires n == FirstEnd(scope, frames) < |frames|
    ensures
      var st := At(libs, scope, frames, n + 1);
      var settled := Settle(scope, st, world).replies;
      var rs := Collect(libs, scope, world, START, frames).replies;
      && FullText(settled) == FinalText(st.assembled, st.snapshot, UsedText(st, world))
      && FullText(st.replies) == st.assembled == Assemble("", Deltas(scope, frames[..n + 1]))
      && st.replies <= settled
      && |rs| == |settled| && rs[..|rs| - 1] == settled[..|rs| - 1]
      && (Settle(scope, st, world).attachments == [] ==> FullText(rs) == FullText(settled))
  {
    var st := At(libs, scope, frames, n + 1);
    StartStreams(libs, scope);
    ObserveKeepsStreaming(libs, scope, START, frames[..n + 1]);
    AssembledFromDeltas(libs, scope, START, frames[..n + 1]);
    SettledText(libs, scope, st, world);
    CollectAtFirstTerminal(libs, scope, world, frames, n);
    ConcludedText(libs, scope, st, EventOf(scope, frames[n]).value.payload, world);
  }

  lemma ConcludedText(libs: Libs, scope: Scope, st: Turn, m: Object, world: World)
    requires Numbered(scope, st)
    ensures var settled := Settle(scope, st, world); var rs := Conclude(libs, scope, st, m, world);
      && |rs| == |settled.replies| > 0
      && rs[..|rs| - 1] == settled.replies[..|rs| - 1]
      && rs[|rs| - 1].attachments == UploadAll(settled.attachments, world.backend)
      && (settled.attachments == [] ==> FullText(rs) == FullText(settled.replies))
  {
    SettleNumbers(scope, st, world);
    var settled := Settle(scope, st, world);
    SealedText(libs, scope, settled, m, UploadAll(settled.attachments, world.backend));
  }

  lemma SealedText(libs: Libs, scope: Scope, settled: Turn, m: Object, uploaded: seq<Attachment>)
    requires Numbered(scope, settled) && settled.replies != []
    ensures var last := |settled.replies| - 1;
      var rs := settled.replies[last := SealChunk(libs, settled.replies[last], m, uploaded)];
      && rs[last].attachments == uploaded
      && (uploaded == [] ==> FullText(rs) == FullText(settled.replies))
  {
    var last := |settled.replies| - 1;
    SealedChunk(libs, settled.replies[last], m, uploaded);
    var r := SealChunk(libs, settled.replies[last], m, uploaded);
    if uploaded == [] {
      SameFullText(settled.replies, last, r);
    }
  }

  lemma SameFullText(rs: seq<ChatReply>, i: nat, r: ChatReply)
    requires i < |rs| && r.text == rs[i].text
    ensures FullText(rs[i := r]) == FullText(rs)
  {
    assert Texts(rs[i := r]) == Texts(rs);
  }

  /** The last chunk carries all of the items, each once, as uploaded; they come from references. */
  ghost predicate CarriesAll(libs: Libs, rs: seq<ChatReply>, all: seq<Attachment>, backend: Attachment -> Exchange) {
    rs != [] && rs[|rs| - 1].attachments == UploadAll(Dedup(all), backend) && AllFromRefs(libs, Dedup(all))
  }

  /** What the transcript brings, if it is used. */
  function FoundIn(st: Turn, world: World): seq<Attachment> {
    match UsedTranscript(st, world) case None => [] case Some(r) => r.attachments
  }

  /** What the events up to the n-th and the transcript bring. */
  function AllOfTurn(libs: Libs, scope: Scope, world: World, frames: seq<Frame>, n: nat): seq<Attachment>
    requires n <= |frames|
  {
    AllBrought(libs, scope, START, frames[..n]) + FoundIn(At(libs, scope, frames, n), world)
  }

  /** The attachments of a turn are all references brought by its events and its transcript, each once; the
      last chunk carries them as uploaded. */
  lemma TurnAttachments(libs: Libs, scope: Scope, world: World, frames: seq<Frame>, n: nat)
    requires SoundRecovery(libs, world)
    requires n == FirstEnd(scope, frames) < |frames|
    ensures CarriesAll(libs, Collect(libs, scope, world, START, frames).replies,
      AllOfTurn(libs, scope, world, frames, n + 1), world.backend)
  {
    var st := At(libs, scope, frames, n + 1);
    CollectedIs(libs, scope, world, frames, n, st);
    BroughtByThen(libs, scope, frames, n + 1);
    AttachmentsOfTurn(libs, scope, st, EventOf(scope, frames[n]).value.payload, world,
      AllBrought(libs, scope, START, frames[..n + 1]), FoundIn(st, world));
  }

  lemma CollectedIs(libs: Libs, scope: Scope, world: World, frames: seq<Frame>, n: nat, st: Turn)
    requires n == FirstEnd(scope, frames) < |frames| && st == At(libs, scope, frames, n + 1)
    ensures Collect(libs, scope, world, START, frames) ==
      Finished(Conclude(libs, scope, st, EventOf(scope, frames[n]).value.payload, world))
  {
    CollectAtFirstTerminal(libs, scope, world, frames, n);
  }

  lemma AttachmentsOfTurn(libs: Libs, scope: Scope, st: Turn, m: Object, world: World, brought: seq<Attachment>,
      found: seq<Attachment>)
    requires Streaming(libs, scope, st) && SoundRecovery(libs, world) && st.attachments == Dedup(brought)
    requires found == FoundIn(st, world)
    ensures CarriesAll(libs, Conclude(libs, scope, st, m, world), brought + found, world.backend)
  {
    ConcludedText(libs, scope, st, m, world);
    DedupIncremental(brought, found);
    AddAttachments(libs, st.attachments, found);
    SettleAttachments(scope, st, world, found);
  }

  lemma BroughtByThen(libs: Libs, scope: Scope, frames: seq<Frame>, n: nat)
    requires n <= |frames|
    ensures var st := At(libs, scope, frames, n);
      && Streaming(libs, scope, st)
      && st.attachments == Dedup(AllBrought(libs, scope, START, frames[..n]))
  {
    StartStreams(libs, scope);
    ObserveKeepsStreaming(libs, scope, START, frames[..n]);
    AttachmentsOfRun(libs, scope, START, frames[..n]);
    assert [] + AllBrought(libs, scope, START, frames[..n]) == AllBrought(libs, scope, START, frames[..n]);
  }

  lemma SettleAttachments(scope: Scope, st: Turn, world: World, found: seq<Attachment>)
    requires found == FoundIn(st, world)
    requires Dedup(st.attachments) == st.attachments
    ensures Settle(scope, st, world).attachments == Dedup(st.attachments + found)
  {
    assert st.attachments + [] == st.attachments;
  }
}
