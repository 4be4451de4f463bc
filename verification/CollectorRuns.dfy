/** What holds over whole runs of the turn collector. */
module CollectorRuns {
  import opened GoText
  import opened Json
  import opened Attachments
  import opened Protocol
  import opened ChatEvents
  import opened ReplyText
  import opened Collector

  // ---------- runs ----------

  lemma {:induction false} ObserveAppend(libs: Libs, scope: Scope, st: Turn, a: seq<Frame>, b: seq<Frame>)
    ensures Observe(libs, scope, st, a + b) == Observe(libs, scope, Observe(libs, scope, st, a), b)
    decreases |a|
  {
    if a == [] {
      assert a + b == b;
    } else {
      assert (a + b)[1..] == a[1..] + b;
      match EventOf(scope, a[0]) {
        case None => ObserveAppend(libs, scope, st, a[1..], b);
        case Some(ev) => ObserveAppend(libs, scope, Absorb(libs, scope, st, ev.payload), a[1..], b);
      }
    }
  }

  function At(libs: Libs, scope: Scope, frames: seq<Frame>, n: nat): Turn
    requires n <= |frames|
  {
    Observe(libs, scope, START, frames[..n])
  }

  lemma AtStep(libs: Libs, scope: Scope, frames: seq<Frame>, n: nat)
    requires n < |frames|
    ensures At(libs, scope, frames, n + 1) ==
      match EventOf(scope, frames[n])
      case None => At(libs, scope, frames, n)
      case Some(ev) => Absorb(libs, scope, At(libs, scope, frames, n), ev.payload)
  {
    assert frames[..n + 1] == frames[..n] + [frames[n]];
    ObserveAppend(libs, scope, START, frames[..n], [frames[n]]);
  }

  predicate EndsTurn(scope: Scope, frame: Frame) {
    EventOf(scope, frame).Some? && IsTerminal(EventOf(scope, frame).value)
  }

  /** The collection is decided by the first frame that ends the turn and the state it finds;
      nothing after that frame is looked at. */
  lemma {:induction false} CollectAtFirstTerminal(libs: Libs, scope: Scope, world: World, frames: seq<Frame>, n: nat)
    requires n <= |frames| && forall i :: 0 <= i < n ==> !EndsTurn(scope, frames[i])
    ensures n == |frames| ==>
      Collect(libs, scope, world, START, frames) == Lost(At(libs, scope, frames, n).replies)
    ensures n < |frames| && EndsTurn(scope, frames[n]) ==>
      Collect(libs, scope, world, START, frames) ==
        Finished(Conclude(libs, scope, At(libs, scope, frames, n + 1), EventOf(scope, frames[n]).value.payload, world))
  {
    CollectSkips(libs, scope, world, START, frames, n);
    if n < |frames| {
      AtStep(libs, scope, frames, n);
    }
  }

  lemma {:induction false} CollectSkips(libs: Libs, scope: Scope, world: World, st: Turn, frames: seq<Frame>, n: nat)
    requires n <= |frames| && forall i :: 0 <= i < n ==> !EndsTurn(scope, frames[i])
    ensures Collect(libs, scope, world, st, frames) ==
      Collect(libs, scope, world, Observe(libs, scope, st, frames[..n]), frames[n..])
    decreases n
  {
    if n > 0 {
      assert frames[..n][1..] == frames[1..][..n - 1] && frames[1..][n - 1..] == frames[n..];
      match EventOf(scope, frames[0]) {
        case None => CollectSkips(libs, scope, world, st, frames[1..], n - 1);
        case Some(ev) => CollectSkips(libs, scope, world, Absorb(libs, scope, st, ev.payload), frames[1..], n - 1);
      }
    } else {
      assert frames[0..] == frames;
    }
  }

  // ---------- irrelevant frames ----------

  function Relevant(scope: Scope, frames: seq<Frame>): seq<Frame> {
    if frames == [] then []
    else if EventOf(scope, frames[0]).None? then Relevant(scope, frames[1..])
    else [frames[0]] + Relevant(scope, frames[1..])
  }

  /** Undecodable, control, foreign and non-chat frames, wherever they come in, change nothing. */
  lemma {:induction false} IrrelevantFramesChangeNothing(libs: Libs, scope: Scope, world: World, st: Turn,
      frames: seq<Frame>)
    ensures Collect(libs, scope, world, st, frames) == Collect(libs, scope, world, st, Relevant(scope, frames))
    ensures Observe(libs, scope, st, frames) == Observe(libs, scope, st, Relevant(scope, frames))
    decreases |frames|
  {
    if frames != [] {
      match EventOf(scope, frames[0]) {
        case None => IrrelevantFramesChangeNothing(libs, scope, world, st, frames[1..]);
        case Some(ev) =>
          var kept := Relevant(scope, frames);
          assert kept[1..] == Relevant(scope, frames[1..]);
          IrrelevantFramesChangeNothing(libs, scope, world, Absorb(libs, scope, st, ev.payload), frames[1..]);
      }
    }
  }

  // ---------- freshness ----------

  /** The user time a frame brings, 0 if none. */
  function UserTime(libs: Libs, scope: Scope, frame: Frame): int {
    match EventOf(scope, frame)
    case None => 0
    case Some(ev) => UserTimestamp(libs, ev.payload)
  }

  lemma FloorStep(libs: Libs, scope: Scope, frames: seq<Frame>, n: nat)
    requires n < |frames|
    ensures var before := At(libs, scope, frames, n).floor;
      before >= 0 ==> At(libs, scope, frames, n + 1).floor == Max(before, UserTime(libs, scope, frames[n]))
  {
    AtStep(libs, scope, frames, n);
  }

  function UserTimes(libs: Libs, scope: Scope, frames: seq<Frame>): seq<int> {
    seq(|frames|, i requires 0 <= i < |frames| => UserTime(libs, scope, frames[i]))
  }

  ghost predicate IsLatest(times: seq<int>, latest: int) {
    latest >= 0 && (forall t :: t in times ==> t <= latest) && (latest == 0 || latest in times)
  }

  function Max(a: int, b: int): int { if b > a then b else a }

  ghost predicate RunningMax(times: seq<int>, floors: seq<int>) {
    && |floors| == |times| + 1 && floors[0] == 0
    && forall k :: 0 <= k < |times| && floors[k] >= 0 ==> floors[k + 1] == Max(floors[k], times[k])
  }

  lemma {:induction false} RunningMaxIsLatest(times: seq<int>, floors: seq<int>, i: nat, j: nat)
    requires RunningMax(times, floors) && i <= j <= |times|
    ensures floors[i] <= floors[j] && IsLatest(times[..j], floors[j])
    decreases j
  {
    if j > 0 {
      RunningMaxIsLatest(times, floors, if i < j then i else j - 1, j - 1);
      assert floors[j - 1 + 1] == Max(floors[j - 1], times[j - 1]);
      assert times[..j] == times[..j - 1] + [times[j - 1]];
    }
  }

  function Floors(libs: Libs, scope: Scope, frames: seq<Frame>): seq<int> {
    seq(|frames| + 1, k requires 0 <= k <= |frames| => At(libs, scope, frames, k).floor)
  }

  /** The timestamp floor never decreases: it is the latest user time seen so far, or 0. */
  lemma FloorRises(libs: Libs, scope: Scope, frames: seq<Frame>, i: nat, j: nat)
    requires i <= j <= |frames|
    ensures 0 <= At(libs, scope, frames, i).floor <= At(libs, scope, frames, j).floor
    ensures IsLatest(UserTimes(libs, scope, frames)[..j], At(libs, scope, frames, j).floor)
  {
    var times, floors := UserTimes(libs, scope, frames), Floors(libs, scope, frames);
    forall k | 0 <= k < |times| && floors[k] >= 0 ensures floors[k + 1] == Max(floors[k], times[k]) {
      FloorStep(libs, scope, frames, k);
    }
    RunningMaxIsLatest(times, floors, 0, i);
    RunningMaxIsLatest(times, floors, i, j);
  }

  // ---------- attachments ----------

  function BroughtBy(libs: Libs, scope: Scope, st: Turn, m: Object): seq<Attachment> {
    Brought(libs, NoteText(libs, scope, NoteIdentifiers(libs, scope, st, m), m), m)
  }

  lemma AbsorbAttachments(libs: Libs, scope: Scope, st: Turn, m: Object)
    ensures Absorb(libs, scope, st, m).attachments == Dedup(st.attachments + BroughtBy(libs, scope, st, m))
  {}

  /** An event brings what it and the text known once it has been noted refer to: the snapshot, or else what has been
      streamed. */
  lemma BroughtAt(libs: Libs, scope: Scope, frames: seq<Frame>, k: nat)
    requires k < |frames| && EventOf(scope, frames[k]).Some?
    ensures var m, after := EventOf(scope, frames[k]).value.payload, At(libs, scope, frames, k + 1);
      BroughtBy(libs, scope, At(libs, scope, frames, k), m) ==
        Extract(libs, m, if after.snapshot != "" then after.snapshot else after.assembled)
  {
    AtStep(libs, scope, frames, k);
    NotedText(libs, scope, At(libs, scope, frames, k), EventOf(scope, frames[k]).value.payload);
  }

  lemma NotedText(libs: Libs, scope: Scope, st: Turn, m: Object)
    ensures var after := Absorb(libs, scope, st, m);
      BroughtBy(libs, scope, st, m) ==
        Extract(libs, m, if after.snapshot != "" then after.snapshot else after.assembled)
  {
  }

  /** Every attachment the run's events bring, in order. */
  function AllBrought(libs: Libs, scope: Scope, st: Turn, frames: seq<Frame>): seq<Attachment>
    decreases |frames|
  {
    if frames == [] then []
    else match EventOf(scope, frames[0])
      case None => AllBrought(libs, scope, st, frames[1..])
      case Some(ev) =>
        BroughtBy(libs, scope, st, ev.payload) +
        AllBrought(libs, scope, Absorb(libs, scope, st, ev.payload), frames[1..])
  }

  lemma DedupThread(a: seq<Attachment>, b: seq<Attachment>, c: seq<Attachment>)
    ensures Dedup(Dedup(a + b) + c) == Dedup(a + (b + c))
  {
    DedupIncremental(a + b, c);
    assert a + b + c == a + (b + c);
  }

  /** Deduplicating after each event gives what one deduplication of everything brought would give. */
  lemma {:induction false} AttachmentsOfRun(libs: Libs, scope: Scope, st: Turn, frames: seq<Frame>)
    requires Dedup(st.attachments) == st.attachments
    ensures Observe(libs, scope, st, frames).attachments ==
      Dedup(st.attachments + AllBrought(libs, scope, st, frames))
    decreases |frames|
  {
    if frames == [] {
      assert st.attachments + [] == st.attachments;
    } else {
      match EventOf(scope, frames[0]) {
        case None => AttachmentsOfRun(libs, scope, st, frames[1..]);
        case Some(ev) =>
          var m := ev.payload;
          var next, brought := Absorb(libs, scope, st, m), BroughtBy(libs, scope, st, m);
          var rest := AllBrought(libs, scope, next, frames[1..]);
          AbsorbAttachments(libs, scope, st, m);
          DedupIdempotent({}, st.attachments + brought);
          AttachmentsOfRun(libs, scope, next, frames[1..]);
          DedupThread(st.attachments, brought, rest);
          assert AllBrought(libs, scope, st, frames) == brought + rest;
      }
    }
  }

  // ---------- streamed text ----------

  /** The texts of the run's deltas, in order. */
  function Deltas(scope: Scope, frames: seq<Frame>): seq<string> {
    if frames == [] then []
    else match EventOf(scope, frames[0])
      case None => Deltas(scope, frames[1..])
      case Some(ev) =>
        (match ExtractChatText(ev.payload) case Delta(text) => [text] case _ => []) + Deltas(scope, frames[1..])
  }

  lemma {:induction false} AssembledFromDeltas(libs: Libs, scope: Scope, st: Turn, frames: seq<Frame>)
    ensures Observe(libs, scope, st, frames).assembled == Assemble(st.assembled, Deltas(scope, frames))
    decreases |frames|
  {
    if frames != [] {
      match EventOf(scope, frames[0]) {
        case None => AssembledFromDeltas(libs, scope, st, frames[1..]);
        case Some(ev) =>
          var next := Absorb(libs, scope, st, ev.payload);
          AssembledFromDeltas(libs, scope, next, frames[1..]);
          var all, rest := Deltas(scope, frames), Deltas(scope, frames[1..]);
          match ExtractChatText(ev.payload) {
            case Delta(text) =>
              assert all == [text] + rest && all[1..] == rest;
              assert next.assembled == IncrementalReplyText(st.assembled, text).text;
            case NoText => assert all == rest && next.assembled == st.assembled;
            case Snapshot(_) => assert all == rest && next.assembled == st.assembled;
          }
      }
    }
  }

  lemma StartStreams(libs: Libs, scope: Scope)
    ensures Streaming(libs, scope, START)
  {
    assert Texts(START.replies) == [];
  }

  /** If each delta of a run repeats the one before it, possibly extended, then both the assembled text and the
      chunks put together are the last delta without its surrounding newlines. */
  lemma CumulativeRun(libs: Libs, scope: Scope, frames: seq<Frame>)
    requires Deltas(scope, frames) != [] && Cumulative(Deltas(scope, frames))
    ensures var st := Observe(libs, scope, START, frames); var deltas := Deltas(scope, frames);
      FullText(st.replies) == st.assembled == TrimNewlines(deltas[|deltas| - 1])
  {
    StartStreams(libs, scope);
    ObserveKeepsStreaming(libs, scope, START, frames);
    AssembledFromDeltas(libs, scope, START, frames);
    CumulativeStream(Deltas(scope, frames));
  }

  /** If the deltas are increments, the chunks put together are the deltas put together exactly when no delta
      has a newline at an end or begins with everything before it. */
  lemma IncrementalRun(libs: Libs, scope: Scope, frames: seq<Frame>)
    ensures FullText(Observe(libs, scope, START, frames).replies) == Concat(Deltas(scope, frames)) <==>
      PlainIncrements("", Deltas(scope, frames))
  {
    StartStreams(libs, scope);
    ObserveKeepsStreaming(libs, scope, START, frames);
    AssembledFromDeltas(libs, scope, START, frames);
    IncrementalStream("", Deltas(scope, frames));
    assert "" + Concat(Deltas(scope, frames)) == Concat(Deltas(scope, frames));
  }
}
