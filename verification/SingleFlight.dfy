/** Any number of concurrent `Generate` calls: a mutex, a map of entries, and a done channel per entry, as a state
    machine over the steps a caller takes between two points where others can interfere. */
module SingleFlight {
  import opened Json
  import opened Protocol

  type Replies = seq<ChatReply>
  type Failure = Option<string>

  /** Where a caller is. An entry is named after the caller that creates it. */
  datatype PC =
    | Start
    | Refused
    | WantsLock
    | Locked
    | Found(entry: nat)
    | Waiting(entry: nat)
    | Reading(entry: nat)
    | Created
    | ToGenerate
    | Generating
    | WroteReplies(next: Failure)
    | WroteBoth
    | Closed
    | Returned(entry: nat, replies: Option<Replies>, failure: Option<Failure>)

  /** The two result fields, which are assigned one after the other, and how often the channel was closed. */
  datatype Entry = Entry(replies: Option<Replies>, failure: Option<Failure>, closes: nat)

  const NEW := Entry(None, None, 0)

  /** `starts[i]`: how often caller `i` started `generate`. */
  datatype State = State(
    lock: Option<nat>, results: map<string, nat>, entries: seq<Entry>, pcs: seq<PC>, starts: seq<nat>)

  /** One caller takes a step: what `Enabled` says and what `generate` returns, should it ask. */
  datatype Turn = Turn(caller: nat, enabled: bool, replies: Replies, failure: Failure)

  predicate Shaped(ids: seq<string>, s: State) { |s.entries| == |s.pcs| == |s.starts| == |ids| }

  function Init(ids: seq<string>): State {
    State(None, map[], seq(|ids|, i => NEW), seq(|ids|, i => Start), seq(|ids|, i => 0))
  }

  /** A caller that is blocked or has returned stays where it is. */
  function Step(ids: seq<string>, s: State, t: Turn): (r: State)
    requires Shaped(ids, s)
    ensures Shaped(ids, r)
  {
    var i := t.caller;
    if i >= |ids| then s
    else match s.pcs[i]
      case Start => Goto(s, i, if t.enabled then WantsLock else Refused)
      case WantsLock => if s.lock.None? then Goto(s, i, Locked).(lock := Some(i)) else s
      case Locked =>
        if ids[i] in s.results then Goto(s, i, Found(s.results[ids[i]]))
        else Goto(s, i, Created).(results := s.results[ids[i] := i], entries := s.entries[i := NEW])
      case Found(e) => Goto(s, i, Waiting(e)).(lock := None)
      case Created => Goto(s, i, ToGenerate).(lock := None)
      case ToGenerate => Goto(s, i, Generating).(starts := s.starts[i := s.starts[i] + 1])
      case Generating =>
        Goto(s, i, WroteReplies(t.failure)).(entries := s.entries[i := s.entries[i].(replies := Some(t.replies))])
      case WroteReplies(f) => Goto(s, i, WroteBoth).(entries := s.entries[i := s.entries[i].(failure := Some(f))])
      case WroteBoth => Goto(s, i, Closed).(entries := s.entries[i := s.entries[i].(closes := s.entries[i].closes + 1)])
      case Closed => Goto(s, i, Returned(i, s.entries[i].replies, s.entries[i].failure))
      case Waiting(e) => if e < |ids| && s.entries[e].closes > 0 then Goto(s, i, Reading(e)) else s
      case Reading(e) => if e < |ids| then Goto(s, i, Returned(e, s.entries[e].replies, s.entries[e].failure)) else s
      case Refused => s
      case Returned(_, _, _) => s
  }

  function Goto(s: State, i: nat, pc: PC): State
    requires i < |s.pcs|
  {
    s.(pcs := s.pcs[i := pc])
  }

  function Run(ids: seq<string>, s: State, turns: seq<Turn>): (r: State)
    requires Shaped(ids, s)
    ensures Shaped(ids, r)
    decreases |turns|
  {
    if turns == [] then s else Run(ids, Step(ids, s, turns[0]), turns[1..])
  }

  // ---------- what every step keeps ----------

  predicate HoldsLock(pc: PC) { pc.Locked? || pc.Found? || pc.Created? }

  predicate Owns(i: nat, pc: PC) {
    || pc.Created? || pc.ToGenerate? || pc.Generating? || pc.WroteReplies? || pc.WroteBoth? || pc.Closed?
    || (pc.Returned? && pc.entry == i)
  }

  /** How far an owner has got with its entry. */
  predicate EntryFits(i: nat, pc: PC, e: Entry, starts: nat) {
    if pc.WroteReplies? then e.replies.Some? && e.failure.None? && e.closes == 0 && starts == 1
    else if pc.WroteBoth? then e.replies.Some? && e.failure.Some? && e.closes == 0 && starts == 1
    else if pc.Closed? || (pc.Returned? && pc.entry == i) then
      e.replies.Some? && e.failure.Some? && e.closes == 1 && starts == 1
    else e == NEW && starts == (if pc.Generating? then 1 else 0)
  }

  /** The entry a caller found is that of an owner of the same request; when it is read, it is complete. */
  predicate RefersWell(ids: seq<string>, s: State, i: nat)
    requires Shaped(ids, s) && i < |ids|
  {
    match s.pcs[i]
    case Found(e) => OwnedFor(ids, s, e, ids[i])
    case Waiting(e) => OwnedFor(ids, s, e, ids[i])
    case Reading(e) => OwnedFor(ids, s, e, ids[i]) && s.entries[e].closes == 1
    case Returned(e, r, f) =>
      OwnedFor(ids, s, e, ids[i]) && s.entries[e].closes == 1 && r == s.entries[e].replies && f == s.entries[e].failure
    case _ => true
  }

  predicate OwnedFor(ids: seq<string>, s: State, e: nat, id: string)
    requires Shaped(ids, s)
  {
    e < |ids| && ids[e] == id && Owns(e, s.pcs[e])
  }

  predicate IsMapped(ids: seq<string>, s: State, i: nat)
    requires Shaped(ids, s) && i < |ids|
  {
    Owns(i, s.pcs[i]) ==> ids[i] in s.results && s.results[ids[i]] == i
  }

  ghost predicate LockFits(s: State) {
    && (s.lock.Some? ==> s.lock.value < |s.pcs|)
    && (forall i :: 0 <= i < |s.pcs| ==> (s.lock == Some(i) <==> HoldsLock(s.pcs[i])))
  }

  ghost predicate Inv(ids: seq<string>, s: State) {
    && Shaped(ids, s)
    && LockFits(s)
    && (forall id :: id in s.results ==> OwnedFor(ids, s, s.results[id], id))
    && (forall i :: 0 <= i < |ids| ==> IsMapped(ids, s, i))
    && (forall i :: 0 <= i < |ids| ==> EntryFits(i, s.pcs[i], s.entries[i], s.starts[i]))
    && (forall i :: 0 <= i < |ids| ==> RefersWell(ids, s, i))
  }

  lemma StepKeepsInv(ids: seq<string>, s: State, t: Turn)
    requires Inv(ids, s)
    ensures Inv(ids, Step(ids, s, t))
  {
    StepKeepsOwners(ids, s, t);
    StepKeepsLock(ids, s, t);
    StepKeepsMap(ids, s, t);
    var r := Step(ids, s, t);
    forall i | 0 <= i < |ids| ensures EntryFits(i, r.pcs[i], r.entries[i], r.starts[i]) && RefersWell(ids, r, i) {
      StepKeepsEntry(ids, s, t, i);
      StepKeepsReference(ids, s, t, i);
    }
  }

  ghost predicate OwnersStay(ids: seq<string>, s: State, r: State) {
    && Shaped(ids, s) && Shaped(ids, r)
    && forall e, id :: OwnedFor(ids, s, e, id) ==> OwnedFor(ids, r, e, id)
  }

  lemma StepKeepsOwners(ids: seq<string>, s: State, t: Turn)
    requires Inv(ids, s)
    ensures OwnersStay(ids, s, Step(ids, s, t))
  {
    var r := Step(ids, s, t);
    forall e, id | OwnedFor(ids, s, e, id) ensures OwnedFor(ids, r, e, id) {}
  }

  lemma StepKeepsLock(ids: seq<string>, s: State, t: Turn)
    requires Shaped(ids, s) && LockFits(s)
    ensures LockFits(Step(ids, s, t))
  {
  }

  lemma StepKeepsMap(ids: seq<string>, s: State, t: Turn)
    requires Inv(ids, s) && OwnersStay(ids, s, Step(ids, s, t))
    ensures var r := Step(ids, s, t);
      && (forall id :: id in r.results ==> OwnedFor(ids, r, r.results[id], id))
      && (forall i :: 0 <= i < |ids| ==> IsMapped(ids, r, i))
  {
    var r := Step(ids, s, t);
    StepExtendsMap(ids, s, t);
    forall i | 0 <= i < |ids| ensures IsMapped(ids, r, i) {
      assert IsMapped(ids, s, i) && RefersWell(ids, s, i);
    }
  }

  /** A request is entered in the map once, by a caller that thereby becomes an owner. */
  lemma StepExtendsMap(ids: seq<string>, s: State, t: Turn)
    requires Shaped(ids, s)
    ensures var r := Step(ids, s, t);
      r.results == s.results || (
        && t.caller < |ids| && ids[t.caller] !in s.results
        && r.results == s.results[ids[t.caller] := t.caller] && r.pcs[t.caller].Created?)
  {
  }

  lemma StepKeepsEntry(ids: seq<string>, s: State, t: Turn, i: nat)
    requires Shaped(ids, s) && i < |ids|
    requires EntryFits(i, s.pcs[i], s.entries[i], s.starts[i]) && RefersWell(ids, s, i)
    ensures var r := Step(ids, s, t); EntryFits(i, r.pcs[i], r.entries[i], r.starts[i])
  {
  }

  /** The entry referred to does not change any more once it is closed. */
  lemma StepKeepsReference(ids: seq<string>, s: State, t: Turn, i: nat)
    requires Inv(ids, s) && OwnersStay(ids, s, Step(ids, s, t)) && i < |ids|
    ensures RefersWell(ids, Step(ids, s, t), i)
  {
    var r := Step(ids, s, t);
    assert RefersWell(ids, s, i);
    if t.caller == i {
      NewReference(ids, s, t);
    } else if s.pcs[i].Found? || s.pcs[i].Waiting? || s.pcs[i].Reading? || s.pcs[i].Returned? {
      var e := s.pcs[i].entry;
      ClosedEntryStays(ids, s, t, e);
    }
  }

  lemma ClosedEntryStays(ids: seq<string>, s: State, t: Turn, e: nat)
    requires Shaped(ids, s) && e < |ids| && EntryFits(e, s.pcs[e], s.entries[e], s.starts[e])
    ensures s.entries[e].closes > 0 ==> Step(ids, s, t).entries[e] == s.entries[e]
  {
  }

  lemma NewReference(ids: seq<string>, s: State, t: Turn)
    requires Inv(ids, s) && OwnersStay(ids, s, Step(ids, s, t)) && t.caller < |ids|
    ensures RefersWell(ids, Step(ids, s, t), t.caller)
  {
    var i := t.caller;
    assert RefersWell(ids, s, i) && EntryFits(i, s.pcs[i], s.entries[i], s.starts[i]);
    if s.pcs[i].Waiting? {
      var e := s.pcs[i].entry;
      assert EntryFits(e, s.pcs[e], s.entries[e], s.starts[e]);
    }
  }

  lemma {:induction false} RunKeepsInv(ids: seq<string>, s: State, turns: seq<Turn>)
    requires Inv(ids, s)
    ensures Inv(ids, Run(ids, s, turns))
    decreases |turns|
  {
    if turns != [] {
      StepKeepsInv(ids, s, turns[0]);
      RunKeepsInv(ids, Step(ids, s, turns[0]), turns[1..]);
    }
  }

  lemma InitInv(ids: seq<string>)
    ensures Inv(ids, Init(ids))
  {
  }

  // ---------- safety ----------

  /** Whatever the interleaving and whatever `Enabled` says on the way: of the callers with one request id at most
      one starts `generate`, and that one once; ... */
  lemma GeneratesOnce(ids: seq<string>, turns: seq<Turn>, i: nat, j: nat)
    requires i < |ids| && j < |ids| && ids[i] == ids[j]
    ensures var s := Run(ids, Init(ids), turns);
      s.starts[i] <= 1 && (s.starts[i] > 0 && s.starts[j] > 0 ==> i == j)
  {
    var s := Run(ids, Init(ids), turns);
    InitInv(ids);
    RunKeepsInv(ids, Init(ids), turns);
    assert EntryFits(i, s.pcs[i], s.entries[i], s.starts[i]) && EntryFits(j, s.pcs[j], s.entries[j], s.starts[j]);
    assert IsMapped(ids, s, i) && IsMapped(ids, s, j);
  }

  /** ... no channel is closed twice, and every channel of a request that has been answered is closed; ... */
  lemma ClosesOnce(ids: seq<string>, turns: seq<Turn>, i: nat)
    requires i < |ids|
    ensures var s := Run(ids, Init(ids), turns);
      && s.entries[i].closes <= 1
      && (s.pcs[i].Returned? ==> s.pcs[i].entry < |ids| && s.entries[s.pcs[i].entry].closes == 1)
  {
    var s := Run(ids, Init(ids), turns);
    InitInv(ids);
    RunKeepsInv(ids, Init(ids), turns);
    assert EntryFits(i, s.pcs[i], s.entries[i], s.starts[i]) && RefersWell(ids, s, i);
  }

  /** ... a result is read only when both its parts are written; ... */
  lemma NeverReadsUnwritten(ids: seq<string>, turns: seq<Turn>, i: nat)
    requires i < |ids|
    ensures var s := Run(ids, Init(ids), turns);
      && (s.pcs[i].Closed? ==> s.entries[i].replies.Some? && s.entries[i].failure.Some?)
      && (s.pcs[i].Reading? ==> s.pcs[i].entry < |ids|)
      && (s.pcs[i].Reading? ==> s.entries[s.pcs[i].entry].replies.Some? && s.entries[s.pcs[i].entry].failure.Some?)
      && (s.pcs[i].Returned? ==> s.pcs[i].replies.Some? && s.pcs[i].failure.Some?)
  {
    var s := Run(ids, Init(ids), turns);
    InitInv(ids);
    RunKeepsInv(ids, Init(ids), turns);
    assert RefersWell(ids, s, i) && EntryFits(i, s.pcs[i], s.entries[i], s.starts[i]);
    if s.pcs[i].Reading? || s.pcs[i].Returned? {
      var e := s.pcs[i].entry;
      assert OwnedFor(ids, s, e, ids[i]);
      assert EntryFits(e, s.pcs[e], s.entries[e], s.starts[e]);
    }
  }

  /** ... and all callers of one request that got past the gate return the same replies and the same error. */
  lemma SameAnswer(ids: seq<string>, turns: seq<Turn>, i: nat, j: nat)
    requires i < |ids| && j < |ids| && ids[i] == ids[j]
    ensures var s := Run(ids, Init(ids), turns);
      s.pcs[i].Returned? && s.pcs[j].Returned? ==>
        s.pcs[i].replies == s.pcs[j].replies && s.pcs[i].failure == s.pcs[j].failure
  {
    var s := Run(ids, Init(ids), turns);
    InitInv(ids);
    RunKeepsInv(ids, Init(ids), turns);
    if s.pcs[i].Returned? && s.pcs[j].Returned? {
      assert RefersWell(ids, s, i) && RefersWell(ids, s, j);
      assert IsMapped(ids, s, s.pcs[i].entry) && IsMapped(ids, s, s.pcs[j].entry);
    }
  }

  ghost predicate AlwaysEnabled(turns: seq<Turn>) { forall t :: t in turns ==> t.enabled }

  /** With `Enabled` constantly true, nobody is refused, so all callers of one request return the same. */
  lemma {:induction false} NobodyRefused(ids: seq<string>, s: State, turns: seq<Turn>)
    requires Shaped(ids, s) && AlwaysEnabled(turns) && forall i :: 0 <= i < |ids| ==> !s.pcs[i].Refused?
    ensures forall i :: 0 <= i < |ids| ==> !Run(ids, s, turns).pcs[i].Refused?
    decreases |turns|
  {
    if turns != [] {
      assert turns[0] in turns;
      NobodyRefused(ids, Step(ids, s, turns[0]), turns[1..]);
    }
  }

  // ---------- the gate ----------

  /** What `Enabled` says when the caller asks, which it does in its first turn. */
  function GateOf(turns: seq<Turn>, i: nat): Option<bool> {
    if turns == [] then None
    else if turns[0].caller == i then Some(turns[0].enabled)
    else GateOf(turns[1..], i)
  }

  lemma {:induction false} NeverBack(ids: seq<string>, s: State, turns: seq<Turn>, i: nat)
    requires Shaped(ids, s) && i < |ids| && !s.pcs[i].Start?
    ensures !Run(ids, s, turns).pcs[i].Start? && (Run(ids, s, turns).pcs[i].Refused? <==> s.pcs[i].Refused?)
    decreases |turns|
  {
    if turns != [] {
      StepMoves(ids, s, turns[0]);
      NeverBack(ids, Step(ids, s, turns[0]), turns[1..], i);
    }
  }

  lemma {:induction false} GateDecidesFrom(ids: seq<string>, s: State, turns: seq<Turn>, i: nat)
    requires Shaped(ids, s) && i < |ids| && s.pcs[i].Start?
    ensures var pc := Run(ids, s, turns).pcs[i];
      (pc.Start? <==> GateOf(turns, i) == None) && (pc.Refused? <==> GateOf(turns, i) == Some(false))
    decreases |turns|
  {
    if turns != [] {
      if turns[0].caller == i {
        NeverBack(ids, Step(ids, s, turns[0]), turns[1..], i);
      } else {
        GateDecidesFrom(ids, Step(ids, s, turns[0]), turns[1..], i);
      }
    }
  }

  /** A caller is refused if and only if the gate was closed in its first turn. */
  lemma GateDecides(ids: seq<string>, turns: seq<Turn>, i: nat)
    requires i < |ids|
    ensures var pc := Run(ids, Init(ids), turns).pcs[i];
      (pc.Start? <==> GateOf(turns, i) == None) && (pc.Refused? <==> GateOf(turns, i) == Some(false))
  {
    GateDecidesFrom(ids, Init(ids), turns, i);
  }

  predicate SameReturn(a: PC, b: PC) {
    || (a.Refused? && b.Refused?)
    || (a.Returned? && b.Returned? && a.replies == b.replies && a.failure == b.failure)
  }

  /** Two finished callers of one request are answered alike if and only if the gate said the same to both. */
  lemma SameAnswerIff(ids: seq<string>, turns: seq<Turn>, i: nat, j: nat)
    requires i < |ids| && j < |ids| && ids[i] == ids[j]
    requires Done(Run(ids, Init(ids), turns).pcs[i]) && Done(Run(ids, Init(ids), turns).pcs[j])
    ensures var s := Run(ids, Init(ids), turns);
      SameReturn(s.pcs[i], s.pcs[j]) <==> GateOf(turns, i) == GateOf(turns, j)
  {
    var s := Run(ids, Init(ids), turns);
    GateDecides(ids, turns, i);
    GateDecides(ids, turns, j);
    SameAnswer(ids, turns, i, j);
    SameGateSameReturn(s.pcs[i], s.pcs[j], GateOf(turns, i), GateOf(turns, j));
  }

  lemma SameGateSameReturn(a: PC, b: PC, gateA: Option<bool>, gateB: Option<bool>)
    requires Done(a) && Done(b)
    requires (a.Start? <==> gateA == None) && (a.Refused? <==> gateA == Some(false))
    requires (b.Start? <==> gateB == None) && (b.Refused? <==> gateB == Some(false))
    requires a.Returned? && b.Returned? ==> a.replies == b.replies && a.failure == b.failure
    ensures SameReturn(a, b) <==> gateA == gateB
  {
    OneAnswer(a, gateA);
    OneAnswer(b, gateB);
  }

  lemma OneAnswer(pc: PC, gate: Option<bool>)
    requires Done(pc) && (pc.Start? <==> gate == None) && (pc.Refused? <==> gate == Some(false))
    ensures gate == Some(!pc.Refused?)
  {
    match gate {
      case None =>
      case Some(open) => assert open == !pc.Refused?;
    }
  }

  /** If the gate closes between two calls of one request, they are answered differently. */
  lemma GateMayDivide(replies: Replies)
    ensures exists turns :: var s := Run(["id", "id"], Init(["id", "id"]), turns);
      s.pcs[0] == Returned(0, Some(replies), Some(None)) && s.pcs[1].Refused?
  {
    var ids, late := ["id", "id"], Turn(1, false, [], None);
    var turns, s := LoneRun(ids, replies);
    OneMoreTurn(ids, Init(ids), turns, late);
    assert s.pcs[1] == s.pcs[1..][0] == Start;
    var end := Run(ids, Init(ids), turns + [late]);
    assert end == Step(ids, s, late) && end.pcs[1].Refused? && end.pcs[0] == Returned(0, Some(replies), Some(None));
  }

  /** The first caller alone, the gate being open: after nine turns it has returned. */
  lemma LoneRun(ids: seq<string>, replies: Replies) returns (turns: seq<Turn>, s: State)
    requires ids != []
    ensures turns == seq(9, _ => Turn(0, true, replies, None)) && s == Run(ids, Init(ids), turns) && Shaped(ids, s)
    ensures s.pcs[0] == Returned(0, Some(replies), Some(None)) && s.pcs[1..] == Init(ids).pcs[1..]
  {
    var go := Turn(0, true, replies, None);
    s, turns := Init(ids), [];
    for k := 0 to 9
      invariant turns == seq(k, _ => go)
      invariant Shaped(ids, s) && s == Run(ids, Init(ids), turns) && Alone(ids, s, replies, k)
    {
      OneMoreTurn(ids, Init(ids), turns, go);
      AloneStep(ids, s, replies, k);
      s, turns := Step(ids, s, go), turns + [go];
    }
  }

  /** The first caller after `k` steps, none of the others having moved. */
  predicate Alone(ids: seq<string>, s: State, replies: Replies, k: nat) {
    var path := [Start, WantsLock, Locked, Created, ToGenerate, Generating, WroteReplies(None), WroteBoth, Closed,
      Returned(0, Some(replies), Some(None))];
    && |s.pcs| == |s.entries| == |ids| > 0 && k <= 9 && s.pcs[0] == path[k] && s.pcs[1..] == Init(ids).pcs[1..]
    && (k < 2 ==> s.lock.None?)
    && (k < 3 ==> s.results == map[])
    && (k > 5 ==> s.entries[0].replies == Some(replies))
    && (k > 6 ==> s.entries[0].failure == Some(None))
  }

  lemma AloneStep(ids: seq<string>, s: State, replies: Replies, k: nat)
    requires Shaped(ids, s) && Alone(ids, s, replies, k) && k < 9
    ensures Alone(ids, Step(ids, s, Turn(0, true, replies, None)), replies, k + 1)
  {
  }

  lemma {:induction false} OneMoreTurn(ids: seq<string>, s: State, turns: seq<Turn>, t: Turn)
    requires Shaped(ids, s)
    ensures Run(ids, s, turns + [t]) == Step(ids, Run(ids, s, turns), t)
    decreases |turns|
  {
    if turns == [] {
      assert [t][1..] == [];
    } else {
      assert (turns + [t])[1..] == turns[1..] + [t];
      OneMoreTurn(ids, Step(ids, s, turns[0]), turns[1..], t);
    }
  }

  /** All of it together: when everybody is done, equal requests have equal answers, and there is an answer. */
  lemma EqualRequestsEqualAnswers(ids: seq<string>, turns: seq<Turn>, i: nat, j: nat)
    requires i < |ids| && j < |ids| && ids[i] == ids[j] && AlwaysEnabled(turns)
    requires Done(Run(ids, Init(ids), turns).pcs[i]) && Done(Run(ids, Init(ids), turns).pcs[j])
    ensures var s := Run(ids, Init(ids), turns);
      && s.pcs[i].Returned? && s.pcs[j].Returned? && s.pcs[i].replies.Some? && s.pcs[i].failure.Some?
      && s.pcs[i].replies == s.pcs[j].replies && s.pcs[i].failure == s.pcs[j].failure
  {
    NobodyRefused(ids, Init(ids), turns);
    NeverReadsUnwritten(ids, turns, i);
    SameAnswer(ids, turns, i, j);
  }

  /** In one of the turns, `generate` returned this to caller `i`. */
  ghost predicate Produced(turns: seq<Turn>, i: nat, replies: Replies, failure: Failure) {
    exists t :: t in turns && t.caller == i && t.replies == replies && t.failure == failure
  }

  ghost predicate Genuine(turns: seq<Turn>, i: nat, pc: PC, e: Entry) {
    && (pc.WroteReplies? ==> e.replies.Some? && Produced(turns, i, e.replies.value, pc.next))
    && (pc.WroteBoth? || pc.Closed? || (pc.Returned? && pc.entry == i) ==>
          e.replies.Some? && e.failure.Some? && Produced(turns, i, e.replies.value, e.failure.value))
  }

  /** Every result that gets published is one that `generate` returned, both parts from the same call. */
  lemma {:induction false} ResultsAreGenuine(ids: seq<string>, turns: seq<Turn>, i: nat)
    requires i < |ids|
    ensures var s := Run(ids, Init(ids), turns); Genuine(turns, i, s.pcs[i], s.entries[i])
    decreases |turns|
  {
    if turns != [] {
      var before, t := turns[..|turns| - 1], turns[|turns| - 1];
      assert turns == before + [t];
      var s := Run(ids, Init(ids), before);
      OneMoreTurn(ids, Init(ids), before, t);
      ResultsAreGenuine(ids, before, i);
      InitInv(ids);
      RunKeepsInv(ids, Init(ids), before);
      assert RefersWell(ids, s, i);
      GenuineStep(ids, s, before, t, i);
    }
  }

  lemma GenuineStep(ids: seq<string>, s: State, before: seq<Turn>, t: Turn, i: nat)
    requires Shaped(ids, s) && i < |ids| && RefersWell(ids, s, i) && Genuine(before, i, s.pcs[i], s.entries[i])
    ensures var r := Step(ids, s, t); Genuine(before + [t], i, r.pcs[i], r.entries[i])
  {
    forall replies, failure | Produced(before, i, replies, failure)
      ensures Produced(before + [t], i, replies, failure)
    {
      var u :| u in before && u.caller == i && u.replies == replies && u.failure == failure;
      assert u in before + [t];
    }
    if s.pcs[i].Generating? && t.caller == i {
      assert t in before + [t];
      assert Produced(before + [t], i, t.replies, t.failure);
    }
  }

  /** So what a caller returns is what one `generate`, for the same request, returned. */
  lemma AnswersAreGenuine(ids: seq<string>, turns: seq<Turn>, i: nat)
    requires i < |ids| && Run(ids, Init(ids), turns).pcs[i].Returned?
    ensures var pc := Run(ids, Init(ids), turns).pcs[i];
      && pc.entry < |ids| && ids[pc.entry] == ids[i]
      && pc.replies.Some? && pc.failure.Some? && Produced(turns, pc.entry, pc.replies.value, pc.failure.value)
  {
    var s := Run(ids, Init(ids), turns);
    var e := s.pcs[i].entry;
    InitInv(ids);
    RunKeepsInv(ids, Init(ids), turns);
    assert RefersWell(ids, s, i) && EntryFits(e, s.pcs[e], s.entries[e], s.starts[e]);
    ResultsAreGenuine(ids, turns, e);
  }

  // ---------- progress ----------

  predicate Done(pc: PC) { pc.Refused? || pc.Returned? }

  /** The steps a caller has left. */
  function Rank(pc: PC): nat {
    match pc
    case Start => 9 case WantsLock => 8 case Locked => 7 case Created => 6 case ToGenerate => 5 case Generating => 4
    case WroteReplies(_) => 3 case WroteBoth => 2 case Closed => 1
    case Found(_) => 3 case Waiting(_) => 2 case Reading(_) => 1
    case Refused => 0 case Returned(_, _, _) => 0
  }

  function Measure(pcs: seq<PC>): nat {
    if pcs == [] then 0 else Rank(pcs[0]) + Measure(pcs[1..])
  }

  lemma {:induction false} MeasureUpdate(pcs: seq<PC>, i: nat, pc: PC)
    requires i < |pcs|
    ensures Measure(pcs[i := pc]) == Measure(pcs) - Rank(pcs[i]) + Rank(pc)
  {
    if i == 0 {
      assert pcs[i := pc][1..] == pcs[1..];
    } else {
      assert pcs[i := pc][1..] == pcs[1..][i - 1 := pc];
      MeasureUpdate(pcs[1..], i - 1, pc);
    }
  }

  lemma StepMoves(ids: seq<string>, s: State, t: Turn)
    requires Shaped(ids, s)
    ensures var r := Step(ids, s, t);
      || r == s
      || (&& t.caller < |ids| && r.pcs == s.pcs[t.caller := r.pcs[t.caller]]
          && Rank(r.pcs[t.caller]) < Rank(s.pcs[t.caller]))
  {
  }

  /** Every turn that does anything lowers the measure. */
  lemma StepDecreases(ids: seq<string>, s: State, t: Turn)
    requires Shaped(ids, s)
    ensures Step(ids, s, t) == s || Measure(Step(ids, s, t).pcs) < Measure(s.pcs)
  {
    StepMoves(ids, s, t);
    var r := Step(ids, s, t);
    if r != s {
      MeasureUpdate(s.pcs, t.caller, r.pcs[t.caller]);
    }
  }

  /** How many of the turns do anything. */
  function Effective(ids: seq<string>, s: State, turns: seq<Turn>): nat
    requires Shaped(ids, s)
    decreases |turns|
  {
    if turns == [] then 0
    else (if Step(ids, s, turns[0]) == s then 0 else 1) + Effective(ids, Step(ids, s, turns[0]), turns[1..])
  }

  /** No run, however long, has more steps than nine for each caller. */
  lemma {:induction false} RunIsBounded(ids: seq<string>, s: State, turns: seq<Turn>)
    requires Shaped(ids, s)
    ensures Effective(ids, s, turns) + Measure(Run(ids, s, turns).pcs) <= Measure(s.pcs) <= 9 * |ids|
    decreases |turns|
  {
    MeasureBound(s.pcs);
    if turns != [] {
      StepDecreases(ids, s, turns[0]);
      RunIsBounded(ids, Step(ids, s, turns[0]), turns[1..]);
    }
  }

  lemma {:induction false} MeasureBound(pcs: seq<PC>)
    ensures Measure(pcs) <= 9 * |pcs|
  {
    if pcs != [] {
      MeasureBound(pcs[1..]);
    }
  }

  /** Whoever holds the lock can step; if nobody does, an unfinished caller, or the one it waits for. */
  lemma NotStuck(ids: seq<string>, s: State, i: nat) returns (mover: nat)
    requires Inv(ids, s) && i < |ids| && !Done(s.pcs[i])
    ensures forall t: Turn :: t.caller == mover ==> Step(ids, s, t) != s
  {
    if s.lock.Some? {
      mover := s.lock.value;
    } else if s.pcs[i].Waiting? {
      var e := s.pcs[i].entry;
      assert RefersWell(ids, s, i) && EntryFits(e, s.pcs[e], s.entries[e], s.starts[e]);
      mover := if s.entries[e].closes > 0 then i else e;
    } else {
      assert RefersWell(ids, s, i);
      mover := i;
    }
    MovesOn(ids, s, mover);
  }

  lemma MovesOn(ids: seq<string>, s: State, i: nat)
    requires Shaped(ids, s) && i < |ids|
    requires !Done(s.pcs[i]) && (s.pcs[i].WantsLock? ==> s.lock.None?)
    requires s.pcs[i].Waiting? ==> s.pcs[i].entry < |ids| && s.entries[s.pcs[i].entry].closes > 0
    requires s.pcs[i].Reading? ==> s.pcs[i].entry < |ids|
    ensures forall t: Turn :: t.caller == i ==> Step(ids, s, t) != s
  {
    forall t: Turn | t.caller == i ensures Step(ids, s, t).pcs[i] != s.pcs[i] {}
  }

  /** In no reachable state are unfinished callers stuck: some caller can step, whatever it is told. */
  lemma NeverStuck(ids: seq<string>, turns: seq<Turn>, i: nat) returns (mover: nat)
    requires i < |ids| && !Done(Run(ids, Init(ids), turns).pcs[i])
    ensures forall t: Turn :: t.caller == mover ==>
      Step(ids, Run(ids, Init(ids), turns), t) != Run(ids, Init(ids), turns)
  {
    InitInv(ids);
    RunKeepsInv(ids, Init(ids), turns);
    mover := NotStuck(ids, Run(ids, Init(ids), turns), i);
  }
}
