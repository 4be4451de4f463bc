/** What a config delivery does to the disk, and what any run of deliveries, crashes and retries leaves there. */
module ConfigMachine {
  import opened GoText
  import opened Json
  import opened JsonEdits
  import opened Settings
  import opened JsonPatch
  import opened EnvFile
  import opened Store

  /** What openclaw.json holds. */
  datatype JsonFile = Missing | Empty | Malformed | Null | Doc(fields: Fields)

  datatype Disk = Disk(url: string, env: Option<string>, json: JsonFile, state: Option<State>)

  datatype Payload = Payload(version: Int64, values: Values)

  datatype ErrorCode = InternalError | ConfigApplyFailed | GatewayUnavailable

  datatype Ack = Success(version: Int64) | Ignored(version: Int64) | Failed(version: Int64, code: ErrorCode)

  /** What can go wrong during one `Apply`: each field says whether that call fails. */
  datatype Faults = Faults(
    load: bool, mkdir: bool, daemon: WriteFaults, env: WriteFaults, read: bool, json: WriteFaults,
    restart: bool, health: bool, save: WriteFaults)

  /** An empty value does not count, so EDGE_GATEWAY_WS_URL stands in for CLOUD_WS_URL. */
  function CloudURL(values: Values): string {
    if Trimmed(values, "CLOUD_WS_URL") != "" then Trimmed(values, "CLOUD_WS_URL")
    else Trimmed(values, "EDGE_GATEWAY_WS_URL")
  }

  /** What is patched: a file that is missing, empty or cannot be read counts as an empty object. */
  function Document(json: JsonFile, unreadable: bool): JsonFile {
    if unreadable || json.Missing? || json.Empty? then Doc(map[]) else json
  }

  function DocumentFields(json: JsonFile, unreadable: bool): Fields {
    match Document(json, unreadable) case Doc(fields) => fields case _ => map[]
  }

  // ---------- the four commits, in order ----------

  function WithURL(d: Disk, values: Values): Disk {
    if CloudURL(values) == "" then d else d.(url := CloudURL(values))
  }

  ghost function WithEnv(d: Disk, values: Values): Disk { d.(env := Some(Print(Visible(values)))) }

  ghost function WithJson(d: Disk, values: Values, tokenKey: string, unreadable: bool): Disk {
    d.(json := Doc(Patch(DocumentFields(d.json, unreadable), values, tokenKey)))
  }

  function WithVersion(d: Disk, version: Int64): Disk {
    if d.state.None? then d else d.(state := Some(d.state.value.(version := version)))
  }

  /** The disk after the first `n` commits. */
  ghost function Commits(d: Disk, p: Payload, tokenKey: string, n: nat, unreadable: bool): Disk {
    if n == 0 then d
    else if n == 1 then WithURL(d, p.values)
    else if n == 2 then WithEnv(WithURL(d, p.values), p.values)
    else if n == 3 then WithJson(WithEnv(WithURL(d, p.values), p.values), p.values, tokenKey, unreadable)
    else WithVersion(WithJson(WithEnv(WithURL(d, p.values), p.values), p.values, tokenKey, unreadable), p.version)
  }

  /** How many commits `Apply` makes and what it answers; no answer if it panics. */
  function Progress(d: Disk, p: Payload, faults: Faults): (r: (nat, Option<Ack>))
    ensures r.0 <= 4
    ensures r.0 == 4 <==> r.1 == Some(Success(p.version))
    ensures r.0 > 0 ==> d.state.Some? && p.version > d.state.value.version
    ensures r.0 > 2 ==> Document(d.json, faults.read).Doc?
  {
    if faults.load || d.state.None? then (0, Some(Failed(p.version, InternalError)))
    else if p.version <= d.state.value.version then (0, Some(Ignored(p.version)))
    else if faults.mkdir || (CloudURL(p.values) != "" && !faults.daemon.None()) then
      (0, Some(Failed(p.version, ConfigApplyFailed)))
    else if !faults.env.None() then (1, Some(Failed(p.version, ConfigApplyFailed)))
    else if Document(d.json, faults.read).Null? then (2, None)
    else if !Document(d.json, faults.read).Doc? || !faults.json.None() then
      (2, Some(Failed(p.version, ConfigApplyFailed)))
    else if faults.restart then (3, Some(Failed(p.version, ConfigApplyFailed)))
    else if faults.health then (3, Some(Failed(p.version, GatewayUnavailable)))
    else if !faults.save.None() then (3, Some(Failed(p.version, InternalError)))
    else (4, Some(Success(p.version)))
  }

  const NOTHING_FAILS := Faults(false, false, NO_FAULTS, NO_FAULTS, false, NO_FAULTS, false, false, NO_FAULTS)

  /** Whether .env gets written: the version is pending, and nothing fails up to there. */
  predicate WritesEnv(d: Disk, p: Payload, faults: Faults) {
    && !faults.load && d.state.Some? && p.version > d.state.value.version && !faults.mkdir
    && (CloudURL(p.values) == "" || faults.daemon.None()) && faults.env.None()
  }

  /** Whether openclaw.json gets replaced: the one found is an object, or counts as an empty one. */
  predicate WritesJson(d: Disk, p: Payload, faults: Faults) {
    WritesEnv(d, p, faults) && Document(d.json, faults.read).Doc? && faults.json.None()
  }

  /** Whether the new cloud URL gets into memory; that happens before it is persisted. */
  predicate ReachesURL(d: Disk, p: Payload, faults: Faults) {
    !faults.load && d.state.Some? && p.version > d.state.value.version && !faults.mkdir && CloudURL(p.values) != ""
  }

  // ---------- attempts, crashes, retries ----------

  /** The disk and the cloud URL in memory. */
  datatype Machine = Machine(disk: Disk, url: string)

  /** One delivery. With `diesAfter`, the process dies when at most that many commits are made. */
  datatype Attempt = Attempt(faults: Faults, diesAfter: Option<nat>)

  function CommitsOf(d: Disk, p: Payload, a: Attempt): (n: nat)
    ensures n <= Progress(d, p, a.faults).0
  {
    var n := Progress(d, p, a.faults).0;
    if a.diesAfter.Some? && a.diesAfter.value < n then a.diesAfter.value else n
  }

  predicate Outlives(a: Attempt, n: nat) { a.diesAfter.None? || a.diesAfter.value >= n }

  lemma CommitsByInputs(d: Disk, p: Payload, a: Attempt)
    ensures CommitsOf(d, p, a) >= 2 <==> WritesEnv(d, p, a.faults) && Outlives(a, 2)
    ensures CommitsOf(d, p, a) >= 3 <==> WritesJson(d, p, a.faults) && Outlives(a, 3)
  {
  }

  predicate Dies(d: Disk, p: Payload, a: Attempt) { a.diesAfter.Some? || Progress(d, p, a.faults).1.None? }

  /** After a crash the daemon starts with the URL on disk. */
  ghost function Next(m: Machine, p: Payload, tokenKey: string, a: Attempt): Machine {
    var disk := Commits(m.disk, p, tokenKey, CommitsOf(m.disk, p, a), a.faults.read);
    Machine(disk,
      if Dies(m.disk, p, a) then disk.url
      else if ReachesURL(m.disk, p, a.faults) then CloudURL(p.values)
      else m.url)
  }

  function AckOf(d: Disk, p: Payload, a: Attempt): Option<Ack> {
    if a.diesAfter.Some? then None else Progress(d, p, a.faults).1
  }

  ghost function Redeliver(m: Machine, p: Payload, tokenKey: string, attempts: seq<Attempt>): Machine
    decreases |attempts|
  {
    if attempts == [] then m else Redeliver(Next(m, p, tokenKey, attempts[0]), p, tokenKey, attempts[1..])
  }

  predicate ReplacesUnread(d: Disk, p: Payload, a: Attempt) {
    a.faults.read && WritesJson(d, p, a.faults) && Outlives(a, 3)
  }

  /** Some attempt replaced openclaw.json without having been able to read it. */
  ghost predicate Overwritten(m: Machine, p: Payload, tokenKey: string, attempts: seq<Attempt>)
    decreases |attempts|
  {
    attempts != [] && (
      ReplacesUnread(m.disk, p, attempts[0]) ||
      Overwritten(Next(m, p, tokenKey, attempts[0]), p, tokenKey, attempts[1..]))
  }

  predicate Pending(d: Disk, p: Payload) { d.state.Some? && p.version > d.state.value.version }

  predicate Stored(d: Disk, p: Payload) { d.state.Some? && d.state.value.version == p.version }

  /** Every file is as it was or as it is going to be. */
  ghost predicate Underway(e: Disk, d: Disk, p: Payload, tokenKey: string, overwritten: bool) {
    && e.state == d.state
    && (e.url == d.url || e.url == WithURL(d, p.values).url)
    && (e.env == d.env || e.env == Some(Print(Visible(p.values))))
    && (if overwritten then e.json == Doc(Patch(map[], p.values, tokenKey))
        else e.json == d.json || e.json == WithJson(d, p.values, tokenKey, false).json)
  }

  lemma PatchedAgain(d: Disk, e: Disk, p: Payload, tokenKey: string, overwritten: bool, unreadable: bool)
    requires Underway(e, d, p, tokenKey, overwritten)
    ensures WithJson(e, p.values, tokenKey, unreadable).json ==
      WithJson(d, p.values, tokenKey, overwritten || unreadable).json
  {
    var base := DocumentFields(d.json, overwritten || unreadable);
    var found := DocumentFields(e.json, unreadable);
    assert found == base || found == Patch(base, p.values, tokenKey);
    PatchSettles(found, base, p.values, tokenKey);
  }

  lemma PatchSettles(found: Fields, base: Fields, values: Values, tokenKey: string)
    requires found == base || found == Patch(base, values, tokenKey)
    ensures Patch(found, values, tokenKey) == Patch(base, values, tokenKey)
  {
    if found != base {
      PatchIdempotent(base, values, tokenKey);
    }
  }

  /** One more attempt on a disk that is underway completes the update or leaves it underway. */
  lemma NextUnderway(d: Disk, m: Machine, p: Payload, tokenKey: string, overwritten: bool, a: Attempt)
    requires Pending(d, p) && Underway(m.disk, d, p, tokenKey, overwritten)
    ensures
      var n, after := CommitsOf(m.disk, p, a), Next(m, p, tokenKey, a).disk;
      var lost := overwritten || (a.faults.read && n >= 3);
      if n >= 4 then after == Commits(d, p, tokenKey, 4, lost) else Underway(after, d, p, tokenKey, lost)
  {
    var n := CommitsOf(m.disk, p, a);
    if n < 4 {
      CommitsUnderway(d, m.disk, p, tokenKey, overwritten, n, a.faults.read);
    } else {
      PatchedAgain(d, m.disk, p, tokenKey, overwritten, a.faults.read);
      CommitsByFile(m.disk, p, tokenKey, 4, a.faults.read);
      CommitsByFile(d, p, tokenKey, 4, overwritten || a.faults.read);
    }
  }

  lemma CommitsUnderway(d: Disk, e: Disk, p: Payload, tokenKey: string, overwritten: bool, n: nat, unreadable: bool)
    requires Underway(e, d, p, tokenKey, overwritten) && n < 4
    ensures Underway(Commits(e, p, tokenKey, n, unreadable), d, p, tokenKey, overwritten || (unreadable && n >= 3))
  {
    var e2 := WithEnv(WithURL(e, p.values), p.values);
    assert Underway(e2, d, p, tokenKey, overwritten);
    if n == 3 {
      PatchedAgain(d, e2, p, tokenKey, overwritten, unreadable);
      var e3 := WithJson(e2, p.values, tokenKey, unreadable);
      JsonUnderway(d, e2, e3, p, tokenKey, overwritten, overwritten || unreadable);
    }
  }

  lemma JsonUnderway(d: Disk, e: Disk, after: Disk, p: Payload, tokenKey: string, overwritten: bool, lost: bool)
    requires Underway(e, d, p, tokenKey, overwritten) && after == e.(json := WithJson(d, p.values, tokenKey, lost).json)
    ensures Underway(after, d, p, tokenKey, lost)
  {
  }

  /** Once the version is stored, further deliveries change nothing. */
  lemma {:induction false} StoredIsFinal(m: Machine, p: Payload, tokenKey: string, attempts: seq<Attempt>)
    requires Stored(m.disk, p)
    ensures Redeliver(m, p, tokenKey, attempts).disk == m.disk && !Overwritten(m, p, tokenKey, attempts)
    decreases |attempts|
  {
    if attempts != [] {
      StoredIsFinal(Next(m, p, tokenKey, attempts[0]), p, tokenKey, attempts[1..]);
    }
  }

  lemma {:induction false} RetriesFrom(d: Disk, m: Machine, p: Payload, tokenKey: string, overwritten: bool,
      attempts: seq<Attempt>)
    requires Pending(d, p) && Underway(m.disk, d, p, tokenKey, overwritten)
    ensures
      var after, lost := Redeliver(m, p, tokenKey, attempts).disk, overwritten || Overwritten(m, p, tokenKey, attempts);
      if Stored(after, p) then after == Commits(d, p, tokenKey, 4, lost) else Underway(after, d, p, tokenKey, lost)
    decreases |attempts|
  {
    if attempts != [] {
      var next, n := Next(m, p, tokenKey, attempts[0]), CommitsOf(m.disk, p, attempts[0]);
      NextUnderway(d, m, p, tokenKey, overwritten, attempts[0]);
      CommitsByInputs(m.disk, p, attempts[0]);
      if n >= 4 {
        StoredIsFinal(next, p, tokenKey, attempts[1..]);
      } else {
        RetriesFrom(d, next, p, tokenKey, overwritten || ReplacesUnread(m.disk, p, attempts[0]), attempts[1..]);
      }
    }
  }

  /** Whatever attempts were made, failed, or killed at whatever commit: as soon as the version is stored, the disk
      is that of one uninterrupted `Apply`, provided openclaw.json was never replaced unread. */
  lemma Convergence(m: Machine, p: Payload, tokenKey: string, attempts: seq<Attempt>)
    requires Pending(m.disk, p) && Stored(Redeliver(m, p, tokenKey, attempts).disk, p)
    ensures Redeliver(m, p, tokenKey, attempts).disk ==
      Commits(m.disk, p, tokenKey, 4, Overwritten(m, p, tokenKey, attempts))
  {
    RetriesFrom(m.disk, m, p, tokenKey, false, attempts);
  }

  /** ... and if it was, exactly if there was nothing in it that a patch would keep. */
  lemma ConvergesIff(m: Machine, p: Payload, tokenKey: string, attempts: seq<Attempt>)
    requires Pending(m.disk, p) && Stored(Redeliver(m, p, tokenKey, attempts).disk, p)
    ensures Redeliver(m, p, tokenKey, attempts).disk == Commits(m.disk, p, tokenKey, 4, false) <==>
      !Overwritten(m, p, tokenKey, attempts) || Replaceable(DocumentFields(m.disk.json, false), p.values, tokenKey)
  {
    Convergence(m, p, tokenKey, attempts);
    UnreadMatters(m.disk, p, tokenKey, Overwritten(m, p, tokenKey, attempts));
  }

  lemma UnreadMatters(d: Disk, p: Payload, tokenKey: string, unreadable: bool)
    ensures Commits(d, p, tokenKey, 4, unreadable) == Commits(d, p, tokenKey, 4, false) <==>
      !unreadable || Replaceable(DocumentFields(d.json, false), p.values, tokenKey)
  {
    CommitsByFile(d, p, tokenKey, 4, unreadable);
    CommitsByFile(d, p, tokenKey, 4, false);
    ReplaceableIff(DocumentFields(d.json, false), p.values, tokenKey);
  }

  /** What the commits leave, file by file. */
  lemma CommitsByFile(d: Disk, p: Payload, tokenKey: string, n: nat, unreadable: bool)
    ensures Commits(d, p, tokenKey, n, unreadable) == Disk(
      if n > 0 then WithURL(d, p.values).url else d.url,
      if n > 1 then Some(Print(Visible(p.values))) else d.env,
      if n > 2 then Doc(Patch(DocumentFields(d.json, unreadable), p.values, tokenKey)) else d.json,
      if n > 3 then WithVersion(d, p.version).state else d.state)
  {
  }

  lemma {:induction false} ReadableIsNotOverwritten(m: Machine, p: Payload, tokenKey: string, attempts: seq<Attempt>)
    requires forall a :: a in attempts ==> !a.faults.read
    ensures !Overwritten(m, p, tokenKey, attempts)
    decreases |attempts|
  {
    if attempts != [] {
      ReadableIsNotOverwritten(Next(m, p, tokenKey, attempts[0]), p, tokenKey, attempts[1..]);
    }
  }

  /** A success means that the version is stored, now and after every later delivery of the same payload. */
  lemma {:induction false} SuccessIsStored(m: Machine, p: Payload, tokenKey: string, attempts: seq<Attempt>, i: nat)
    requires i < |attempts|
    requires AckOf(Redeliver(m, p, tokenKey, attempts[..i]).disk, p, attempts[i]) == Some(Success(p.version))
    ensures Stored(Redeliver(m, p, tokenKey, attempts).disk, p)
    decreases i
  {
    var next := Next(m, p, tokenKey, attempts[0]);
    if i == 0 {
      assert attempts[..0] == [];
      StoredIsFinal(next, p, tokenKey, attempts[1..]);
    } else {
      assert attempts[..i][1..] == attempts[1..][..i - 1];
      SuccessIsStored(next, p, tokenKey, attempts[1..], i - 1);
    }
  }

  /** Once a payload with a URL is acknowledged as a success, it is in memory and on disk. */
  lemma SuccessSetsURL(m: Machine, p: Payload, tokenKey: string, a: Attempt)
    requires AckOf(m.disk, p, a) == Some(Success(p.version))
    ensures var after := Next(m, p, tokenKey, a);
      if CloudURL(p.values) == "" then after.url == m.url && after.disk.url == m.disk.url
      else after.url == after.disk.url == CloudURL(p.values)
  {
  }

  lemma {:induction false} LastDelivery(m: Machine, p: Payload, tokenKey: string, before: seq<Attempt>, a: Attempt)
    ensures Redeliver(m, p, tokenKey, before + [a]) == Next(Redeliver(m, p, tokenKey, before), p, tokenKey, a)
    decreases |before|
  {
    if before == [] {
      assert [] + [a] == [a] && [a][1..] == [];
    } else {
      assert (before + [a])[1..] == before[1..] + [a];
      LastDelivery(Next(m, p, tokenKey, before[0]), p, tokenKey, before[1..], a);
    }
  }

  lemma {:induction false} NoURLKeepsURL(m: Machine, p: Payload, tokenKey: string, attempts: seq<Attempt>)
    requires CloudURL(p.values) == "" && m.url == m.disk.url
    ensures Redeliver(m, p, tokenKey, attempts).url == m.url == Redeliver(m, p, tokenKey, attempts).disk.url
    decreases |attempts|
  {
    if attempts != [] {
      CommitsByFile(m.disk, p, tokenKey, CommitsOf(m.disk, p, attempts[0]), attempts[0].faults.read);
      NoURLKeepsURL(Next(m, p, tokenKey, attempts[0]), p, tokenKey, attempts[1..]);
    }
  }

  /** The last of the deliveries is acknowledged as a success. */
  ghost predicate EndsInSuccess(m: Machine, p: Payload, tokenKey: string, before: seq<Attempt>, last: Attempt) {
    AckOf(Redeliver(m, p, tokenKey, before).disk, p, last) == Some(Success(p.version))
  }

  /** Redelivering until it succeeds, however often the daemon crashed or failed in between, has the effect of one
      undisturbed `Apply` on the daemon's URL, .env, openclaw.json and the stored state, if and only if no attempt
      replaced openclaw.json unread, or there was nothing in it to keep. */
  lemma RetryUntilSuccess(m: Machine, p: Payload, tokenKey: string, before: seq<Attempt>, last: Attempt,
      smooth: Attempt)
    requires Pending(m.disk, p) && EndsInSuccess(m, p, tokenKey, before, last)
    requires EndsInSuccess(m, p, tokenKey, [], smooth) && !smooth.faults.read
    ensures Redeliver(m, p, tokenKey, before + [last]).disk == Redeliver(m, p, tokenKey, [smooth]).disk <==>
      || !Overwritten(m, p, tokenKey, before + [last])
      || Replaceable(DocumentFields(m.disk.json, false), p.values, tokenKey)
  {
    var attempts := before + [last];
    assert attempts[..|before|] == before;
    SuccessIsStored(m, p, tokenKey, attempts, |before|);
    ConvergesIff(m, p, tokenKey, attempts);
    OneDelivery(m, p, tokenKey, smooth);
  }

  lemma OneDelivery(m: Machine, p: Payload, tokenKey: string, a: Attempt)
    requires AckOf(m.disk, p, a) == Some(Success(p.version))
    ensures Redeliver(m, p, tokenKey, [a]).disk == Commits(m.disk, p, tokenKey, 4, a.faults.read)
  {
    assert [a][1..] == [];
  }

  /** And on the URL in memory, in any case if the payload has one, or if memory and disk agreed to begin with. */
  lemma RetryUntilSuccessInMemory(m: Machine, p: Payload, tokenKey: string, before: seq<Attempt>, last: Attempt,
      smooth: Attempt)
    requires EndsInSuccess(m, p, tokenKey, before, last) && EndsInSuccess(m, p, tokenKey, [], smooth)
    requires CloudURL(p.values) != "" || m.url == m.disk.url
    ensures Redeliver(m, p, tokenKey, before + [last]).url == Redeliver(m, p, tokenKey, [smooth]).url
  {
    if CloudURL(p.values) == "" {
      NoURLKeepsURL(m, p, tokenKey, before + [last]);
      NoURLKeepsURL(m, p, tokenKey, [smooth]);
    } else {
      LastDelivery(m, p, tokenKey, before, last);
      LastDelivery(m, p, tokenKey, [], smooth);
      assert [] + [smooth] == [smooth];
      SuccessSetsURL(Redeliver(m, p, tokenKey, before), p, tokenKey, last);
      SuccessSetsURL(m, p, tokenKey, smooth);
    }
  }

  const CHANNELS: Fields := map["channels" := JBool(true)]
  const FOUND := Machine(Disk("", None, Doc(CHANNELS), Some(NO_STATE)), "")
  const FIRST := Payload(1, map[])
  const BLIND := Attempt(NOTHING_FAILS.(read := true, health := true), None)
  const RETRY := Attempt(NOTHING_FAILS, None)

  /** One input: openclaw.json cannot be read once, the health check of that attempt fails, and the retry goes
      through. The settings the file had are lost; had it been readable, they would have been kept. */
  lemma UnreadableLosesSettings(tokenKey: string)
    ensures var lost := Redeliver(FOUND, FIRST, tokenKey, [BLIND, RETRY]).disk;
      var kept := Redeliver(FOUND, FIRST, tokenKey, [RETRY]).disk;
      && Stored(lost, FIRST) && Stored(kept, FIRST)
      && Setting(lost) == None && Setting(kept) == Some(JBool(true))
  {
    BlindThenRetry(tokenKey);
    JustRetry(tokenKey);
    CommitsByFile(FOUND.disk, FIRST, tokenKey, 4, true);
    CommitsByFile(FOUND.disk, FIRST, tokenKey, 4, false);
    ChannelsMatter(tokenKey);
  }

  /** What openclaw.json says about channels. */
  function Setting(d: Disk): Option<JSON> {
    match d.json case Doc(fields) => Lookup(fields, ["channels"]) case _ => None
  }

  lemma ChannelsMatter(tokenKey: string)
    ensures Lookup(Patch(map[], map[], tokenKey), ["channels"]) == None
    ensures Lookup(Patch(CHANNELS, map[], tokenKey), ["channels"]) == Some(JBool(true))
  {
    assert "channels" !in SECTIONS;
    PatchKeepsOtherSections(CHANNELS, map[], tokenKey, ["channels"]);
    PatchKeepsOtherSections(map[], map[], tokenKey, ["channels"]);
  }

  lemma BlindThenRetry(tokenKey: string)
    ensures Redeliver(FOUND, FIRST, tokenKey, [BLIND, RETRY]).disk == Commits(FOUND.disk, FIRST, tokenKey, 4, true)
    ensures Stored(Redeliver(FOUND, FIRST, tokenKey, [BLIND, RETRY]).disk, FIRST)
  {
    var next := Next(FOUND, FIRST, tokenKey, BLIND);
    BlindLeaves(tokenKey);
    NoURLGiven();
    assert [BLIND, RETRY][1..] == [RETRY];
    OneDelivery(next, FIRST, tokenKey, RETRY);
    CommitsByFile(next.disk, FIRST, tokenKey, 4, false);
    CommitsByFile(FOUND.disk, FIRST, tokenKey, 4, true);
    PatchIdempotent(map[], map[], tokenKey);
  }

  lemma BlindLeaves(tokenKey: string)
    ensures Next(FOUND, FIRST, tokenKey, BLIND).disk ==
      Disk("", Some(Print(Visible(map[]))), Doc(Patch(map[], map[], tokenKey)), Some(NO_STATE))
  {
    NoURLGiven();
    assert CommitsOf(FOUND.disk, FIRST, BLIND) == 3;
    CommitsByFile(FOUND.disk, FIRST, tokenKey, 3, true);
  }

  lemma JustRetry(tokenKey: string)
    ensures Redeliver(FOUND, FIRST, tokenKey, [RETRY]).disk == Commits(FOUND.disk, FIRST, tokenKey, 4, false)
    ensures Stored(Redeliver(FOUND, FIRST, tokenKey, [RETRY]).disk, FIRST)
  {
    NoURLGiven();
    OneDelivery(FOUND, FIRST, tokenKey, RETRY);
    CommitsByFile(FOUND.disk, FIRST, tokenKey, 4, false);
  }

  lemma NoURLGiven()
    ensures CloudURL(map[]) == ""
  {
    BlankChars("");
  }
}
