/** What a delivery does to each file, and what it answers, in terms of what was there and what fails. */
module ConfigCauses {
  import opened GoText
  import opened Json
  import opened JsonEdits
  import opened Settings
  import opened JsonPatch
  import opened EnvFile
  import opened Store
  import opened ConfigMachine
  import opened ConfigVersions

  /** The cloud URL a payload gives: CLOUD_WS_URL, or else EDGE_GATEWAY_WS_URL. */
  ghost predicate Gives(values: Values, url: string) {
    || GivesAt(values, "CLOUD_WS_URL", url)
    || (GivesAt(values, "EDGE_GATEWAY_WS_URL", url) && forall other :: !GivesAt(values, "CLOUD_WS_URL", other))
  }

  ghost predicate GivesAt(values: Values, key: string, url: string) {
    key in values && !Blank(values[key]) && url == TrimSpace(values[key])
  }

  ghost predicate GivesNone(values: Values) {
    forall key :: key in values && key in {"CLOUD_WS_URL", "EDGE_GATEWAY_WS_URL"} ==> Blank(values[key])
  }

  lemma CloudURLIsGiven(values: Values)
    ensures CloudURL(values) == "" <==> GivesNone(values)
    ensures forall url :: Gives(values, url) <==> url != "" && CloudURL(values) == url
  {
    BlankChars("");
    assert GivesAt(values, "CLOUD_WS_URL", Trimmed(values, "CLOUD_WS_URL")) <==>
      Trimmed(values, "CLOUD_WS_URL") != "";
  }

  /** A new version, and the state can be read. */
  predicate IsNew(d: Disk, p: Payload, f: Faults) { !f.load && d.state.Some? && d.state.value.version < p.version }

  ghost predicate URLPasses(d: Disk, p: Payload, f: Faults) {
    IsNew(d, p, f) && !f.mkdir && (GivesNone(p.values) || f.daemon.None())
  }

  ghost predicate EnvPasses(d: Disk, p: Payload, f: Faults) { URLPasses(d, p, f) && f.env.None() }

  /** openclaw.json could not be read, or there was none, or it was empty, or it is an object. */
  ghost predicate JsonPasses(d: Disk, p: Payload, f: Faults) {
    EnvPasses(d, p, f) && (f.read || d.json.Missing? || d.json.Empty? || d.json.Doc?) && f.json.None()
  }

  ghost predicate AllPasses(d: Disk, p: Payload, f: Faults) {
    JsonPasses(d, p, f) && !f.restart && !f.health && f.save.None()
  }

  /** What each answer means. No answer: the process is gone. */
  lemma AnswersByCause(d: Disk, p: Payload, f: Faults)
    ensures var ack := Progress(d, p, f).1;
      && (ack == Some(Ignored(p.version)) <==> !f.load && d.state.Some? && p.version <= d.state.value.version)
      && (ack == Some(Success(p.version)) <==> AllPasses(d, p, f))
      && (ack == Some(Failed(p.version, GatewayUnavailable)) <==> JsonPasses(d, p, f) && !f.restart && f.health)
      && (ack == Some(Failed(p.version, InternalError)) <==>
          f.load || d.state.None? || (JsonPasses(d, p, f) && !f.restart && !f.health && !f.save.None()))
      && (ack == None <==> EnvPasses(d, p, f) && !f.read && d.json.Null?)
      && (ack == Some(Failed(p.version, ConfigApplyFailed)) <==>
          IsNew(d, p, f) && (!JsonPasses(d, p, f) || f.restart) && !(EnvPasses(d, p, f) && !f.read && d.json.Null?))
  {
    CloudURLIsGiven(p.values);
  }

  /** What a document is patched from: nothing but an object is kept. */
  function Kept(json: JsonFile, unreadable: bool): Fields {
    if json.Doc? && !unreadable then json.fields else map[]
  }

  /** The four places a delivery changes, each under its own condition, and nothing else. */
  lemma EffectsByCause(m: Machine, p: Payload, tokenKey: string, a: Attempt)
    ensures var d, f, after := m.disk, a.faults, Next(m, p, tokenKey, a);
      && (URLPasses(d, p, f) && Outlives(a, 1) && !GivesNone(p.values) ==> Gives(p.values, after.disk.url))
      && (!(URLPasses(d, p, f) && Outlives(a, 1)) || GivesNone(p.values) ==> after.disk.url == d.url)
      && after.disk.env == (if EnvPasses(d, p, f) && Outlives(a, 2) then Some(Print(Visible(p.values))) else d.env)
      && after.disk.json == (if JsonPasses(d, p, f) && Outlives(a, 3)
                             then Doc(Patch(Kept(d.json, f.read), p.values, tokenKey)) else d.json)
      && after.disk.state == (if AllPasses(d, p, f) && Outlives(a, 4)
                              then Some(d.state.value.(version := p.version)) else d.state)
  {
    var n := CommitsOf(m.disk, p, a);
    CloudURLIsGiven(p.values);
    CommitsByFile(m.disk, p, tokenKey, n, a.faults.read);
    HowFar(m.disk, p, a);
  }

  lemma HowFar(d: Disk, p: Payload, a: Attempt)
    ensures var n := CommitsOf(d, p, a);
      && (n >= 1 <==> URLPasses(d, p, a.faults) && Outlives(a, 1))
      && (n >= 2 <==> EnvPasses(d, p, a.faults) && Outlives(a, 2))
      && (n >= 3 <==> JsonPasses(d, p, a.faults) && Outlives(a, 3))
      && (n >= 4 <==> AllPasses(d, p, a.faults) && Outlives(a, 4))
  {
    CloudURLIsGiven(p.values);
  }

  /** The URL in memory: that of a new version, even if it could not be persisted; after a crash, the one on disk. */
  lemma MemoryByCause(m: Machine, p: Payload, tokenKey: string, a: Attempt)
    ensures var d, f, after := m.disk, a.faults, Next(m, p, tokenKey, a);
      if a.diesAfter.Some? || (EnvPasses(d, p, f) && !f.read && d.json.Null?) then after.url == after.disk.url
      else if IsNew(d, p, f) && !f.mkdir && !GivesNone(p.values) then Gives(p.values, after.url)
      else after.url == m.url
  {
    CloudURLIsGiven(p.values);
    AnswersByCause(m.disk, p, a.faults);
  }

  /** A version is pending if and only if delivering it does anything. */
  lemma PendingIff(d: Disk, p: Payload)
    ensures Pending(d, p) <==> exists f :: Progress(d, p, f).0 > 0
  {
    if Pending(d, p) {
      assert Progress(d, p, NOTHING_FAILS).0 > 0;
    }
  }

  // ---------- a file that is no object ----------

  predicate NoObject(json: JsonFile) { json.Malformed? || json.Null? }

  /** A file is replaced only if it could not be read, was missing or empty, or is an object. */
  predicate Allowed(before: JsonFile, after: JsonFile, unreadable: bool) {
    after != before ==> unreadable || before.Missing? || before.Empty? || before.Doc?
  }

  lemma JsonChangesOnlyIf(m: Machine, p: Payload, tokenKey: string, a: Attempt)
    ensures Allowed(m.disk.json, Next(m, p, tokenKey, a).disk.json, a.faults.read)
  {
    EffectsByCause(m, p, tokenKey, a);
  }

  lemma CommitsKeepJson(d: Disk, p: Payload, tokenKey: string, f: Faults)
    ensures Allowed(d.json, Commits(d, p, tokenKey, Progress(d, p, f).0, f.read).json, f.read)
  {
    CommitsByFile(d, p, tokenKey, Progress(d, p, f).0, f.read);
  }

  ghost predicate AlwaysReadable(events: seq<Event>) {
    forall e :: e in events && e.Delivery? ==> !e.attempt.faults.read
  }

  /** As long as it can be read, a malformed file stays as it is, and so does a null; whatever is delivered, in
      however many attempts, nothing is acknowledged as a success, and the stored version stays. */
  lemma {:induction false} NoObjectStays(m: Machine, tokenKey: string, events: seq<Event>)
    requires NoObject(m.disk.json) && AlwaysReadable(events)
    ensures Run(m, tokenKey, events).disk.json == m.disk.json
    ensures Successes(m, tokenKey, events) == []
    ensures SameVersion(m.disk.state, Run(m, tokenKey, events).disk.state)
    decreases |events|
  {
    if events != [] {
      var e := events[0];
      if e.Delivery? {
        EffectsByCause(m, e.payload, tokenKey, e.attempt);
        AnswersByCause(m.disk, e.payload, e.attempt.faults);
      }
      NoObjectStays(After(m, tokenKey, e), tokenKey, events[1..]);
    }
  }

  predicate SameVersion(a: Option<State>, b: Option<State>) {
    a.Some? == b.Some? && (a.Some? ==> a.value.version == b.value.version)
  }

  /** What a new version is answered with then: a failure if the file is malformed, nothing if it is null. */
  lemma NoObjectAnswers(d: Disk, p: Payload, f: Faults)
    requires NoObject(d.json) && EnvPasses(d, p, f) && !f.read
    ensures Progress(d, p, f).1 == if d.json.Malformed? then Some(Failed(p.version, ConfigApplyFailed)) else None
  {
    AnswersByCause(d, p, f);
  }

  // ---------- redelivery ----------

  function Redeliveries(p: Payload, attempts: seq<Attempt>): seq<Event> {
    seq(|attempts|, i requires 0 <= i < |attempts| => Delivery(p, attempts[i]))
  }

  lemma {:induction false} RedeliverIsRun(m: Machine, p: Payload, tokenKey: string, attempts: seq<Attempt>)
    ensures Run(m, tokenKey, Redeliveries(p, attempts)) == Redeliver(m, p, tokenKey, attempts)
    decreases |attempts|
  {
    if attempts != [] {
      assert Redeliveries(p, attempts)[1..] == Redeliveries(p, attempts[1..]);
      RedeliverIsRun(Next(m, p, tokenKey, attempts[0]), p, tokenKey, attempts[1..]);
    }
  }

  /** So redelivering one payload never gets past such a file. */
  lemma MalformedIsNeverOverwritten(m: Machine, p: Payload, tokenKey: string, attempts: seq<Attempt>)
    requires NoObject(m.disk.json) && forall a :: a in attempts ==> !a.faults.read
    ensures Redeliver(m, p, tokenKey, attempts).disk.json == m.disk.json
    ensures Pending(m.disk, p) ==> !Stored(Redeliver(m, p, tokenKey, attempts).disk, p)
  {
    RedeliverIsRun(m, p, tokenKey, attempts);
    NoObjectStays(m, tokenKey, Redeliveries(p, attempts));
  }
}
