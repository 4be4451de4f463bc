/** Whole serial runs of everything that writes the state file. */
module ConfigVersions {
  import opened GoText
  import opened Json
  import opened Store
  import opened ConfigMachine

  datatype Event =
    | Delivery(payload: Payload, attempt: Attempt)
    | TokenOffered(token: string, unreadable: bool, faults: WriteFaults)
    | IdentityNeeded(created: Option<Identity>, unreadable: bool, faults: WriteFaults)

  ghost function After(m: Machine, tokenKey: string, e: Event): Machine {
    match e
    case Delivery(p, a) => Next(m, p, tokenKey, a)
    case TokenOffered(token, unreadable, faults) =>
      m.(disk := m.disk.(state := AfterToken(m.disk.state, token, unreadable, faults)))
    case IdentityNeeded(created, unreadable, faults) =>
      m.(disk := m.disk.(state := AfterIdentity(m.disk.state, created, unreadable, faults)))
  }

  ghost function Run(m: Machine, tokenKey: string, events: seq<Event>): Machine
    decreases |events|
  {
    if events == [] then m else Run(After(m, tokenKey, events[0]), tokenKey, events[1..])
  }

  /** The versions acknowledged with success, in order. */
  ghost function Successes(m: Machine, tokenKey: string, events: seq<Event>): seq<int>
    decreases |events|
  {
    if events == [] then []
    else Succeeded(m, events[0]) + Successes(After(m, tokenKey, events[0]), tokenKey, events[1..])
  }

  function Succeeded(m: Machine, e: Event): seq<int> {
    if e.Delivery? && AckOf(m.disk, e.payload, e.attempt) == Some(Success(e.payload.version)) then [e.payload.version]
    else []
  }

  predicate NotBelow(later: Option<State>, earlier: Option<State>) {
    later.Some? == earlier.Some? && (earlier.Some? ==> later.value.version >= earlier.value.version)
  }

  /** One event never lowers the version, and what it acknowledges as a success is stored. */
  lemma OneEvent(m: Machine, tokenKey: string, e: Event)
    ensures NotBelow(After(m, tokenKey, e).disk.state, m.disk.state)
    ensures Succeeded(m, e) != [] ==>
      && m.disk.state.Some? && m.disk.state.value.version < e.payload.version
      && Stored(After(m, tokenKey, e).disk, e.payload)
  {
  }

  /** The stored version never decreases, ... */
  lemma {:induction false} VersionNeverDecreases(m: Machine, tokenKey: string, events: seq<Event>)
    ensures NotBelow(Run(m, tokenKey, events).disk.state, m.disk.state)
    decreases |events|
  {
    if events != [] {
      OneEvent(m, tokenKey, events[0]);
      VersionNeverDecreases(After(m, tokenKey, events[0]), tokenKey, events[1..]);
    }
  }

  ghost predicate Increasing(from: int, versions: seq<int>, upTo: int) {
    && (forall i :: 0 <= i < |versions| ==> from < versions[i] <= upTo)
    && (forall i, j :: 0 <= i < j < |versions| ==> versions[i] < versions[j])
  }

  /** ... and the acknowledged successes have strictly increasing versions, all above what was stored before the
      run and at most what is stored after it; so no version is acknowledged twice. */
  lemma {:induction false} SuccessesIncrease(m: Machine, tokenKey: string, events: seq<Event>)
    requires m.disk.state.Some?
    ensures Run(m, tokenKey, events).disk.state.Some?
    ensures Increasing(m.disk.state.value.version, Successes(m, tokenKey, events),
      Run(m, tokenKey, events).disk.state.value.version)
    decreases |events|
  {
    if events != [] {
      var next := After(m, tokenKey, events[0]);
      OneEvent(m, tokenKey, events[0]);
      VersionNeverDecreases(next, tokenKey, events[1..]);
      SuccessesIncrease(next, tokenKey, events[1..]);
    }
  }

  /** While the state file cannot be parsed, nothing is ever written or acknowledged as a success. */
  lemma {:induction false} UnparsableStateIsStuck(m: Machine, tokenKey: string, events: seq<Event>)
    requires m.disk.state.None?
    ensures Run(m, tokenKey, events).disk == m.disk && Successes(m, tokenKey, events) == []
    decreases |events|
  {
    if events != [] {
      UnparsableStateIsStuck(After(m, tokenKey, events[0]), tokenKey, events[1..]);
    }
  }

  /** Every other acknowledgement leaves the stored state as it was, and an ignored delivery the whole disk. */
  lemma NoSuccessKeepsState(m: Machine, p: Payload, tokenKey: string, a: Attempt)
    requires AckOf(m.disk, p, a).Some? && AckOf(m.disk, p, a) != Some(Success(p.version))
    ensures Next(m, p, tokenKey, a).disk.state == m.disk.state
    ensures AckOf(m.disk, p, a).value.Ignored? ==> Next(m, p, tokenKey, a) == m
  {
    var n := CommitsOf(m.disk, p, a);
    assert n < 4;
    CommitsByFile(m.disk, p, tokenKey, n, a.faults.read);
  }

  /** Something after .env goes wrong, short of a panic. */
  predicate FailsAfterEnv(d: Disk, faults: Faults) {
    var doc := Document(d.json, faults.read);
    !doc.Null? && (!doc.Doc? || !faults.json.None() || faults.restart || faults.health || !faults.save.None())
  }

  /** A delivery that is answered with a failure has all the same changed .env if and only if .env got written,
      something failed after that, and the new content differs from the old. */
  lemma FailedChangesEnvIff(m: Machine, p: Payload, tokenKey: string, a: Attempt)
    ensures
      (AckOf(m.disk, p, a).Some? && AckOf(m.disk, p, a).value.Failed? && Next(m, p, tokenKey, a).disk.env != m.disk.env)
      <==>
      (&& a.diesAfter.None? && WritesEnv(m.disk, p, a.faults) && FailsAfterEnv(m.disk, a.faults)
       && m.disk.env != Some(EnvFile.Print(EnvFile.Visible(p.values))))
  {
    CommitsByInputs(m.disk, p, a);
    CommitsByFile(m.disk, p, tokenKey, CommitsOf(m.disk, p, a), a.faults.read);
  }

  /** One input: only the health check fails. */
  lemma FailedMayChangeEnv(tokenKey: string)
    ensures var m := Machine(Disk("", None, Missing, Some(NO_STATE)), ""); var p := Payload(1, map["API_KEY" := "k"]);
      var a := Attempt(NOTHING_FAILS.(health := true), None);
      && AckOf(m.disk, p, a) == Some(Failed(1, GatewayUnavailable))
      && Next(m, p, tokenKey, a).disk.state == m.disk.state
      && m.disk.env == None && Next(m, p, tokenKey, a).disk.env == Some(EnvFile.Print(EnvFile.Visible(p.values)))
  {
    var m, p := Machine(Disk("", None, Missing, Some(NO_STATE)), ""), Payload(1, map["API_KEY" := "k"]);
    CommitsByFile(m.disk, p, tokenKey, 3, false);
  }

  /** What a state file says apart from the version. */
  datatype Credentials = Credentials(token: string, identity: Option<Identity>)

  function CredentialsOf(s: Option<State>): Option<Credentials> {
    if s.None? then None else Some(Credentials(s.value.token, s.value.identity))
  }

  function OnlyDeliveries(events: seq<Event>): seq<Event> {
    if events == [] then []
    else (if events[0].Delivery? then [events[0]] else []) + OnlyDeliveries(events[1..])
  }

  function NoDeliveries(events: seq<Event>): seq<Event> {
    if events == [] then []
    else (if events[0].Delivery? then [] else [events[0]]) + NoDeliveries(events[1..])
  }

  ghost predicate SameButCredentials(a: Machine, b: Machine) {
    && a.url == b.url && a.disk.url == b.disk.url && a.disk.env == b.disk.env && a.disk.json == b.disk.json
    && a.disk.state.Some? == b.disk.state.Some?
    && (a.disk.state.Some? ==> a.disk.state.value.version == b.disk.state.value.version)
  }

  /** Config deliveries do not interfere with the credentials: they end up as if none had been made. */
  lemma {:induction false} DeliveriesKeepCredentials(m: Machine, n: Machine, tokenKey: string, events: seq<Event>)
    requires CredentialsOf(m.disk.state) == CredentialsOf(n.disk.state)
    ensures CredentialsOf(Run(m, tokenKey, events).disk.state) ==
      CredentialsOf(Run(n, tokenKey, NoDeliveries(events)).disk.state)
    decreases |events|
  {
    if events != [] {
      var e, rest := events[0], NoDeliveries(events[1..]);
      if e.Delivery? {
        assert [] + rest == rest;
        DeliveriesKeepCredentials(After(m, tokenKey, e), n, tokenKey, events[1..]);
      } else {
        assert ([e] + rest)[1..] == rest;
        DeliveriesKeepCredentials(After(m, tokenKey, e), After(n, tokenKey, e), tokenKey, events[1..]);
      }
    }
  }

  /** Nor do the credentials interfere with the config: everything else, and every success, is as if they had
      never been written. */
  lemma {:induction false} CredentialsKeepConfig(m: Machine, n: Machine, tokenKey: string, events: seq<Event>)
    requires SameButCredentials(m, n)
    ensures SameButCredentials(Run(m, tokenKey, events), Run(n, tokenKey, OnlyDeliveries(events)))
    ensures Successes(m, tokenKey, events) == Successes(n, tokenKey, OnlyDeliveries(events))
    decreases |events|
  {
    if events != [] {
      var e, rest := events[0], OnlyDeliveries(events[1..]);
      if e.Delivery? {
        assert ([e] + rest)[1..] == rest;
        DeliveryAlike(m, n, tokenKey, e.payload, e.attempt);
        CredentialsKeepConfig(After(m, tokenKey, e), After(n, tokenKey, e), tokenKey, events[1..]);
      } else {
        assert [] + rest == rest;
        CredentialsKeepConfig(After(m, tokenKey, e), n, tokenKey, events[1..]);
      }
    }
  }

  lemma DeliveryAlike(m: Machine, n: Machine, tokenKey: string, p: Payload, a: Attempt)
    requires SameButCredentials(m, n)
    ensures SameButCredentials(Next(m, p, tokenKey, a), Next(n, p, tokenKey, a))
    ensures AckOf(m.disk, p, a) == AckOf(n.disk, p, a)
  {
    ProgressAlike(m, n, p, a.faults);
    CommitsAlike(m, n, p, tokenKey, CommitsOf(m.disk, p, a), a.faults.read);
  }

  lemma ProgressAlike(m: Machine, n: Machine, p: Payload, faults: Faults)
    requires SameButCredentials(m, n)
    ensures Progress(m.disk, p, faults) == Progress(n.disk, p, faults)
    ensures ReachesURL(m.disk, p, faults) == ReachesURL(n.disk, p, faults)
  {
  }

  lemma CommitsAlike(m: Machine, n: Machine, p: Payload, tokenKey: string, k: nat, unreadable: bool)
    requires SameButCredentials(m, n)
    ensures SameButCredentials(
      m.(disk := Commits(m.disk, p, tokenKey, k, unreadable)), n.(disk := Commits(n.disk, p, tokenKey, k, unreadable)))
  {
    CommitsByFile(m.disk, p, tokenKey, k, unreadable);
    CommitsByFile(n.disk, p, tokenKey, k, unreadable);
  }

  predicate Complete(i: Identity) { !Blank(i.deviceID) && !Blank(i.publicKey) && !Blank(i.privateKey) }

  /** An identity is replaced if and only if it is not complete, and there is another that can be stored; nothing else
      of the state changes. */
  lemma IdentityIs(s: State, created: Option<Identity>, unreadable: bool, faults: WriteFaults)
    ensures var after := AfterIdentity(Some(s), created, unreadable, faults);
      after == Some(s.(identity :=
        if !(s.identity.Some? && Complete(s.identity.value)) && created.Some? && !unreadable && faults.None()
        then created else s.identity))
  {
  }

  /** Once a complete identity is stored, it is kept for good, whatever happens. */
  lemma {:induction false} IdentityStays(m: Machine, tokenKey: string, events: seq<Event>)
    requires m.disk.state.Some? && m.disk.state.value.identity.Some? && Complete(m.disk.state.value.identity.value)
    ensures Run(m, tokenKey, events).disk.state.Some?
    ensures Run(m, tokenKey, events).disk.state.value.identity == m.disk.state.value.identity
    decreases |events|
  {
    if events != [] {
      if events[0].Delivery? {
        OneEvent(m, tokenKey, events[0]);
        DeliveryKeepsIdentity(m, events[0].payload, tokenKey, events[0].attempt);
      }
      IdentityStays(After(m, tokenKey, events[0]), tokenKey, events[1..]);
    }
  }

  lemma DeliveryKeepsIdentity(m: Machine, p: Payload, tokenKey: string, a: Attempt)
    requires m.disk.state.Some?
    ensures var after := Next(m, p, tokenKey, a).disk.state;
      after.Some? && after.value.identity == m.disk.state.value.identity
  {
    CommitsByFile(m.disk, p, tokenKey, CommitsOf(m.disk, p, a), a.faults.read);
  }

  /** The URL in memory is the one on disk, unless it could not be persisted or a delivery is in progress. */
  ghost predicate URLPersisted(m: Machine) { m.url == m.disk.url }

  /** A delivery leaves them equal, unless it fails to persist a new URL. */
  lemma URLStaysPersisted(m: Machine, p: Payload, tokenKey: string, a: Attempt)
    requires URLPersisted(m)
    ensures URLPersisted(Next(m, p, tokenKey, a)) <==>
      a.diesAfter.Some? || !ReachesURL(m.disk, p, a.faults) || CommitsOf(m.disk, p, a) > 0 || !AckOf(m.disk, p, a).Some?
      || m.disk.url == CloudURL(p.values)
  {
  }
}
