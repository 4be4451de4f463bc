/** `Apply` on files that are really replaced one after the other; at every moment the disk is at one of the commits. */
module ConfigManager {
  import opened Json
  import opened JsonEdits
  import opened Settings
  import opened JsonPatch
  import opened JsonDocument
  import opened EnvFile
  import opened Store
  import opened ConfigMachine
  import ConfigCauses
  import JsonConfig

  datatype Paths = Paths(daemon: string, env: string, json: string, state: string)
  {
    predicate Distinct() {
      daemon != env && daemon != json && daemon != state && env != json && env != state && json != state
    }

    function All(): set<string> { {daemon, env, json, state} }
  }

  /** How the files are encoded; the daemon's own file as far as its cloud URL goes. */
  datatype Formats = Formats(
    state: Codec, writeDaemon: string -> string, readDaemon: string -> string,
    writeJson: Fields -> string, readJson: string -> JsonFile)

  ghost predicate Faithful(f: Formats) {
    && RoundTrips(f.state)
    && (forall url :: f.readDaemon(f.writeDaemon(url)) == url)
    && (forall doc :: f.writeJson(doc) != "" && f.readJson(f.writeJson(doc)) == Doc(doc))
    && (forall text :: !f.readJson(text).Missing? && !f.readJson(text).Empty?)
  }

  function JsonIn(f: Formats, path: string, files: Files): JsonFile {
    if path !in files then Missing else if files[path] == "" then Empty else f.readJson(files[path])
  }

  function DiskOf(p: Paths, f: Formats, files: Files): Disk {
    Disk(
      if p.daemon in files then f.readDaemon(files[p.daemon]) else "",
      if p.env in files then Some(files[p.env]) else None,
      JsonIn(f, p.json, files),
      StateIn(f.state, p.state, files))
  }

  /** The name `os.CreateTemp` picks is not in use, nor that of one of the files. */
  predicate FreshTemp(w: WriteFaults, paths: Paths, files: Files) { w.temp !in files && w.temp !in paths.All() }

  predicate FreshTemps(faults: Faults, paths: Paths, files: Files) {
    && FreshTemp(faults.daemon, paths, files) && FreshTemp(faults.env, paths, files)
    && FreshTemp(faults.json, paths, files) && FreshTemp(faults.save, paths, files)
  }

  lemma StillFresh(faults: Faults, paths: Paths, before: Files, after: Files)
    requires FreshTemps(faults, paths, before) && after.Keys <= before.Keys + paths.All()
    ensures FreshTemps(faults, paths, after)
  {
  }

  /** From `from` on, the disk was always in one of two states. */
  ghost predicate AllEither(p: Paths, f: Formats, states: seq<Files>, from: nat, a: Disk, b: Disk) {
    forall i :: from <= i < |states| ==> DiskOf(p, f, states[i]) == a || DiskOf(p, f, states[i]) == b
  }

  lemma DiskWithout(p: Paths, f: Formats, files: Files, temp: string)
    requires temp !in p.All()
    ensures DiskOf(p, f, files) == DiskOf(p, f, files - {temp})
  {
    assert forall path | path in p.All() :: path in files - {temp} <==> path in files;
    assert {p.daemon, p.env, p.json, p.state} <= p.All();
  }

  lemma EitherDisk(p: Paths, f: Formats, states: seq<Files>, from: nat, before: Files, after: Files, temp: string)
    requires AllOldOrNew(states, from, before, after, temp) && temp !in p.All()
    ensures AllEither(p, f, states, from, DiskOf(p, f, before), DiskOf(p, f, after))
  {
    forall i | from <= i < |states|
      ensures DiskOf(p, f, states[i]) == DiskOf(p, f, before) || DiskOf(p, f, states[i]) == DiskOf(p, f, after)
    {
      assert OldOrNew(states[i], before, after, temp);
      DiskWithout(p, f, states[i], temp);
    }
  }

  /** From `from` on, the disk was always at one of the first `n` commits. */
  ghost predicate AllCommits(p: Paths, f: Formats, states: seq<Files>, from: nat,
      d: Disk, payload: Payload, tokenKey: string, n: nat, unreadable: bool) {
    forall i :: from <= i < |states| ==> AtCommit(DiskOf(p, f, states[i]), d, payload, tokenKey, n, unreadable)
  }

  ghost predicate AtCommit(e: Disk, d: Disk, payload: Payload, tokenKey: string, n: nat, unreadable: bool) {
    exists k: nat :: k <= n && e == Commits(d, payload, tokenKey, k, unreadable)
  }

  lemma OneMoreStep(p: Paths, f: Formats, before: seq<Files>, after: seq<Files>, from: nat,
      d: Disk, payload: Payload, tokenKey: string, m: nat, n: nat, unreadable: bool)
    requires AllCommits(p, f, before, from, d, payload, tokenKey, m, unreadable) && before <= after && m <= n
    requires AllEither(p, f, after, |before|,
      Commits(d, payload, tokenKey, m, unreadable), Commits(d, payload, tokenKey, n, unreadable))
    ensures AllCommits(p, f, after, from, d, payload, tokenKey, n, unreadable)
  {
    forall i | from <= i < |after| ensures AtCommit(DiskOf(p, f, after[i]), d, payload, tokenKey, n, unreadable) {
      if i < |before| {
        assert AtCommit(DiskOf(p, f, before[i]), d, payload, tokenKey, m, unreadable);
      }
    }
  }

  /** What `Apply` leaves is what an attempt of ConfigMachine leaves, ... */
  lemma ApplyIsAttempt(d: Disk, url: string, payload: Payload, tokenKey: string, faults: Faults)
    requires Progress(d, payload, faults).1.Some?
    ensures Next(Machine(d, url), payload, tokenKey, Attempt(faults, None)) == Machine(
      Commits(d, payload, tokenKey, Progress(d, payload, faults).0, faults.read),
      if ReachesURL(d, payload, faults) then CloudURL(payload.values) else url)
  {
  }

  /** ... and so is what a crash at any moment of `Apply` leaves. */
  lemma CrashIsAttempt(e: Disk, d: Disk, url: string, payload: Payload, tokenKey: string, faults: Faults)
    requires AtCommit(e, d, payload, tokenKey, Progress(d, payload, faults).0, faults.read)
    ensures exists k: nat :: Next(Machine(d, url), payload, tokenKey, Attempt(faults, Some(k))) == Machine(e, e.url)
  {
    var k: nat :| k <= Progress(d, payload, faults).0 && e == Commits(d, payload, tokenKey, k, faults.read);
    assert CommitsOf(d, payload, Attempt(faults, Some(k))) == k;
  }

  lemma LastCommit(d: Disk, p: Payload, tokenKey: string, unreadable: bool, v: Disk)
    requires v == Commits(d, p, tokenKey, 3, unreadable)
    ensures v.state == d.state && WithVersion(v, p.version) == Commits(d, p, tokenKey, 4, unreadable)
  {
  }

  lemma JsonReplaced(p: Paths, f: Formats, files: Files, doc: Fields)
    requires p.Distinct() && Faithful(f)
    ensures DiskOf(p, f, files[p.json := f.writeJson(doc)]) == DiskOf(p, f, files).(json := Doc(doc))
  {
    assert f.readJson(f.writeJson(doc)) == Doc(doc);
  }

  class ConfigManager {
    const dir: Directory
    const store: FileStore
    const paths: Paths
    const formats: Formats
    const tokenKey: string
    var url: string

    constructor (dir: Directory, store: FileStore, paths: Paths, formats: Formats, tokenKey: string, url: string)
      requires dir.Valid() && store.dir == dir && store.path == paths.state && store.codec == formats.state
      requires paths.Distinct() && Faithful(formats)
      ensures Valid() && this.dir == dir && this.paths == paths && this.formats == formats && this.url == url
    {
      this.dir, this.store, this.paths, this.formats := dir, store, paths, formats;
      this.tokenKey, this.url := tokenKey, url;
    }

    ghost predicate Valid()
      reads this, dir, store
    {
      && dir.Valid() && store.dir == dir && store.path == paths.state && store.codec == formats.state
      && paths.Distinct() && Faithful(formats)
    }

    ghost function View(): Disk
      reads this, dir
    {
      DiskOf(paths, formats, dir.files)
    }

    /** One atomic write of one of the four files. */
    method Write(path: string, data: string, faults: WriteFaults) returns (ok: bool)
      requires Valid() && path in paths.All() && FreshTemp(faults, paths, dir.files)
      modifies dir
      ensures Valid() && old(dir.history) <= dir.history
      ensures ok <==> faults.None()
      ensures ok ==> dir.files == old(dir.files)[path := data]
      ensures !ok ==> View() == old(View())
      ensures AllEither(paths, formats, dir.history, |old(dir.history)|, old(View()), View())
    {
      ghost var before, start := dir.files, |dir.history|;
      ok := WriteAtomically(dir, path, data, faults);
      DiskWithout(paths, formats, dir.files, faults.temp);
      EitherDisk(paths, formats, dir.history, start, before, dir.files - {faults.temp}, faults.temp);
    }

    /** The URL changes in memory first, and stays changed if it cannot be persisted. */
    method UpdateDaemonCloudWSURL(values: Values, faults: WriteFaults) returns (ok: bool)
      requires Valid() && FreshTemp(faults, paths, dir.files)
      modifies this, dir
      ensures Valid() && old(dir.history) <= dir.history
      ensures ok <==> CloudURL(values) == "" || faults.None()
      ensures url == if CloudURL(values) == "" then old(url) else CloudURL(values)
      ensures View() == if ok then WithURL(old(View()), values) else old(View())
      ensures ok ==> dir.files.Keys <= old(dir.files.Keys) + paths.All()
      ensures AllEither(paths, formats, dir.history, |old(dir.history)|, old(View()), View())
    {
      var wsURL := Trimmed(values, "CLOUD_WS_URL");
      if wsURL == "" {
        wsURL := Trimmed(values, "EDGE_GATEWAY_WS_URL");
      }
      if wsURL == "" {
        return true;
      }
      url := wsURL;
      ok := Write(paths.daemon, formats.writeDaemon(wsURL), faults);
    }

    method UpdateEnv(values: Values, faults: WriteFaults) returns (ok: bool)
      requires Valid() && FreshTemp(faults, paths, dir.files)
      modifies dir
      ensures Valid() && old(dir.history) <= dir.history
      ensures ok <==> faults.None()
      ensures View() == if ok then WithEnv(old(View()), values) else old(View())
      ensures ok ==> dir.files.Keys <= old(dir.files.Keys) + paths.All()
      ensures AllEither(paths, formats, dir.history, |old(dir.history)|, old(View()), View())
    {
      var content := WriteEnv(values);
      ok := Write(paths.env, content, faults);
    }

    method ReadDocument(unreadable: bool) returns (doc: JsonFile)
      requires Valid()
      ensures doc == Document(View().json, unreadable)
    {
      if unreadable || paths.json !in dir.files || dir.files[paths.json] == "" {
        return Doc(map[]);
      }
      doc := formats.readJson(dir.files[paths.json]);
    }

    /** Decoded, patched in place, and encoded again. A document that is `null` is a nil map, and adding to it
        panics. */
    method UpdateJson(values: Values, unreadable: bool, faults: WriteFaults) returns (ok: bool, panics: bool)
      requires Valid() && FreshTemp(faults, paths, dir.files)
      modifies dir
      ensures Valid() && old(dir.history) <= dir.history
      ensures panics <==> Document(old(View()).json, unreadable).Null?
      ensures ok <==> Document(old(View()).json, unreadable).Doc? && faults.None()
      ensures !unreadable && old(View()).json.Malformed? ==> !ok && !panics && View() == old(View())
      ensures ok && (unreadable || old(View()).json.Missing? || old(View()).json.Empty?) ==>
        View().json == Doc(Patch(map[], values, tokenKey))
      ensures ok && !unreadable && old(View()).json.Doc? ==>
        View().json == Doc(Patch(old(View()).json.fields, values, tokenKey))
      ensures View() == if ok then WithJson(old(View()), values, tokenKey, unreadable) else old(View())
      ensures ok ==> dir.files.Keys <= old(dir.files.Keys) + paths.All()
      ensures AllEither(paths, formats, dir.history, |old(dir.history)|, old(View()), View())
    {
      var doc := ReadDocument(unreadable);
      if !doc.Doc? {
        return false, doc.Null?;
      }
      var patched := PatchDocument(doc.fields, values);
      JsonReplaced(paths, formats, dir.files, patched);
      assert View().(json := Doc(patched)) == WithJson(View(), values, tokenKey, unreadable);
      ok := Write(paths.json, formats.writeJson(patched), faults);
      panics := false;
    }

    method PatchDocument(doc: Fields, values: Values) returns (patched: Fields)
      ensures patched == Patch(doc, values, tokenKey)
    {
      var root := Decode(JObj(doc));
      JsonConfig.EnsureJSONConfig(root, values, tokenKey);
      var current := Encode(root);
      patched := current.fields;
    }

    method SaveVersion(state: State, version: Int64, faults: WriteFaults) returns (ok: bool)
      requires Valid() && FreshTemp(faults, paths, dir.files)
      requires View().state == Some(state)
      modifies dir
      ensures Valid() && old(dir.history) <= dir.history
      ensures ok <==> faults.None()
      ensures View() == if ok then WithVersion(old(View()), version) else old(View())
      ensures AllEither(paths, formats, dir.history, |old(dir.history)|, old(View()), View())
    {
      ghost var before, start := dir.files, |dir.history|;
      var next := state.(version := version);
      ok := store.Save(next, faults);
      DiskWithout(paths, formats, dir.files, faults.temp);
      EitherDisk(paths, formats, dir.history, start, before, dir.files - {faults.temp}, faults.temp);
    }

    /** .env and openclaw.json, once the URL is persisted: `d` is the disk before that. */
    method UpdateOpenClaw(p: Payload, faults: Faults, ghost d: Disk, ghost start: nat) returns (n: nat, panics: bool)
      requires Valid() && FreshTemps(faults, paths, dir.files)
      requires View() == Commits(d, p, tokenKey, 1, faults.read)
      requires AllCommits(paths, formats, dir.history, start, d, p, tokenKey, 1, faults.read)
      modifies dir
      ensures Valid() && old(dir.history) <= dir.history
      ensures 1 <= n <= 3 && View() == Commits(d, p, tokenKey, n, faults.read)
      ensures n == 1 <==> !faults.env.None()
      ensures n > 1 ==> (n == 2 <==> !Document(d.json, faults.read).Doc? || !faults.json.None())
      ensures panics <==> n == 2 && Document(d.json, faults.read).Null?
      ensures n == 3 ==> FreshTemps(faults, paths, dir.files)
      ensures AllCommits(paths, formats, dir.history, start, d, p, tokenKey, n, faults.read)
    {
      ghost var h, files := dir.history, dir.files;
      panics := false;
      n := 1;
      var ok := UpdateEnv(p.values, faults.env);
      if ok {
        n := 2;
        StillFresh(faults, paths, files, dir.files);
      }
      OneMoreStep(paths, formats, h, dir.history, start, d, p, tokenKey, 1, n, faults.read);
      if !ok {
        return;
      }
      h, files := dir.history, dir.files;
      assert View().json == d.json;
      ok, panics := UpdateJson(p.values, faults.read, faults.json);
      if ok {
        n := 3;
        StillFresh(faults, paths, files, dir.files);
      }
      OneMoreStep(paths, formats, h, dir.history, start, d, p, tokenKey, 2, n, faults.read);
    }

    /** The three files, one after the other, each if the one before could be written. */
    method UpdateFiles(p: Payload, faults: Faults) returns (n: nat, panics: bool)
      requires Valid() && FreshTemps(faults, paths, dir.files)
      modifies this, dir
      ensures Valid() && old(dir.history) <= dir.history
      ensures n <= 3 && View() == Commits(old(View()), p, tokenKey, n, faults.read)
      ensures n == 0 <==> CloudURL(p.values) != "" && !faults.daemon.None()
      ensures n > 0 ==> (n == 1 <==> !faults.env.None())
      ensures n > 1 ==> (n == 2 <==> !Document(old(View()).json, faults.read).Doc? || !faults.json.None())
      ensures panics <==> n == 2 && Document(old(View()).json, faults.read).Null?
      ensures url == if CloudURL(p.values) == "" then old(url) else CloudURL(p.values)
      ensures n == 3 ==> FreshTemps(faults, paths, dir.files)
      ensures AllCommits(paths, formats, dir.history, |old(dir.history)|, old(View()), p, tokenKey, n, faults.read)
    {
      ghost var d, start, h, files := View(), |dir.history|, dir.history, dir.files;
      var ok := UpdateDaemonCloudWSURL(p.values, faults.daemon);
      OneMoreStep(paths, formats, h, dir.history, start, d, p, tokenKey, 0, if ok then 1 else 0, faults.read);
      if !ok {
        return 0, false;
      }
      StillFresh(faults, paths, files, dir.files);
      n, panics := UpdateOpenClaw(p, faults, d, start);
    }

    /** Restart, health check and, only then, the version. */
    method Finish(p: Payload, faults: Faults, state: State, ghost d: Disk, ghost start: nat) returns (ack: Ack)
      requires Valid() && FreshTemp(faults.save, paths, dir.files) && d.state == Some(state)
      requires View() == Commits(d, p, tokenKey, 3, faults.read)
      requires AllCommits(paths, formats, dir.history, start, d, p, tokenKey, 3, faults.read)
      modifies dir
      ensures Valid() && old(dir.history) <= dir.history
      ensures var done := !faults.restart && !faults.health && faults.save.None();
        && ack == (if done then Success(p.version) else Failed(p.version,
            if faults.restart then ConfigApplyFailed else if faults.health then GatewayUnavailable else InternalError))
        && View() == Commits(d, p, tokenKey, if done then 4 else 3, faults.read)
        && AllCommits(paths, formats, dir.history, start, d, p, tokenKey, if done then 4 else 3, faults.read)
    {
      if faults.restart {
        return Failed(p.version, ConfigApplyFailed);
      }
      if faults.health {
        return Failed(p.version, GatewayUnavailable);
      }
      ghost var h, v := dir.history, View();
      LastCommit(d, p, tokenKey, faults.read, v);
      var ok := SaveVersion(state, p.version, faults.save);
      OneMoreStep(paths, formats, h, dir.history, start, d, p, tokenKey, 3, if ok then 4 else 3, faults.read);
      ack := if ok then Success(p.version) else Failed(p.version, InternalError);
    }

    /** The version is new, and the work directory is there. */
    method ApplyNew(p: Payload, faults: Faults, state: State) returns (ack: Option<Ack>)
      requires Valid() && FreshTemps(faults, paths, dir.files)
      requires View().state == Some(state) && p.version > state.version && !faults.load && !faults.mkdir
      modifies this, dir
      ensures Valid() && old(dir.history) <= dir.history
      ensures ack == Progress(old(View()), p, faults).1
      ensures View() == Commits(old(View()), p, tokenKey, Progress(old(View()), p, faults).0, faults.read)
      ensures url == if CloudURL(p.values) == "" then old(url) else CloudURL(p.values)
      ensures AllCommits(paths, formats, dir.history, |old(dir.history)|, old(View()), p, tokenKey,
        Progress(old(View()), p, faults).0, faults.read)
    {
      ghost var d, start := View(), |dir.history|;
      var n, panics := UpdateFiles(p, faults);
      if panics {
        return None;
      }
      if n < 3 {
        return Some(Failed(p.version, ConfigApplyFailed));
      }
      var last := Finish(p, faults, state, d, start);
      ack := Some(last);
    }

    /** The acknowledgement (none if `Apply` panics), the disk, and every disk a crash during the call could leave:
        one of the commits made. The version comes last. */
    method Apply(p: Payload, faults: Faults) returns (ack: Option<Ack>)
      requires Valid() && FreshTemps(faults, paths, dir.files)
      modifies this, dir
      ensures Valid() && old(dir.history) <= dir.history
      ensures ack == Progress(old(View()), p, faults).1
      ensures View() == Commits(old(View()), p, tokenKey, Progress(old(View()), p, faults).0, faults.read)
      ensures url == if ReachesURL(old(View()), p, faults) then CloudURL(p.values) else old(url)
      ensures ConfigCauses.Allowed(old(View()).json, View().json, faults.read)
      ensures AllCommits(paths, formats, dir.history, |old(dir.history)|, old(View()), p, tokenKey,
        Progress(old(View()), p, faults).0, faults.read)
    {
      ConfigCauses.CommitsKeepJson(View(), p, tokenKey, faults);
      var state := store.Load(faults.load);
      if state.None? {
        return Some(Failed(p.version, InternalError));
      }
      if p.version <= state.value.version {
        return Some(Ignored(p.version));
      }
      if faults.mkdir {
        return Some(Failed(p.version, ConfigApplyFailed));
      }
      ack := ApplyNew(p, faults, state.value);
    }
  }
}
