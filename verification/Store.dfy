/** A directory of files, the atomic write everything persistent goes through, and the daemon's state file. */
module Store {
  import opened GoText
  import opened Json

  type Files = map<string, string>

  /** What is on disk now, and everything that was on disk since the directory came into view: if the process
      dies, what it leaves behind is one of these. */
  class Directory {
    var files: Files
    ghost var history: seq<Files>

    ghost predicate Valid()
      reads this
    {
      history != [] && history[|history| - 1] == files
    }

    constructor (initial: Files)
      ensures Valid() && files == initial && history == [initial]
    {
      files := initial;
      history := [initial];
    }

    /** One system call that changes the directory. */
    method Become(next: Files)
      requires Valid()
      modifies this
      ensures Valid() && files == next && history == old(history) + [next]
    {
      files := next;
      history := history + [next];
    }
  }

  /** How one write goes: the name picked for the temporary file, how much is written before a write error,
      and which of the calls fail. */
  datatype WriteFaults = WriteFaults(
    temp: string, mkdir: bool, create: bool, write: bool, written: nat, chmod: bool, close: bool, rename: bool,
    remove: bool)
  {
    predicate None() { !mkdir && !create && !write && !chmod && !close && !rename }
  }

  const NO_FAULTS := WriteFaults("", false, false, false, 0, false, false, false, false)

  /** Apart from the temporary file, every state is the old one or the new one. */
  ghost predicate AllOldOrNew(states: seq<Files>, from: nat, before: Files, after: Files, temp: string) {
    forall i :: from <= i < |states| ==> OldOrNew(states[i], before, after, temp)
  }

  ghost predicate OldOrNew(files: Files, before: Files, after: Files, temp: string) {
    files - {temp} == before || files - {temp} == after
  }

  method WriteAtomically(dir: Directory, path: string, data: string, faults: WriteFaults) returns (ok: bool)
    requires dir.Valid() && faults.temp !in dir.files && faults.temp != path
    modifies dir
    ensures dir.Valid() && old(dir.history) <= dir.history
    ensures ok <==> faults.None()
    ensures ok ==> dir.files == old(dir.files)[path := data]
    ensures !ok ==> dir.files - {faults.temp} == old(dir.files)
    ensures !ok && !faults.remove ==> dir.files == old(dir.files)
    ensures AllOldOrNew(dir.history, |old(dir.history)|, old(dir.files), dir.files - {faults.temp}, faults.temp)
  {
    if faults.mkdir || faults.create {
      return false;
    }
    dir.Become(dir.files[faults.temp := ""]);
    ok := FillAndRename(dir, path, data, faults, dir.files - {faults.temp});
    if faults.temp in dir.files && !faults.remove {
      dir.Become(dir.files - {faults.temp});
    }
  }

  method FillAndRename(dir: Directory, path: string, data: string, faults: WriteFaults,
      ghost before: Files) returns (ok: bool)
    requires dir.Valid() && faults.temp in dir.files && faults.temp != path && dir.files - {faults.temp} == before
    modifies dir
    ensures dir.Valid() && old(dir.history) <= dir.history
    ensures ok <==> !faults.write && !faults.chmod && !faults.close && !faults.rename
    ensures ok ==> dir.files == before[path := data]
    ensures !ok ==> dir.files - {faults.temp} == before
    ensures AllOldOrNew(dir.history, |old(dir.history)|, before, dir.files - {faults.temp}, faults.temp)
  {
    var written := if faults.write && faults.written < |data| then data[..faults.written] else data;
    dir.Become(dir.files[faults.temp := written]);
    if faults.write || faults.chmod || faults.close || faults.rename {
      return false;
    }
    dir.Become((dir.files - {faults.temp})[path := written]);
    ok := true;
  }

  // ---------- the state file ----------

  datatype Identity = Identity(deviceID: string, publicKey: string, privateKey: string)

  datatype State = State(version: Int64, token: string, identity: Option<Identity>)

  const NO_STATE := State(0, "", None)

  /** `encoding/json` for the state file, as far as it matters: reading what was written gives it back. */
  datatype Codec = Codec(encode: State -> string, decode: string -> Option<State>)

  ghost predicate RoundTrips(c: Codec) {
    forall s :: c.decode(c.encode(s)) == Some(s)
  }

  /** What a directory holds as state; nothing if the file cannot be parsed. */
  function StateIn(c: Codec, path: string, files: Files): Option<State> {
    if path !in files then Some(NO_STATE) else c.decode(files[path])
  }

  /** A blank token is not stored, and an unreadable state file is left alone. */
  function AfterToken(s: Option<State>, token: string, unreadable: bool, faults: WriteFaults): Option<State> {
    if Blank(token) || unreadable || s.None? || !faults.None() then s else Some(s.value.(token := TrimSpace(token)))
  }

  predicate HasIdentity(s: State) {
    && s.identity.Some?
    && !Blank(s.identity.value.deviceID) && !Blank(s.identity.value.publicKey) && !Blank(s.identity.value.privateKey)
  }

  /** A complete identity is never replaced. */
  function AfterIdentity(s: Option<State>, created: Option<Identity>, unreadable: bool,
      faults: WriteFaults): Option<State> {
    if unreadable || s.None? || HasIdentity(s.value) || created.None? || !faults.None() then s
    else Some(s.value.(identity := created))
  }

  class FileStore {
    const dir: Directory
    const path: string
    const codec: Codec

    constructor (dir: Directory, path: string, codec: Codec)
      ensures this.dir == dir && this.path == path && this.codec == codec
    {
      this.dir, this.path, this.codec := dir, path, codec;
    }

    ghost predicate Valid()
      reads this, dir
    {
      dir.Valid() && RoundTrips(codec)
    }

    ghost function Stored(): Option<State>
      reads this, dir
    {
      StateIn(codec, path, dir.files)
    }

    method Load(unreadable: bool) returns (state: Option<State>)
      ensures state == if unreadable then None else Stored()
    {
      if unreadable {
        return None;
      }
      if path !in dir.files {
        return Some(NO_STATE);
      }
      state := codec.decode(dir.files[path]);
    }

    /** The state is replaced or kept, in the end and at every moment in between; nothing else changes. */
    method Save(state: State, faults: WriteFaults) returns (ok: bool)
      requires Valid() && faults.temp !in dir.files && faults.temp != path
      modifies dir
      ensures Valid() && old(dir.history) <= dir.history
      ensures ok <==> faults.None()
      ensures Stored() == if ok then Some(state) else old(Stored())
      ensures forall i :: |old(dir.history)| <= i < |dir.history| ==>
        StateIn(codec, path, dir.history[i]) in {old(Stored()), Stored()}
      ensures ok ==> dir.files == old(dir.files)[path := codec.encode(state)]
      ensures !ok ==> dir.files - {faults.temp} == old(dir.files)
      ensures AllOldOrNew(dir.history, |old(dir.history)|, old(dir.files), dir.files - {faults.temp}, faults.temp)
    {
      ghost var before, start := dir.files, |dir.history|;
      ok := WriteAtomically(dir, path, codec.encode(state), faults);
      StateWithout(codec, path, dir.files, faults.temp);
      forall i | start <= i < |dir.history|
        ensures StateIn(codec, path, dir.history[i]) in {StateIn(codec, path, before), StateIn(codec, path, dir.files)}
      {
        assert OldOrNew(dir.history[i], before, dir.files - {faults.temp}, faults.temp);
        StateWithout(codec, path, dir.history[i], faults.temp);
      }
    }

    method PersistGatewayDeviceToken(token: string, unreadable: bool, faults: WriteFaults) returns (ok: bool)
      requires Valid() && faults.temp !in dir.files && faults.temp != path
      modifies dir
      ensures Valid()
      ensures Stored() == AfterToken(old(Stored()), token, unreadable, faults)
      ensures ok <==> Blank(token) || (!unreadable && old(Stored()).Some? && faults.None())
    {
      if TrimSpace(token) == "" {
        return true;
      }
      var state := Load(unreadable);
      if state.None? {
        return false;
      }
      ok := Save(state.value.(token := TrimSpace(token)), faults);
    }

    /** An identity is used only if it is stored. */
    method LoadOrCreateGatewayIdentity(created: Option<Identity>, unreadable: bool, faults: WriteFaults)
      returns (identity: Option<Identity>)
      requires Valid() && faults.temp !in dir.files && faults.temp != path
      modifies dir
      ensures Valid()
      ensures Stored() == AfterIdentity(old(Stored()), created, unreadable, faults)
      ensures identity.Some? ==> Stored().Some? && Stored().value.identity == identity
      ensures identity.Some? <==>
        && !unreadable && old(Stored()).Some?
        && (HasIdentity(old(Stored()).value) || (created.Some? && faults.None()))
      ensures !unreadable && Stored().Some? && HasIdentity(Stored().value) ==> identity == Stored().value.identity
    {
      var state := Load(unreadable);
      if state.None? {
        return None;
      }
      if HasIdentity(state.value) {
        return state.value.identity;
      }
      if created.None? {
        return None;
      }
      var ok := Save(state.value.(identity := created), faults);
      identity := if ok then created else None;
    }
  }

  lemma StateWithout(c: Codec, path: string, files: Files, temp: string)
    requires temp != path
    ensures StateIn(c, path, files) == StateIn(c, path, files - {temp})
  {
    assert path in files - {temp} <==> path in files;
  }
}
