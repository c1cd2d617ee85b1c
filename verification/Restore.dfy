/**
 * Restoring a saved session: read its file, start the session, register it,
 * remove the file, attach the client; and back again if a step fails. The
 * failures of the outside world are parameters.
 */
module Restore {
  import opened Bytes
  import opened Wire
  import opened StateFile
  import opened StateDir

  datatype Result = Succeeded | Fails(reason: Reason)

  datatype Reason =
    | NameRequired | PersistenceDisabled | SessionRunning | Unreadable(fault: Fault)
    | StartFailed | LostRace | RemoveFailed | AttachFailed | AttachAndRollbackFailed

  /** How the write of a state file may go wrong. */
  datatype WriteFault = NoFault | OpenFails | WriteBreaksOff(n: nat) | RenameBreaks

  /** `rival` is a session that another client registers under the name while this one starts. */
  datatype Weather = Weather(
    startFails: bool, rival: Option<Session>, removeFails: bool, attachFails: bool, rollback: WriteFault)

  class Session {
    const state: SessionState
    var closed: bool
    var attached: bool
    var watchers: nat

    constructor (state: SessionState)
      ensures this.state == state && !closed && !attached && watchers == 0
    {
      this.state, closed, attached, watchers := state, false, false, 0;
    }

    method Close()
      modifies this`closed
      ensures closed
    {
      closed := true;
    }

    method Attach(fails: bool) returns (ok: bool)
      modifies this`attached
      ensures ok == !fails && attached == (old(attached) || ok)
    {
      if !fails {
        attached := true;
      }
      ok := !fails;
    }
  }

  predicate SameFile(before: map<string, Bytes>, after: map<string, Bytes>, file: string)
  {
    (file in after <==> file in before) && (file in before ==> after[file] == before[file])
  }

  /** The saved sessions of all other names are as before. */
  ghost predicate OthersKept(before: map<string, Bytes>, after: map<string, Bytes>, name: string)
  {
    forall n :: n != name ==> SameFile(before, after, PathOf(n))
  }

  lemma NothingTouched(files: map<string, Bytes>, name: string)
    ensures OthersKept(files, files, name)
  {
  }

  lemma OnlyTmpTouched(before: map<string, Bytes>, after: map<string, Bytes>, name: string)
    requires before - {TmpOf(name)} == after - {TmpOf(name)}
    ensures OthersKept(before, after, name) && SameFile(before, after, PathOf(name))
  {
    forall n ensures SameFile(before, after, PathOf(n)) {
      PathIsNotTmp(n, name);
      Untouched(before, after, {TmpOf(name)}, PathOf(n));
    }
  }

  lemma OnlyOnesFilesTouched(before: map<string, Bytes>, after: map<string, Bytes>, name: string)
    requires before - {TmpOf(name), PathOf(name)} == after - {TmpOf(name), PathOf(name)}
    ensures OthersKept(before, after, name)
  {
    forall n | n != name ensures SameFile(before, after, PathOf(n)) {
      PathIsNotTmp(n, name);
      if PathOf(n) == PathOf(name) { NamesDiffer(n, name); }
      Untouched(before, after, {TmpOf(name), PathOf(name)}, PathOf(n));
    }
  }

  lemma Untouched(before: map<string, Bytes>, after: map<string, Bytes>, files: set<string>, file: string)
    requires before - files == after - files && file !in files
    ensures SameFile(before, after, file)
  {
    assert file in before <==> file in before - files;
    assert file in after <==> file in after - files;
    assert file in before ==> (before - files)[file] == before[file];
    assert file in after ==> (after - files)[file] == after[file];
  }

  lemma RemovedThenKept(
      before: map<string, Bytes>, removed: map<string, Bytes>, after: map<string, Bytes>, name: string)
    requires removed == before - {PathOf(name)}
    requires OthersKept(removed, after, name)
    ensures OthersKept(before, after, name)
    ensures SameFile(removed, after, PathOf(name)) ==> Load(after, name) == Err(NotFound)
  {
    forall n | n != name ensures SameFile(before, after, PathOf(n)) {
      if PathOf(n) == PathOf(name) { NamesDiffer(n, name); }
      assert SameFile(removed, after, PathOf(n));
    }
  }

  class Server {
    var sessions: map<string, Session>
    var files: map<string, Bytes>
    const persistent: bool

    constructor (persistent: bool, files: map<string, Bytes>)
      ensures this.persistent == persistent && this.files == files && sessions == map[]
    {
      this.persistent, this.files, sessions := persistent, files, map[];
    }

    method ReadDeadSession(name: string) returns (r: Outcome<SessionState>)
      ensures r == if persistent then Load(files, name) else Err(NotFound)
    {
      if !persistent || PathOf(name) !in files {
        return Err(NotFound);
      }
      r := DecodeState(files[PathOf(name)]);
    }

    /** Everything a restore needs, with nothing changed yet. */
    method PrepareRestore(name: string) returns (r: Result, state: Outcome<SessionState>)
      ensures r == if name == "" then Fails(NameRequired)
                   else if !persistent then Fails(PersistenceDisabled)
                   else if name in sessions then Fails(SessionRunning)
                   else if Load(files, name).Err? then Fails(Unreadable(Load(files, name).error))
                   else Succeeded
      ensures r == Succeeded ==> state == Load(files, name)
    {
      state := Err(NotFound);
      if name == "" {
        return Fails(NameRequired), state;
      }
      if !persistent {
        return Fails(PersistenceDisabled), state;
      }
      if name in sessions {
        return Fails(SessionRunning), state;
      }
      state := ReadDeadSession(name);
      r := if state.Err? then Fails(Unreadable(state.error)) else Succeeded;
    }

    /** Registers a session unless its name is taken. */
    method InsertSession(name: string, sess: Session) returns (inserted: bool)
      modifies this`sessions
      ensures inserted == (name !in old(sessions))
      ensures sessions == if inserted then old(sessions)[name := sess] else old(sessions)
    {
      if name in sessions {
        return false;
      }
      sessions := sessions[name := sess];
      inserted := true;
    }

    method RemoveSession(name: string)
      modifies this`sessions
      ensures sessions == old(sessions) - {name}
    {
      sessions := sessions - {name};
    }

    method CleanState(name: string, fails: bool) returns (ok: bool)
      modifies this`files
      ensures ok == !fails
      ensures files == if fails then old(files) else old(files) - {PathOf(name)}
    {
      if fails {
        return false;
      }
      files := files - {PathOf(name)};
      ok := true;
    }

    /** Writes a state file through a temporary one; a failure leaves the old file, if any. */
    method WriteState(name: string, state: SessionState, fault: WriteFault) returns (ok: bool)
      modifies this`files
      ensures ok <==> Encode(state).Ok? && fault == NoFault
      ensures OthersKept(old(files), files, name)
      ensures !ok ==> SameFile(old(files), files, PathOf(name))
      ensures ok ==> PathOf(name) in files && Encode(state) == Ok(files[PathOf(name)])
    {
      hide PathOf, TmpOf, Encode, SameFile, OthersKept;
      var data := EncodeState(state);
      if data.Err? || fault == OpenFails {
        OnlyTmpTouched(old(files), files, name);
        return false;
      }
      var tmp := TmpOf(name);
      if fault.WriteBreaksOff? {
        files := files[tmp := if fault.n <= |data.value| then data.value[..fault.n] else data.value];
        OnlyTmpTouched(old(files), files, name);
        return false;
      }
      files := files[tmp := data.value];
      if fault == RenameBreaks {
        files := files - {tmp};
        OnlyTmpTouched(old(files), files, name);
        return false;
      }
      files := (files - {tmp})[PathOf(name) := files[tmp]];
      OnlyOnesFilesTouched(old(files), files, name);
      ok := true;
    }

    /** Writes back a state that was read from a file, which cannot fail for the state's sake. */
    method RollbackRestore(name: string, state: SessionState, fault: WriteFault, ghost data: Bytes) returns (ok: bool)
      requires Decode(data) == Ok(state)
      modifies this`files
      ensures ok == (fault == NoFault)
      ensures ok ==> Load(files, name) == Ok(state)
      ensures OthersKept(old(files), files, name)
      ensures !ok ==> SameFile(old(files), files, PathOf(name))
    {
      hide Decode, Encode, PathOf, SameFile, OthersKept;
      AcceptedExactly(data, state);
      ok := WriteState(name, state, fault);
      if ok {
        AcceptedExactly(files[PathOf(name)], state);
      }
    }

    /**
     * All or nothing. On success the session is live, attached and watched, and its
     * file is gone. On failure nothing of it is left: the registry is what the others
     * made it, and the file loads as before, unless writing it back failed too.
     */
    method HandleAttachRestore(name: string, w: Weather) returns (r: Result, sess: Session?)
      modifies this
      ensures sess != null ==> fresh(sess)
      ensures r == Succeeded <==>
        && name != "" && persistent && name !in old(sessions) && old(Load(files, name)).Ok?
        && !w.startFails && w.rival.None? && !w.removeFails && !w.attachFails
      ensures r == Succeeded ==>
        && sess != null && Ok(sess.state) == old(Load(files, name))
        && sessions == old(sessions)[name := sess] && name !in old(sessions)
        && !sess.closed && sess.attached && sess.watchers == 1
        && files == old(files) - {PathOf(name)}
      ensures r != Succeeded ==>
        && sessions == old(sessions) + Rivals(name, w, r)
        && (sess != null ==> sess.closed && !sess.attached && sess.watchers == 0)
        && (Load(files, name) == if r == Fails(AttachAndRollbackFailed) then Err(NotFound) else old(Load(files, name)))
        && OthersKept(old(files), files, name)
      ensures r == Fails(AttachAndRollbackFailed) ==> w.attachFails && w.rollback != NoFault
    {
      hide PathOf, TmpOf, Decode, Encode, SameFile, OthersKept;
      NothingTouched(files, name);
      sess := null;
      var state;
      r, state := PrepareRestore(name);
      if r != Succeeded {
        return;
      }
      if w.startFails {
        return Fails(StartFailed), null;
      }
      sess := new Session(state.value);
      if w.rival.Some? {
        sessions := sessions[name := w.rival.value];
      }
      var inserted := InsertSession(name, sess);
      if !inserted {
        sess.Close();
        return Fails(LostRace), sess;
      }
      var removed := CleanState(name, w.removeFails);
      if !removed {
        RemoveSession(name);
        sess.Close();
        return Fails(RemoveFailed), sess;
      }
      var attached := sess.Attach(w.attachFails);
      if !attached {
        RemoveSession(name);
        sess.Close();
        ghost var removedFiles := files;
        var written := RollbackRestore(name, state.value, w.rollback, old(files)[PathOf(name)]);
        RemovedThenKept(old(files), removedFiles, files, name);
        return Fails(if written then AttachFailed else AttachAndRollbackFailed), sess;
      }
      sess.watchers := sess.watchers + 1;
    }
  }

  /** What another client registered meanwhile. */
  function Rivals(name: string, w: Weather, r: Result): map<string, Session>
  {
    if r == Fails(LostRace) && w.rival.Some? then map[name := w.rival.value] else map[]
  }
}
