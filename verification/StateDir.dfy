/**
 * The directory of saved sessions under interrupted writes. A save writes a
 * temporary file piece by piece and renames it; it may fail, or the daemon may
 * die, at any point. A starting daemon removes temporary files before it knows
 * that it is alone, so also those of a save in progress.
 */
module StateDir {
  import opened Bytes
  import opened Wire
  import opened StateFile

  const STATE := ".state"
  const TMP := ".state.tmp"

  function PathOf(name: string): string { name + STATE }

  function TmpOf(name: string): string { name + TMP }

  predicate HasSuffix(f: string, suffix: string)
  {
    |suffix| <= |f| && f[|f| - |suffix|..] == suffix
  }

  function TrimSuffix(f: string, suffix: string): string
    requires HasSuffix(f, suffix)
  {
    f[..|f| - |suffix|]
  }

  /** A save on its way: what it writes, and how much of it is in the temporary file. */
  datatype Job = Job(state: SessionState, data: Bytes, written: nat)

  /** `saved` is every state a save was ever begun for, with the name it was for. */
  datatype Dir = Dir(files: map<string, Bytes>, jobs: map<string, Job>, saved: set<(string, SessionState)>)

  datatype Step =
    | Begin(name: string, state: SessionState)   // creates or truncates the temporary file
    | Chunk(name: string, n: nat)
    | WriteFails(name: string)
    | Rename(name: string)
    | RenameFails(name: string)
    | Remove(name: string)                       // restored, pruned or discarded
    | Clean(file: string)                        // by a starting daemon
    | Crash

  const EMPTY: Dir := Dir(map[], map[], {})

  predicate Finished(d: Dir, name: string)
  {
    name in d.jobs && d.jobs[name].written == |d.jobs[name].data|
  }

  predicate Enabled(d: Dir, step: Step)
  {
    match step
    case Begin(name, s) => name !in d.jobs && Encode(s).Ok?
    case Chunk(name, n) => name in d.jobs && d.jobs[name].written + n <= |d.jobs[name].data|
    case WriteFails(name) => name in d.jobs
    case Rename(name) => Finished(d, name) && TmpOf(name) in d.files
    case RenameFails(name) => Finished(d, name)
    case Remove(_) => true
    case Clean(file) => HasSuffix(file, TMP)
    case Crash => true
  }

  function Apply(d: Dir, step: Step): Dir
    requires Enabled(d, step)
  {
    match step
    case Begin(name, s) =>
      Dir(d.files[TmpOf(name) := []], d.jobs[name := Job(s, Encode(s).value, 0)], d.saved + {(name, s)})
    case Chunk(name, n) =>
      var job := d.jobs[name].(written := d.jobs[name].written + n);
      d.(jobs := d.jobs[name := job],
         files := if TmpOf(name) in d.files then d.files[TmpOf(name) := job.data[..job.written]] else d.files)
    case WriteFails(name) => d.(jobs := d.jobs - {name})
    case Rename(name) =>
      d.(jobs := d.jobs - {name}, files := (d.files - {TmpOf(name)})[PathOf(name) := d.files[TmpOf(name)]])
    case RenameFails(name) => d.(jobs := d.jobs - {name}, files := d.files - {TmpOf(name)})
    case Remove(name) => d.(files := d.files - {PathOf(name)})
    case Clean(file) => d.(files := d.files - {file})
    case Crash => d.(jobs := map[])
  }

  predicate Run(d: Dir, steps: seq<Step>, e: Dir)
    decreases |steps|
  {
    if steps == [] then d == e
    else Enabled(d, steps[0]) && Run(Apply(d, steps[0]), steps[1..], e)
  }

  // --- File names ------------------------------------------------------------

  lemma SuffixEnds(f: string, suffix: string)
    requires HasSuffix(f, suffix) && suffix != []
    ensures f[|f| - 1] == suffix[|suffix| - 1]
  {
    assert f[|f| - |suffix|..][|suffix| - 1] == f[|f| - 1];
  }

  lemma PathIsNotTmp(a: string, b: string)
    ensures PathOf(a) != TmpOf(b) && HasSuffix(PathOf(a), STATE) && !HasSuffix(PathOf(a), TMP)
  {
    var f := PathOf(a);
    assert f[|f| - 1] == 'e' && TmpOf(b)[|TmpOf(b)| - 1] == 'p';
    assert f[|f| - |STATE|..] == STATE;
    if HasSuffix(f, TMP) {
      SuffixEnds(f, TMP);
    }
  }

  lemma NamesDiffer(a: string, b: string)
    requires PathOf(a) == PathOf(b) || TmpOf(a) == TmpOf(b)
    ensures a == b
  {
    assert a == PathOf(a)[..|PathOf(a)| - |STATE|] == TmpOf(a)[..|TmpOf(a)| - |TMP|];
    assert b == PathOf(b)[..|PathOf(b)| - |STATE|] == TmpOf(b)[..|TmpOf(b)| - |TMP|];
  }

  lemma TrimmedPath(f: string)
    requires HasSuffix(f, STATE)
    ensures PathOf(TrimSuffix(f, STATE)) == f
  {
  }

  // --- The invariant ---------------------------------------------------------

  predicate IsSaved(saved: set<(string, SessionState)>, name: string, data: Bytes)
  {
    exists p <- saved :: p.0 == name && Encode(p.1) == Ok(data)
  }

  /** Every state file is the whole encoding of a state that was saved for that session. */
  ghost predicate Complete(d: Dir)
  {
    forall name :: PathOf(name) in d.files ==> IsSaved(d.saved, name, d.files[PathOf(name)])
  }

  ghost predicate JobsOk(d: Dir)
  {
    forall name <- d.jobs :: var job := d.jobs[name];
      && (name, job.state) in d.saved && Encode(job.state) == Ok(job.data) && job.written <= |job.data|
      && (TmpOf(name) in d.files ==> d.files[TmpOf(name)] == job.data[..job.written])
  }

  ghost predicate Inv(d: Dir)
  {
    Complete(d) && JobsOk(d)
  }

  /** Only a rename and a removal touch a state file, and only that of their own session. */
  lemma OnlyRenamesReplace(d: Dir, step: Step, name: string)
    requires Enabled(d, step) && step != Rename(name) && step != Remove(name)
    ensures PathOf(name) in Apply(d, step).files <==> PathOf(name) in d.files
    ensures PathOf(name) in d.files ==> Apply(d, step).files[PathOf(name)] == d.files[PathOf(name)]
  {
    hide PathOf, TmpOf, HasSuffix;
    match step {
      case Begin(other, _) => PathIsNotTmp(name, other);
      case Chunk(other, _) => PathIsNotTmp(name, other);
      case Rename(other) =>
        PathIsNotTmp(name, other);
        if PathOf(name) == PathOf(other) { NamesDiffer(name, other); }
      case RenameFails(other) => PathIsNotTmp(name, other);
      case Remove(other) => if PathOf(name) == PathOf(other) { NamesDiffer(name, other); }
      case Clean(file) => PathIsNotTmp(name, name);
      case WriteFails(_) =>
      case Crash =>
    }
  }

  lemma StepComplete(d: Dir, step: Step)
    requires Inv(d) && Enabled(d, step)
    ensures Complete(Apply(d, step))
  {
    hide PathOf, TmpOf, HasSuffix, Encode;
    var e := Apply(d, step);
    forall name | PathOf(name) in e.files
      ensures IsSaved(e.saved, name, e.files[PathOf(name)])
    {
      if step == Rename(name) {
        assert d.jobs[name].data[..d.jobs[name].written] == d.jobs[name].data;
        assert (name, d.jobs[name].state) in e.saved;
      } else if step == Remove(name) {
        assert false;
      } else {
        OnlyRenamesReplace(d, step, name);
        assert IsSaved(d.saved, name, d.files[PathOf(name)]);
        assert d.saved <= e.saved;
      }
    }
  }

  lemma StepJobs(d: Dir, step: Step)
    requires JobsOk(d) && Enabled(d, step)
    ensures JobsOk(Apply(d, step))
  {
    hide PathOf, TmpOf, HasSuffix, Encode;
    var e := Apply(d, step);
    forall name | name in e.jobs
      ensures var job := e.jobs[name];
        && (name, job.state) in e.saved && Encode(job.state) == Ok(job.data) && job.written <= |job.data|
        && (TmpOf(name) in e.files ==> e.files[TmpOf(name)] == job.data[..job.written])
    {
      match step {
        case Begin(other, _) => if TmpOf(name) == TmpOf(other) { NamesDiffer(name, other); }
        case Chunk(other, _) => if TmpOf(name) == TmpOf(other) { NamesDiffer(name, other); }
        case Rename(other) =>
          PathIsNotTmp(other, name);
          if TmpOf(name) == TmpOf(other) { NamesDiffer(name, other); }
        case RenameFails(other) => if TmpOf(name) == TmpOf(other) { NamesDiffer(name, other); }
        case Remove(_) =>
        case Clean(_) =>
        case WriteFails(_) =>
        case Crash =>
      }
    }
  }

  lemma {:induction false} RunInv(d: Dir, steps: seq<Step>, e: Dir)
    requires Inv(d) && Run(d, steps, e)
    ensures Inv(e)
    decreases |steps|
  {
    if steps != [] {
      StepComplete(d, steps[0]);
      StepJobs(d, steps[0]);
      RunInv(Apply(d, steps[0]), steps[1..], e);
    }
  }

  // --- Theorems --------------------------------------------------------------

  lemma EncodedIsStorable(s: SessionState)
    requires Encode(s).Ok?
    ensures Storable(s)
  {
  }

  /** After any saves, failures, removals, cleanings and crashes, a state file is absent or can be restored. */
  lemma CrashAtomic(steps: seq<Step>, d: Dir, name: string)
    requires Run(EMPTY, steps, d) && PathOf(name) in d.files
    ensures exists p <- d.saved :: p.0 == name && Encode(p.1) == Ok(d.files[PathOf(name)])
                                   && Decode(d.files[PathOf(name)]) == Ok(WholeSeconds(p.1))
  {
    hide Encode, Decode, PathOf;
    assert Inv(EMPTY);
    RunInv(EMPTY, steps, d);
    var data := d.files[PathOf(name)];
    assert IsSaved(d.saved, name, data);
    var p :| p in d.saved && p.0 == name && Encode(p.1) == Ok(data);
    EncodedIsStorable(p.1);
    RoundTrip(p.1, []);
    assert data + [] == data;
  }

  /** A save that gets to the end replaces the file by what it was asked to save. */
  lemma SaveTakesEffect(steps: seq<Step>, d: Dir, name: string)
    requires Run(EMPTY, steps, d) && Enabled(d, Rename(name))
    ensures var e := Apply(d, Rename(name));
            && PathOf(name) in e.files
            && Encode(d.jobs[name].state) == Ok(e.files[PathOf(name)])
            && TmpOf(name) !in e.files
  {
    hide Encode, PathOf, TmpOf;
    assert Inv(EMPTY);
    RunInv(EMPTY, steps, d);
    PathIsNotTmp(name, name);
    assert d.jobs[name].data[..d.jobs[name].written] == d.jobs[name].data;
  }

  function Load(files: map<string, Bytes>, name: string): Outcome<SessionState>
  {
    if PathOf(name) in files then Decode(files[PathOf(name)]) else Err(NotFound)
  }

  /** So the sessions that are listed as dead are exactly those that can be loaded. */
  lemma ListedExactlyLoads(steps: seq<Step>, d: Dir, name: string)
    requires Run(EMPTY, steps, d)
    ensures PathOf(name) in d.files <==> Load(d.files, name).Ok?
  {
    if PathOf(name) in d.files {
      CrashAtomic(steps, d, name);
    }
  }

  // --- One session's file, from its own history ------------------------------

  /** What happened to one session: the save in progress, and what its file should hold. */
  datatype Past = Past(saving: Option<SessionState>, stored: Option<SessionState>)

  const NOTHING: Past := Past(None, None)

  function After(h: Past, step: Step, name: string): Past
  {
    match step
    case Begin(n, s) => if n == name then h.(saving := Some(s)) else h
    case WriteFails(n) => if n == name then h.(saving := None) else h
    case RenameFails(n) => if n == name then h.(saving := None) else h
    case Rename(n) => if n == name then Past(None, h.saving) else h
    case Remove(n) => if n == name then h.(stored := None) else h
    case Crash => h.(saving := None)
    case _ => h
  }

  function PastOf(h: Past, steps: seq<Step>, name: string): Past
    decreases |steps|
  {
    if steps == [] then h else PastOf(After(h, steps[0], name), steps[1..], name)
  }

  predicate Tracks(h: Past, d: Dir, name: string)
  {
    && (h.saving.Some? <==> name in d.jobs)
    && (h.saving.Some? ==> d.jobs[name].state == h.saving.value)
    && (h.stored.Some? <==> PathOf(name) in d.files)
    && (h.stored.Some? ==> Encode(h.stored.value) == Ok(d.files[PathOf(name)]))
  }

  lemma StepTracks(h: Past, d: Dir, step: Step, name: string)
    requires JobsOk(d) && Tracks(h, d, name) && Enabled(d, step)
    ensures Tracks(After(h, step, name), Apply(d, step), name)
  {
    hide PathOf, TmpOf, HasSuffix, Encode;
    if step == Rename(name) {
      assert d.jobs[name].data[..d.jobs[name].written] == d.jobs[name].data;
    } else if step != Remove(name) {
      hide JobsOk;
      OnlyRenamesReplace(d, step, name);
    }
  }

  lemma {:induction false} RunTracks(h: Past, d: Dir, steps: seq<Step>, e: Dir, name: string)
    requires Inv(d) && Tracks(h, d, name) && Run(d, steps, e)
    ensures Tracks(PastOf(h, steps, name), e, name)
    decreases |steps|
  {
    hide Complete, JobsOk, Tracks, Enabled, Apply;
    if steps != [] {
      StepComplete(d, steps[0]);
      StepJobs(d, steps[0]);
      StepTracks(h, d, steps[0], name);
      RunTracks(After(h, steps[0], name), Apply(d, steps[0]), steps[1..], e, name);
    }
  }

  /**
   * A session's file holds the state of the last save that got to its rename, unless it
   * was removed since, and nothing else that happened in the directory matters to it.
   */
  lemma FileIsLastSave(steps: seq<Step>, d: Dir, name: string)
    requires Run(EMPTY, steps, d)
    ensures var stored := PastOf(NOTHING, steps, name).stored;
            && (PathOf(name) in d.files <==> stored.Some?)
            && (stored.Some? ==> Encode(stored.value) == Ok(d.files[PathOf(name)])
                                 && Load(d.files, name) == Ok(WholeSeconds(stored.value)))
  {
    hide Encode, Decode, PathOf;
    assert Inv(EMPTY);
    RunTracks(NOTHING, EMPTY, steps, d, name);
    var stored := PastOf(NOTHING, steps, name).stored;
    if stored.Some? {
      EncodedIsStorable(stored.value);
      RoundTrip(stored.value, []);
      assert d.files[PathOf(name)] + [] == d.files[PathOf(name)];
    }
  }

  // --- Directory scans -------------------------------------------------------

  datatype Entry = Entry(name: string, isDir: bool)

  /** The sessions that can be restored: those with a state file and no live session. */
  method ListDeadSessions(entries: seq<Entry>, running: set<string>) returns (dead: seq<string>)
    ensures forall name :: name in dead <==> Entry(PathOf(name), false) in entries && name !in running
  {
    dead := [];
    for i := 0 to |entries|
      invariant forall name :: name in dead <==> Entry(PathOf(name), false) in entries[..i] && name !in running
    {
      var e := entries[i];
      assert entries[..i + 1] == entries[..i] + [e];
      if e.isDir || !HasSuffix(e.name, STATE) {
        forall name ensures e != Entry(PathOf(name), false) { PathIsNotTmp(name, name); }
        continue;
      }
      var name := TrimSuffix(e.name, STATE);
      TrimmedPath(e.name);
      forall other | e == Entry(PathOf(other), false) ensures other == name { NamesDiffer(other, name); }
      if name !in running {
        dead := dead + [name];
      }
    }
    assert entries[..|entries|] == entries;
  }

  /** Removes the temporary files, and nothing else. */
  method CleanStaleTmp(entries: seq<Entry>, files: map<string, Bytes>) returns (kept: map<string, Bytes>)
    ensures kept.Keys <= files.Keys && forall f <- kept :: kept[f] == files[f]
    ensures forall f <- files :: f in kept <==> !(Entry(f, false) in entries && HasSuffix(f, TMP))
  {
    kept := files;
    for i := 0 to |entries|
      invariant kept.Keys <= files.Keys && forall f <- kept :: kept[f] == files[f]
      invariant forall f <- files :: f in kept <==> !(Entry(f, false) in entries[..i] && HasSuffix(f, TMP))
    {
      var e := entries[i];
      assert entries[..i + 1] == entries[..i] + [e];
      if !e.isDir && HasSuffix(e.name, TMP) {
        kept := kept - {e.name};
      }
    }
    assert entries[..|entries|] == entries;
  }

  /** The entries of a directory that holds nothing but files. */
  method ReadDir(files: map<string, Bytes>) returns (entries: seq<Entry>)
    ensures forall e :: e in entries <==> !e.isDir && e.name in files
  {
    entries := [];
    var todo := files.Keys;
    while todo != {}
      invariant todo <= files.Keys
      invariant forall e :: e in entries <==> !e.isDir && e.name in files.Keys - todo
      decreases todo
    {
      var f :| f in todo;
      entries := entries + [Entry(f, false)];
      todo := todo - {f};
    }
  }

  /**
   * A daemon starts on the directory that some run left, cleans it, and lists it: it finds
   * exactly the sessions that can be loaded and are not live, and no temporary file is left.
   */
  method StartOn(files: map<string, Bytes>, running: set<string>, ghost steps: seq<Step>, ghost d: Dir)
    returns (kept: map<string, Bytes>, dead: seq<string>)
    requires Run(EMPTY, steps, d) && files == d.files
    ensures forall name :: name in dead <==> Load(files, name).Ok? && name !in running
    ensures forall name :: Load(kept, name) == Load(files, name)
    ensures forall f <- kept :: !HasSuffix(f, TMP) && f in files
  {
    hide Decode, PathOf;
    var before := ReadDir(files);
    kept := CleanStaleTmp(before, files);
    forall f | f in kept ensures !HasSuffix(f, TMP) {
      assert Entry(f, false) in before;
    }
    var after := ReadDir(kept);
    dead := ListDeadSessions(after, running);
    forall name
      ensures PathOf(name) in kept <==> PathOf(name) in files
      ensures PathOf(name) in files <==> Load(files, name).Ok?
    {
      PathIsNotTmp(name, name);
      ListedExactlyLoads(steps, d, name);
    }
  }
}
