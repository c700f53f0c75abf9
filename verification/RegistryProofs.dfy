/** What every interleaving of registry requests, crashes and restarts keeps, and what follows. */
module RegistryProofs {
  import opened Common
  import opened Registry

  // ---- A step of one request leaves the others alone ----

  ghost predicate SameFile(s: State, s': State, id: Id) {
    && (FileOf(id) in s.disk.files <==> FileOf(id) in s'.disk.files)
    && (FileOf(id) in s.disk.files ==> s'.disk.files[FileOf(id)] == s.disk.files[FileOf(id)])
  }

  /** Ids whose file nobody touches stay such, and so do their files. */
  ghost predicate Keeps(s: State, s': State) {
    forall id :: Fixed(s, id) ==> Fixed(s', id) && SameFile(s, s', id)
  }

  /** `s'` differs from `s` by a step of request `t` only. */
  ghost predicate StepOf(s: State, s': State, t: nat) {
    && t in s.tasks && t in s'.tasks && s'.tasks == s.tasks[t := s'.tasks[t]]
    && s.used <= s'.used && s.lost <= s'.lost
    && SubRegistry(s.mem, s'.mem)
    && (forall id :: id in s.mem.byId && FileOf(id) in s.disk.files ==> SameFile(s, s', id))
    && (forall u :: u in s.tasks && u != t && Pending(s.tasks[u]).Some? ==>
          var id := Pending(s.tasks[u]).value;
          SameFile(s, s', id) && id !in s'.mem.byId && (id in s'.lost ==> id in s.lost))
  }

  /** What the request that stepped must satisfy itself. */
  ghost predicate OwnOk(p: Platform, s': State, t: nat)
    requires t in s'.tasks
  {
    && TaskOk(p, s'.mem, s'.disk.files, s'.lost, s'.tasks[t])
    && (Pending(s'.tasks[t]).Some? ==>
          && Pending(s'.tasks[t]).value in s'.used
          && Pending(s'.tasks[t]).value !in s'.mem.byId
          && forall u :: u in s'.tasks && u != t ==> Pending(s'.tasks[u]) != Pending(s'.tasks[t]))
  }

  lemma BystanderOk(p: Platform, s: State, s': State, t: nat, u: nat)
    requires TasksOk(p, s) && StepOf(s, s', t) && u in s.tasks && u != t
    ensures TaskOk(p, s'.mem, s'.disk.files, s'.lost, s.tasks[u])
  {
    var task := s.tasks[u];
    assert TaskOk(p, s.mem, s.disk.files, s.lost, task);
    match task
    case Registering(_, _, phase) =>
    case Fetching(id, inline, at) =>
    case Registered(_, _) =>
    case Resolved(id, inline, r) =>
  }

  lemma TasksStayOk(p: Platform, s: State, s': State, t: nat)
    requires TasksOk(p, s) && StepOf(s, s', t) && OwnOk(p, s', t)
    ensures TasksOk(p, s')
  {
    forall u | u in s'.tasks
      ensures TaskOk(p, s'.mem, s'.disk.files, s'.lost, s'.tasks[u])
    {
      if u != t { BystanderOk(p, s, s', t, u); }
    }
  }

  lemma IndexStaysOk(p: Platform, s: State, s': State, entries: map<Id, RegistryEntry>)
    requires IndexOk(p, s, entries) && Keeps(s, s')
    ensures IndexOk(p, s', entries)
  {
  }

  /** The indexes stay good while the request that stepped brings no new one. */
  lemma IndexesStayOk(p: Platform, s: State, s': State, t: nat)
    requires IndexesOk(p, s) && Keeps(s, s') && t in s.tasks && t in s'.tasks && s'.tasks == s.tasks[t := s'.tasks[t]]
    requires IndexOk(p, s', s'.mem.byId)
    requires s'.disk.index == s.disk.index || s'.disk.index == s.disk.tmp
    requires s'.disk.tmp == s.disk.tmp || s'.disk.tmp == None || s'.disk.tmp == SnapshotOf(s.tasks[t])
    requires SnapshotOf(s'.tasks[t]) == None || SnapshotOf(s'.tasks[t]) == SnapshotOf(s.tasks[t])
             || SnapshotOf(s'.tasks[t]) == Some(Snapshot(s'.mem))
    ensures IndexesOk(p, s')
  {
    if s.disk.index.Some? { IndexStaysOk(p, s, s', s.disk.index.value.byId); }
    if s.disk.tmp.Some? { IndexStaysOk(p, s, s', s.disk.tmp.value.byId); }
    forall u | u in s.tasks && SnapshotOf(s.tasks[u]).Some?
      ensures IndexOk(p, s', SnapshotOf(s.tasks[u]).value.byId)
    {
      IndexStaysOk(p, s, s', SnapshotOf(s.tasks[u]).value.byId);
    }
  }

  /** A step that leaves the maps and the files alone. */
  lemma QuietStep(p: Platform, s: State, s': State, t: nat)
    requires TasksOk(p, s) && t in s.tasks && t in s'.tasks && s'.tasks == s.tasks[t := s'.tasks[t]]
    requires s'.mem == s.mem && s'.disk.files == s.disk.files && s.used <= s'.used && s'.lost == s.lost
    ensures StepOf(s, s', t)
  {
  }

  /** What a step must do to the ids whose files nobody touches. */
  lemma StepKeeps(s: State, s': State, t: nat)
    requires t in s.tasks && t in s'.tasks && s'.tasks == s.tasks[t := s'.tasks[t]] && s.used <= s'.used
    requires forall id :: id in s'.lost && id !in s.lost ==> Pending(s.tasks[t]) == Some(id)
    requires forall id :: Pending(s.tasks[t]) != Some(id) ==> SameFile(s, s', id)
    requires Pending(s'.tasks[t]).None? || Pending(s'.tasks[t]) == Pending(s.tasks[t])
             || Pending(s'.tasks[t]).value !in s.used
    ensures Keeps(s, s')
  {
    forall id | Fixed(s, id) ensures Fixed(s', id) && SameFile(s, s', id) {
      assert Pending(s.tasks[t]) != Some(id);
    }
  }

  // ---- Each step keeps the invariant ----

  /** Steps that only move a request along. */
  lemma MoveKeepsInv(p: Platform, s: State, t: nat, task: Task)
    requires Inv(p, s) && t in s.tasks && SnapshotOf(task).None?
    requires Pending(task).None? || Pending(task) == Pending(s.tasks[t])
    requires TaskOk(p, s.mem, s.disk.files, s.lost, task)
    ensures Inv(p, s.(tasks := s.tasks[t := task]))
  {
    var s' := s.(tasks := s.tasks[t := task]);
    QuietStep(p, s, s', t);
    TasksStayOk(p, s, s', t);
    StepKeeps(s, s', t);
    IndexStaysOk(p, s, s', s.mem.byId);
    IndexesStayOk(p, s, s', t);
  }

  lemma DrawKeepsInv(p: Platform, s: State, t: nat, uuid: Id, task: Task)
    requires Inv(p, s) && t in s.tasks && uuid !in s.used && SnapshotOf(task).None?
    requires Pending(task) == Some(uuid) && TaskOk(p, s.mem, s.disk.files, s.lost, task)
    ensures Inv(p, s.(tasks := s.tasks[t := task], used := s.used + {uuid}))
  {
    var s' := s.(tasks := s.tasks[t := task], used := s.used + {uuid});
    QuietStep(p, s, s', t);
    assert uuid in s.mem.byId ==> Fixed(s, uuid);
    TasksStayOk(p, s, s', t);
    StepKeeps(s, s', t);
    IndexStaysOk(p, s, s', s.mem.byId);
    IndexesStayOk(p, s, s', t);
  }

  /** Only the file of `id` may differ between two directories. */
  ghost predicate OnlyFileOf(id: Id, files: map<string, Bytes>, files': map<string, Bytes>) {
    forall f :: f != FileOf(id) ==> (f in files <==> f in files') && (f in files ==> files'[f] == files[f])
  }

  lemma OtherFilesSame(files: map<string, Bytes>, files': map<string, Bytes>, id: Id)
    requires OnlyFileOf(id, files, files')
    ensures forall x :: x != id ==>
      (FileOf(x) in files <==> FileOf(x) in files') && (FileOf(x) in files ==> files'[FileOf(x)] == files[FileOf(x)])
  {
    forall x | x != id
      ensures FileOf(x) != FileOf(id)
    {
      FilesDiffer(x, id);
    }
  }

  lemma FileChangeKeepsMemory(p: Platform, m: Memory, files: map<string, Bytes>, files': map<string, Bytes>, id: Id)
    requires Consistent(p, m, files) && CacheAgrees(p, m, files) && id !in m.byId && OnlyFileOf(id, files, files')
    ensures Consistent(p, m, files') && CacheAgrees(p, m, files')
  {
    OtherFilesSame(files, files', id);
  }

  /** Writing or removing the file of a pending id touches no registered id's file. */
  lemma FileChangeKeepsInv(p: Platform, s: State, t: nat, files: map<string, Bytes>, task: Task)
    requires Inv(p, s) && t in s.tasks && Pending(s.tasks[t]).Some? && SnapshotOf(task).None?
    requires OnlyFileOf(Pending(s.tasks[t]).value, s.disk.files, files)
    requires Pending(task).None? || Pending(task) == Pending(s.tasks[t])
    requires TaskOk(p, s.mem, files, s.lost, task)
    ensures Inv(p, s.(disk := s.disk.(files := files), tasks := s.tasks[t := task]))
  {
    var id := Pending(s.tasks[t]).value;
    var s' := s.(disk := s.disk.(files := files), tasks := s.tasks[t := task]);
    FileChangeKeepsMemory(p, s.mem, s.disk.files, files, id);
    OtherFilesSame(s.disk.files, files, id);
    FileChangeStep(p, s, s', t, id);
    TasksStayOk(p, s, s', t);
    StepKeeps(s, s', t);
    IndexStaysOk(p, s, s', s.mem.byId);
    IndexesStayOk(p, s, s', t);
  }

  lemma FileChangeStep(p: Platform, s: State, s': State, t: nat, id: Id)
    requires TasksOk(p, s) && t in s.tasks && Pending(s.tasks[t]) == Some(id)
    requires t in s'.tasks && s'.tasks == s.tasks[t := s'.tasks[t]] && s'.mem == s.mem
    requires s'.used == s.used && s'.lost == s.lost
    requires Pending(s'.tasks[t]).None? || Pending(s'.tasks[t]) == Pending(s.tasks[t])
    requires TaskOk(p, s'.mem, s'.disk.files, s'.lost, s'.tasks[t])
    requires forall x :: x != id ==> SameFile(s, s', x)
    ensures StepOf(s, s', t) && OwnOk(p, s', t)
  {
  }

  /** A pending id belongs to one request only, and not to a registered component. */
  lemma PendingIsOwn(p: Platform, s: State, t: nat)
    requires TasksOk(p, s) && t in s.tasks && Pending(s.tasks[t]).Some?
    ensures var id := Pending(s.tasks[t]).value;
      && id in s.used && id !in s.mem.byId && TaskOk(p, s.mem, s.disk.files, s.lost, s.tasks[t])
      && forall u :: u in s.tasks && u != t && Pending(s.tasks[u]).Some? ==>
           Pending(s.tasks[u]).value != id && Pending(s.tasks[u]).value !in s.mem.byId
  {
  }

  lemma LoseStep(p: Platform, s: State, t: nat, s': State)
    requires TasksOk(p, s) && t in s.tasks && s.tasks[t].Registering? && s.tasks[t].phase.TakeLock?
    requires p.sha256(s.tasks[t].b) in s.mem.byHash && s' == AdvanceRegistering(p, s, t, s.tasks[t], "", false)
    ensures StepOf(s, s', t) && OwnOk(p, s', t)
  {
    PendingIsOwn(p, s, t);
    assert Pending(s'.tasks[t]) == Pending(s.tasks[t]) == Some(s.tasks[t].phase.id);
  }

  lemma LoseKeepsInv(p: Platform, s: State, t: nat)
    requires Inv(p, s) && t in s.tasks && s.tasks[t].Registering? && s.tasks[t].phase.TakeLock?
    requires p.sha256(s.tasks[t].b) in s.mem.byHash
    ensures Inv(p, AdvanceRegistering(p, s, t, s.tasks[t], "", false))
  {
    var s' := AdvanceRegistering(p, s, t, s.tasks[t], "", false);
    LoseStep(p, s, t, s');
    PendingIsOwn(p, s, t);
    assert Pending(s'.tasks[t]) == Pending(s.tasks[t]) == Some(s.tasks[t].phase.id);
    TasksStayOk(p, s, s', t);
    StepKeeps(s, s', t);
    IndexStaysOk(p, s, s', s.mem.byId);
    IndexesStayOk(p, s, s', t);
  }

  lemma CommitKeepsConsistent(p: Platform, m: Memory, files: map<string, Bytes>, b: Bytes, id: Id, c: Component)
    requires Consistent(p, m, files) && id !in m.byId && p.sha256(b) !in m.byHash && Admitted(p, b)
    requires FileOf(id) in files && files[FileOf(id)] == b
    ensures Consistent(p, Commit(p, m, b, id, c), files) && SubRegistry(m, Commit(p, m, b, id, c))
  {
  }

  lemma CommitKeepsCache(p: Platform, m: Memory, files: map<string, Bytes>, b: Bytes, id: Id, c: Component)
    requires CacheAgrees(p, m, files) && p.compile(b) == Ok(c)
    requires FileOf(id) in files && files[FileOf(id)] == b
    ensures CacheAgrees(p, Commit(p, m, b, id, c), files)
  {
  }

  lemma CommitStep(p: Platform, s: State, t: nat, s': State)
    requires TasksOk(p, s) && t in s.tasks && s.tasks[t].Registering? && s.tasks[t].phase.TakeLock?
    requires p.sha256(s.tasks[t].b) !in s.mem.byHash && s' == AdvanceRegistering(p, s, t, s.tasks[t], "", false)
    ensures StepOf(s, s', t) && OwnOk(p, s', t)
  {
    assert Pending(s.tasks[t]) == Some(s.tasks[t].phase.id);
    PendingIsOwn(p, s, t);
  }

  /** The registry in memory is good by itself, and so is every snapshot of it. */
  lemma ConsistentIsGood(p: Platform, m: Memory, files: map<string, Bytes>)
    requires Consistent(p, m, files)
    ensures GoodEntries(p, m.byId, files)
  {
  }

  lemma CommitKeepsIndexes(p: Platform, s: State, t: nat, s': State)
    requires TasksOk(p, s) && IndexesOk(p, s) && Consistent(p, s'.mem, s'.disk.files)
    requires t in s.tasks && s.tasks[t].Registering? && s.tasks[t].phase.TakeLock?
    requires p.sha256(s.tasks[t].b) !in s.mem.byHash && s' == AdvanceRegistering(p, s, t, s.tasks[t], "", false)
    ensures IndexesOk(p, s')
  {
    var id := s.tasks[t].phase.id;
    assert Pending(s.tasks[t]) == Some(id);
    PendingIsOwn(p, s, t);
    StepKeeps(s, s', t);
    ConsistentIsGood(p, s'.mem, s'.disk.files);
    assert Fixed(s', id);
    forall x | x in s'.mem.byId && x != id ensures Fixed(s', x) {
      assert Fixed(s, x);
    }
    IndexesStayOk(p, s, s', t);
  }

  lemma CommitKeepsInv(p: Platform, s: State, t: nat)
    requires Inv(p, s) && t in s.tasks && s.tasks[t].Registering? && s.tasks[t].phase.TakeLock?
    requires p.sha256(s.tasks[t].b) !in s.mem.byHash
    ensures Inv(p, AdvanceRegistering(p, s, t, s.tasks[t], "", false))
  {
    var s' := AdvanceRegistering(p, s, t, s.tasks[t], "", false);
    var b, id, c := s.tasks[t].b, s.tasks[t].phase.id, s.tasks[t].phase.c;
    assert Pending(s.tasks[t]) == Some(id);
    PendingIsOwn(p, s, t);
    CommitStep(p, s, t, s');
    CommitKeepsConsistent(p, s.mem, s.disk.files, b, id, c);
    CommitKeepsCache(p, s.mem, s.disk.files, b, id, c);
    TasksStayOk(p, s, s', t);
    CommitKeepsIndexes(p, s, t, s');
  }

  lemma PersistKeepsIndexes(p: Platform, s: State, t: nat, s': State)
    requires IndexesOk(p, s) && t in s.tasks && s.tasks[t].Registering?
    requires s.tasks[t].phase.WriteTmp? || (s.tasks[t].phase.Rename? && s.disk.tmp.Some?)
    requires s' == AdvanceRegistering(p, s, t, s.tasks[t], "", false)
    ensures IndexesOk(p, s')
  {
    StepKeeps(s, s', t);
    IndexStaysOk(p, s, s', s.mem.byId);
    IndexesStayOk(p, s, s', t);
  }

  lemma PersistStep(p: Platform, s: State, t: nat, s': State)
    requires TasksOk(p, s) && t in s.tasks && s.tasks[t].Registering?
    requires s.tasks[t].phase.WriteTmp? || (s.tasks[t].phase.Rename? && s.disk.tmp.Some?)
    requires s' == AdvanceRegistering(p, s, t, s.tasks[t], "", false)
    ensures StepOf(s, s', t) && OwnOk(p, s', t)
  {
    assert TaskOk(p, s.mem, s.disk.files, s.lost, s.tasks[t]);
    QuietStep(p, s, s', t);
  }

  lemma PersistKeepsInv(p: Platform, s: State, t: nat)
    requires Inv(p, s) && t in s.tasks && s.tasks[t].Registering?
    requires s.tasks[t].phase.WriteTmp? || (s.tasks[t].phase.Rename? && s.disk.tmp.Some?)
    ensures Inv(p, AdvanceRegistering(p, s, t, s.tasks[t], "", false))
  {
    var s' := AdvanceRegistering(p, s, t, s.tasks[t], "", false);
    PersistStep(p, s, t, s');
    TasksStayOk(p, s, s', t);
    PersistKeepsIndexes(p, s, t, s');
  }

  lemma StoreStep(p: Platform, s: State, t: nat, s': State)
    requires TasksOk(p, s) && t in s.tasks && s.tasks[t].Fetching? && s.tasks[t].at.Store?
    requires s' == AdvanceFetching(p, s, t, s.tasks[t], false)
    ensures StepOf(s, s', t) && OwnOk(p, s', t)
    ensures CacheAgrees(p, s.mem, s.disk.files) ==> CacheAgrees(p, s'.mem, s'.disk.files)
    ensures Consistent(p, s.mem, s.disk.files) ==> Consistent(p, s'.mem, s'.disk.files)
  {
    assert TaskOk(p, s.mem, s.disk.files, s.lost, s.tasks[t]);
  }

  lemma StoreKeepsInv(p: Platform, s: State, t: nat)
    requires Inv(p, s) && t in s.tasks && s.tasks[t].Fetching? && s.tasks[t].at.Store?
    ensures Inv(p, AdvanceFetching(p, s, t, s.tasks[t], false))
  {
    var s' := AdvanceFetching(p, s, t, s.tasks[t], false);
    StoreStep(p, s, t, s');
    TasksStayOk(p, s, s', t);
    StepKeeps(s, s', t);
    IndexStaysOk(p, s, s', s.mem.byId);
    IndexesStayOk(p, s, s', t);
  }

  /** A request that only moves along finds itself in a good place. */
  lemma MovedTaskOk(p: Platform, s: State, t: nat, uuid: Id, ioFails: bool)
    requires TasksOk(p, s) && CacheAgrees(p, s.mem, s.disk.files) && t in s.tasks && s.tasks[t].Registering?
    requires var phase := s.tasks[t].phase;
      phase.FastPath? || ((phase.WriteFile? || phase.WriteTmp?) && ioFails)
      || (phase.Rename? && (ioFails || s.disk.tmp.None?))
    requires var s' := AdvanceRegistering(p, s, t, s.tasks[t], uuid, ioFails); s'.used == s.used
    ensures var s' := AdvanceRegistering(p, s, t, s.tasks[t], uuid, ioFails);
      && s' == s.(tasks := s.tasks[t := s'.tasks[t]])
      && Pending(s'.tasks[t]).None? && SnapshotOf(s'.tasks[t]).None?
      && TaskOk(p, s.mem, s.disk.files, s.lost, s'.tasks[t])
  {
    assert s.tasks == s.tasks[t := s.tasks[t]];
  }

  lemma RegisteringKeepsInv(p: Platform, s: State, t: nat, uuid: Id, ioFails: bool)
    requires Inv(p, s) && t in s.tasks && s.tasks[t].Registering?
    ensures Inv(p, AdvanceRegistering(p, s, t, s.tasks[t], uuid, ioFails))
  {
    var task := s.tasks[t];
    var s' := AdvanceRegistering(p, s, t, task, uuid, ioFails);
    match task.phase {
      case FastPath =>
        if s'.used != s.used {
          DrawKeepsInv(p, s, t, uuid, s'.tasks[t]);
        } else {
          MovedTaskOk(p, s, t, uuid, ioFails);
          MoveKeepsInv(p, s, t, s'.tasks[t]);
        }
      case WriteFile(id, c) =>
        PendingIsOwn(p, s, t);
        if ioFails {
          MovedTaskOk(p, s, t, uuid, ioFails);
          MoveKeepsInv(p, s, t, s'.tasks[t]);
        } else {
          FileChangeKeepsInv(p, s, t, s'.disk.files, s'.tasks[t]);
        }
      case TakeLock(id, c) =>
        if p.sha256(task.b) in s.mem.byHash { LoseKeepsInv(p, s, t); } else { CommitKeepsInv(p, s, t); }
      case Discard(id, existing) =>
        PendingIsOwn(p, s, t);
        FileChangeKeepsInv(p, s, t, s'.disk.files, s'.tasks[t]);
      case WriteTmp(_, _) =>
        RegisteredKeepsInv(p, s, t, uuid, ioFails);
      case Rename(_, _) =>
        RegisteredKeepsInv(p, s, t, uuid, ioFails);
    }
  }

  lemma RegisteredKeepsInv(p: Platform, s: State, t: nat, uuid: Id, ioFails: bool)
    requires Inv(p, s) && t in s.tasks && s.tasks[t].Registering?
    requires s.tasks[t].phase.WriteTmp? || s.tasks[t].phase.Rename?
    ensures Inv(p, AdvanceRegistering(p, s, t, s.tasks[t], uuid, ioFails))
  {
    if ioFails || (s.tasks[t].phase.Rename? && s.disk.tmp.None?) {
      MovedTaskOk(p, s, t, uuid, ioFails);
      MoveKeepsInv(p, s, t, AdvanceRegistering(p, s, t, s.tasks[t], uuid, ioFails).tasks[t]);
    } else {
      PersistKeepsInv(p, s, t);
    }
  }

  lemma FetchedTaskOk(p: Platform, s: State, t: nat, ioFails: bool)
    requires TasksOk(p, s) && Consistent(p, s.mem, s.disk.files) && CacheAgrees(p, s.mem, s.disk.files)
    requires t in s.tasks && s.tasks[t].Fetching? && !s.tasks[t].at.Store?
    ensures var s' := AdvanceFetching(p, s, t, s.tasks[t], ioFails);
      && s' == s.(tasks := s.tasks[t := s'.tasks[t]])
      && Pending(s'.tasks[t]).None? && SnapshotOf(s'.tasks[t]).None?
      && TaskOk(p, s.mem, s.disk.files, s.lost, s'.tasks[t])
  {
    assert TaskOk(p, s.mem, s.disk.files, s.lost, s.tasks[t]);
  }

  lemma FetchingKeepsInv(p: Platform, s: State, t: nat, ioFails: bool)
    requires Inv(p, s) && t in s.tasks && s.tasks[t].Fetching?
    ensures Inv(p, AdvanceFetching(p, s, t, s.tasks[t], ioFails))
  {
    if s.tasks[t].at.Store? {
      StoreKeepsInv(p, s, t);
    } else {
      FetchedTaskOk(p, s, t, ioFails);
      MoveKeepsInv(p, s, t, AdvanceFetching(p, s, t, s.tasks[t], ioFails).tasks[t]);
    }
  }

  // ---- Restarts ----

  /** What is loaded from good entries is consistent, and is all of them whose file is seen. */
  lemma LoadedIsConsistent(p: Platform, d: Disk, m: Memory)
    requires Loads(d, m) && (d.index.Some? ==> exists files ::
      GoodEntries(p, d.index.value.byId, files) && forall f :: f in d.files ==> f in files && files[f] == d.files[f])
    ensures Consistent(p, m, d.files) && m.compiled == map[]
    ensures d.index.Some? ==> forall id :: id in m.byId <==> id in d.index.value.byId && FileOf(id) in d.files
    ensures d.index.Some? ==> forall id :: id in m.byId ==> m.byId[id] == d.index.value.byId[id]
  {
    if d.index.Some? {
      var files :| GoodEntries(p, d.index.value.byId, files)
                   && forall f :: f in d.files ==> f in files && files[f] == d.files[f];
      forall h | h in m.byHash
        ensures m.byHash[h] in m.byId && m.byId[m.byHash[h]].sha256 == h
      {
        var id :| id in m.byId && m.byId[id].sha256 == h && m.byHash[h] == m.byId[id].componentId;
      }
      forall id | id in m.byId
        ensures m.byId[id].sha256 in m.byHash && m.byHash[m.byId[id].sha256] == id
      {
        var x :| x in m.byId && m.byId[x].sha256 == m.byId[id].sha256
                 && m.byHash[m.byId[id].sha256] == m.byId[x].componentId;
      }
    }
  }

  lemma MoreFiles(p: Platform, m: Memory, files: map<string, Bytes>, files': map<string, Bytes>)
    requires Consistent(p, m, files) && forall f :: f in files ==> f in files' && files'[f] == files[f]
    ensures Consistent(p, m, files')
  {
  }

  /** What a start loads, whether its reads fail or not, is consistent with the files on disk and is
      in the index. */
  lemma EntriesLoadGood(p: Platform, d: Disk, names: set<string>, m: Memory)
    requires LoadsSome(d, names, m) && (d.index.Some? ==> GoodEntries(p, d.index.value.byId, d.files))
    ensures Consistent(p, m, d.files) && m.compiled == map[]
    ensures forall id :: id in m.byId ==> d.index.Some? && id in d.index.value.byId
                                          && m.byId[id] == d.index.value.byId[id]
  {
    if m != EMPTY {
      LoadedIsConsistent(p, Seen(d, names), m);
      MoreFiles(p, m, Seen(d, names).files, d.files);
    }
  }

  lemma StartIsGood(p: Platform, s: State, names: set<string>, m: Memory)
    requires IndexesOk(p, s) && LoadsSome(s.disk, names, m)
    ensures Consistent(p, m, s.disk.files) && m.compiled == map[]
    ensures forall id :: id in m.byId ==> s.disk.index.Some? && id in s.disk.index.value.byId
                                          && m.byId[id] == s.disk.index.value.byId[id]
  {
    EntriesLoadGood(p, s.disk, names, m);
  }

  lemma LoadsAllIsSome(d: Disk, m: Memory)
    requires Loads(d, m)
    ensures LoadsSome(d, d.files.Keys, m)
  {
    assert Seen(d, d.files.Keys).files == d.files;
  }

  lemma StartKeepsInv(p: Platform, s: State, names: set<string>, m: Memory)
    requires Inv(p, s) && LoadsSome(s.disk, names, m)
    ensures Inv(p, s.(mem := m, tasks := map[]))
  {
    var s' := s.(mem := m, tasks := map[]);
    StartIsGood(p, s, names, m);
    ConsistentIsGood(p, m, s.disk.files);
    assert Keeps(s, s');
    if s.disk.index.Some? { IndexStaysOk(p, s, s', s.disk.index.value.byId); }
    if s.disk.tmp.Some? { IndexStaysOk(p, s, s', s.disk.tmp.value.byId); }
  }

  lemma DropKeepsInv(p: Platform, s: State, t: nat)
    requires Inv(p, s)
    ensures Inv(p, s.(tasks := s.tasks - {t}))
  {
    var s' := s.(tasks := s.tasks - {t});
    assert forall u :: u in s'.tasks ==> u in s.tasks && s'.tasks[u] == s.tasks[u];
    SameButFewer(p, s, s');
  }

  lemma SameButFewer(p: Platform, s: State, s': State)
    requires IndexesOk(p, s) && s'.mem == s.mem && s'.disk == s.disk && s'.used == s.used && s'.lost == s.lost
    requires forall u :: u in s'.tasks ==> Pending(s'.tasks[u]).None? || (u in s.tasks && s'.tasks[u] == s.tasks[u])
    requires forall u :: u in s'.tasks && SnapshotOf(s'.tasks[u]).Some? ==> u in s.tasks && s'.tasks[u] == s.tasks[u]
    ensures IndexesOk(p, s')
  {
    assert Keeps(s, s');
    IndexStaysOk(p, s, s', s.mem.byId);
    if s.disk.index.Some? { IndexStaysOk(p, s, s', s.disk.index.value.byId); }
    if s.disk.tmp.Some? { IndexStaysOk(p, s, s', s.disk.tmp.value.byId); }
    forall u | u in s'.tasks && SnapshotOf(s'.tasks[u]).Some?
      ensures IndexOk(p, s', SnapshotOf(s'.tasks[u]).value.byId)
    {
      IndexStaysOk(p, s, s', SnapshotOf(s.tasks[u]).value.byId);
    }
  }

  lemma StepKeepsInv(p: Platform, s: State, a: Action)
    requires Inv(p, s)
    ensures Inv(p, Apply(p, s, a))
  {
    match a {
      case Call(t, b, resolve) =>
        if t !in s.tasks { ArrivalKeepsInv(p, s, t, Registering(b, resolve, FastPath)); }
      case CallById(t, id) =>
        if t !in s.tasks { ArrivalKeepsInv(p, s, t, Fetching(id, None, CheckCompiled)); }
      case Advance(t, uuid, ioFails) =>
        if t in s.tasks && s.tasks[t].Registering? {
          RegisteringKeepsInv(p, s, t, uuid, ioFails);
        } else if t in s.tasks && s.tasks[t].Fetching? {
          FetchingKeepsInv(p, s, t, ioFails);
        }
      case Drop(t) =>
        DropKeepsInv(p, s, t);
      case Crash(m) =>
        if Loads(s.disk, m) {
          LoadsAllIsSome(s.disk, m);
          StartKeepsInv(p, s, s.disk.files.Keys, m);
        }
      case BadStart(m, names) =>
        if LoadsSome(s.disk, names, m) { StartKeepsInv(p, s, names, m); }
    }
  }

  lemma ArrivalKeepsInv(p: Platform, s: State, t: nat, task: Task)
    requires Inv(p, s) && t !in s.tasks && Pending(task).None? && SnapshotOf(task).None?
    requires TaskOk(p, s.mem, s.disk.files, s.lost, task)
    ensures Inv(p, s.(tasks := s.tasks[t := task]))
  {
    var s' := s.(tasks := s.tasks[t := task]);
    assert forall u :: u in s'.tasks ==> u == t || (u in s.tasks && s'.tasks[u] == s.tasks[u]);
    SameButFewer(p, s, s');
  }

  lemma {:induction false} RunKeepsInv(p: Platform, s: State, actions: seq<Action>)
    requires Inv(p, s)
    ensures Inv(p, Run(p, s, actions))
  {
    if actions != [] {
      RunKeepsInv(p, s, actions[..|actions| - 1]);
      StepKeepsInv(p, Run(p, s, actions[..|actions| - 1]), actions[|actions| - 1]);
    }
  }

  /** Every reachable state is good. */
  lemma ReachableIsGood(p: Platform, s: State)
    requires Reachable(p, s)
    ensures Inv(p, s)
  {
    var actions :| s == Run(p, INITIAL, actions);
    RunKeepsInv(p, INITIAL, actions);
  }

  // ---- What the invariant gives ----

  /** In every interleaving: an id is registered under a hash exactly when the hash leads to it,
      its file holds signed code with that hash, and a writer that lost the race is in no map. */
  lemma RegistryInvariant(p: Platform, s: State)
    requires Reachable(p, s)
    ensures forall h, id :: (h in s.mem.byHash && s.mem.byHash[h] == id)
                       <==> (id in s.mem.byId && s.mem.byId[id].sha256 == h)
    ensures forall id :: id in s.mem.byId ==>
      && FileOf(id) in s.disk.files && p.sha256(s.disk.files[FileOf(id)]) == s.mem.byId[id].sha256
      && p.signed(s.disk.files[FileOf(id)]) && p.compile(s.disk.files[FileOf(id)]).Ok?
    ensures forall id :: id in s.lost ==>
      id !in s.mem.byId && id !in s.mem.compiled && id !in s.mem.byHash.Values
      && (s.disk.index.Some? ==> id !in s.disk.index.value.byId)
  {
    ReachableIsGood(p, s);
    assert forall id :: id in s.mem.byHash.Values ==> id in s.mem.byId;
    forall id | id in s.lost ensures !Fixed(s, id) {}
  }

  /** What a request has been told: that code `b` is registered under an id. A resolve of inline code
      goes on with the id its registration returned. */
  function Told(task: Task): Option<(Bytes, Id)> {
    match task
    case Registered(b, Ok(id)) => Some((b, id))
    case Fetching(id, Some(b), _) => Some((b, id))
    case Resolved(id, Some(b), _) => Some((b, id))
    case _ => None
  }

  /** Within one run of the service, all successful registrations of the same bytes return one id,
      also those on behalf of a resolve. */
  lemma SameBytesSameId(p: Platform, s: State, t: nat, t': nat)
    requires Reachable(p, s) && t in s.tasks && t' in s.tasks
    requires Told(s.tasks[t]).Some? && Told(s.tasks[t']).Some?
    requires Told(s.tasks[t]).value.0 == Told(s.tasks[t']).value.0
    ensures Told(s.tasks[t]) == Told(s.tasks[t'])
  {
    ReachableIsGood(p, s);
    assert TaskOk(p, s.mem, s.disk.files, s.lost, s.tasks[t]);
    assert TaskOk(p, s.mem, s.disk.files, s.lost, s.tasks[t']);
  }

  /** Crash recovery: whatever a restart loads, at any point of any interleaving and whether its reads
      fail or not, has inverse maps and the file of every id, and is in the index. A restart that can
      read loads the whole index. */
  lemma CrashRecovery(p: Platform, s: State, names: set<string>, loaded: Memory)
    requires Reachable(p, s) && (Loads(s.disk, loaded) || LoadsSome(s.disk, names, loaded))
    ensures forall h, id :: (h in loaded.byHash && loaded.byHash[h] == id)
                       <==> (id in loaded.byId && loaded.byId[id].sha256 == h)
    ensures forall id :: id in loaded.byId ==>
      FileOf(id) in s.disk.files && p.sha256(s.disk.files[FileOf(id)]) == loaded.byId[id].sha256
    ensures forall id :: id in loaded.byId ==>
      s.disk.index.Some? && id in s.disk.index.value.byId && loaded.byId[id] == s.disk.index.value.byId[id]
    ensures Loads(s.disk, loaded) && s.disk.index.Some? ==> loaded.byId == s.disk.index.value.byId
  {
    ReachableIsGood(p, s);
    if Loads(s.disk, loaded) {
      LoadsAllIsSome(s.disk, loaded);
      StartIsGood(p, s, s.disk.files.Keys, loaded);
    } else {
      StartIsGood(p, s, names, loaded);
    }
  }

  lemma PartOfEntries(p: Platform, a: Memory, b: Memory, files: map<string, Bytes>)
    requires Consistent(p, a, files) && Consistent(p, b, files) && SubIndex(Snapshot(a), b)
    ensures SubRegistry(a, b)
  {
    forall h | h in a.byHash ensures h in b.byHash && b.byHash[h] == a.byHash[h] {
      assert a.byHash[h] in a.byId;
    }
  }

  /** What a restart that can read finds is part of the registry in memory exactly if the index is. */
  lemma LoadsPartIff(p: Platform, s: State, loaded: Memory)
    requires Reachable(p, s) && Loads(s.disk, loaded)
    ensures SubRegistry(loaded, s.mem) <==> (s.disk.index.Some? ==> SubIndex(s.disk.index.value, s.mem))
  {
    ReachableIsGood(p, s);
    CrashRecovery(p, s, {}, loaded);
    if s.disk.index.Some? {
      if SubIndex(s.disk.index.value, s.mem) {
        LoadsAllIsSome(s.disk, loaded);
        StartIsGood(p, s, s.disk.files.Keys, loaded);
        PartOfEntries(p, loaded, s.mem, s.disk.files);
      }
    }
  }

  /** Cached components are those of the stored bytes; a resolve by id yields the compilation of the
      bytes stored for that id, and a resolve of inline code the compilation of that code, unless it
      shares its hash with other stored code. */
  lemma CompiledCacheAgreement(p: Platform, s: State)
    requires Reachable(p, s)
    ensures forall id :: id in s.mem.compiled ==>
      id in s.mem.byId && FileOf(id) in s.disk.files && p.compile(s.disk.files[FileOf(id)]) == Ok(s.mem.compiled[id])
    ensures forall t :: t in s.tasks && s.tasks[t].Resolved? && s.tasks[t].component.Ok? ==>
      var id := s.tasks[t].id;
      id in s.mem.byId && FileOf(id) in s.disk.files && p.compile(s.disk.files[FileOf(id)]) == s.tasks[t].component
    ensures forall t :: t in s.tasks && s.tasks[t].Resolved? && s.tasks[t].component.Ok? && s.tasks[t].inline.Some? ==>
      var b, stored := s.tasks[t].inline.value, s.disk.files[FileOf(s.tasks[t].id)];
      p.sha256(stored) == p.sha256(b) && (stored == b ==> s.tasks[t].component == p.compile(b))
  {
    ReachableIsGood(p, s);
    forall t | t in s.tasks && s.tasks[t].Resolved? && s.tasks[t].component.Ok?
      ensures TaskOk(p, s.mem, s.disk.files, s.lost, s.tasks[t])
    {
    }
  }

  // ---- Runs whose starts can read ----

  /** The index on disk, and every index under way, is part of the registry in memory. */
  ghost predicate Within(s: State) {
    && (s.disk.index.Some? ==> SubIndex(s.disk.index.value, s.mem))
    && ((exists t :: t in s.tasks && Renaming(s.tasks[t])) && s.disk.tmp.Some? ==> SubIndex(s.disk.tmp.value, s.mem))
    && (forall t :: t in s.tasks && SnapshotOf(s.tasks[t]).Some? ==> SubIndex(SnapshotOf(s.tasks[t]).value, s.mem))
  }

  /** A step that keeps the index files, or moves one of them on, and takes nothing from memory. */
  lemma StepKeepsWithin(s: State, s': State, t: nat)
    requires Within(s) && SubRegistry(s.mem, s'.mem) && t in s.tasks
    requires forall u :: u in s'.tasks && u != t && SnapshotOf(s'.tasks[u]).Some? ==>
      u in s.tasks && s'.tasks[u] == s.tasks[u]
    requires s'.disk.index == s.disk.index || (Renaming(s.tasks[t]) && s'.disk.index == s.disk.tmp)
    requires t in s'.tasks && SnapshotOf(s'.tasks[t]).Some? ==>
      || SnapshotOf(s'.tasks[t]).value == Snapshot(s'.mem)
      || (SnapshotOf(s'.tasks[t]) == SnapshotOf(s.tasks[t]))
    requires s'.disk.tmp == s.disk.tmp || s'.disk.tmp == None || s'.disk.tmp == SnapshotOf(s.tasks[t])
    requires t in s'.tasks && Renaming(s'.tasks[t]) ==> Renaming(s.tasks[t]) || s'.disk.tmp == SnapshotOf(s.tasks[t])
    ensures Within(s')
  {
    assert forall u :: u in s'.tasks && Renaming(s'.tasks[u]) ==> SnapshotOf(s'.tasks[u]).Some?;
  }

  /** What a step of a request does to the index files. */
  lemma AdvanceMovesIndexes(p: Platform, s: State, t: nat, uuid: Id, ioFails: bool)
    requires t in s.tasks
    ensures var s' := Apply(p, s, Advance(t, uuid, ioFails));
      && t in s'.tasks && s'.tasks == s.tasks[t := s'.tasks[t]]
      && (s'.disk.index == s.disk.index || (Renaming(s.tasks[t]) && s'.disk.index == s.disk.tmp))
      && (SnapshotOf(s'.tasks[t]).Some? ==>
            SnapshotOf(s'.tasks[t]).value == Snapshot(s'.mem) || SnapshotOf(s'.tasks[t]) == SnapshotOf(s.tasks[t]))
      && (s'.disk.tmp == s.disk.tmp || s'.disk.tmp == None || s'.disk.tmp == SnapshotOf(s.tasks[t]))
      && (Renaming(s'.tasks[t]) ==> Renaming(s.tasks[t]) || s'.disk.tmp == SnapshotOf(s.tasks[t]))
  {
    assert s.tasks == s.tasks[t := s.tasks[t]];
  }

  lemma RestartKeepsWithin(p: Platform, s: State, m: Memory)
    requires Inv(p, s) && Within(s) && Loads(s.disk, m)
    ensures Within(s.(mem := m, tasks := map[]))
  {
    LoadsAllIsSome(s.disk, m);
    StartIsGood(p, s, s.disk.files.Keys, m);
    assert s.disk.index.Some? ==> IndexOk(p, s, s.disk.index.value.byId);
    assert s.disk.index.Some? ==> m.byId == s.disk.index.value.byId;
  }

  lemma QuietKeepsWithin(s: State, s': State)
    requires Within(s) && s'.mem == s.mem && s'.disk == s.disk
    requires forall u :: u in s'.tasks && SnapshotOf(s'.tasks[u]).Some? ==> u in s.tasks && s'.tasks[u] == s.tasks[u]
    ensures Within(s')
  {
    assert forall u :: u in s'.tasks && Renaming(s'.tasks[u]) ==> SnapshotOf(s'.tasks[u]).Some?;
  }

  lemma ActionKeepsWithin(p: Platform, s: State, a: Action)
    requires Inv(p, s) && Within(s) && !a.BadStart?
    ensures Within(Apply(p, s, a))
  {
    if a.Crash? {
      if Loads(s.disk, a.reloaded) { RestartKeepsWithin(p, s, a.reloaded); }
    } else if a.Advance? && a.t in s.tasks {
      StepKeepsRegistry(p, s, a);
      AdvanceMovesIndexes(p, s, a.t, a.uuid, a.ioFails);
      StepKeepsWithin(s, Apply(p, s, a), a.t);
    } else {
      QuietKeepsWithin(s, Apply(p, s, a));
    }
  }

  lemma {:induction false} RunKeepsWithin(p: Platform, s: State, actions: seq<Action>)
    requires Inv(p, s) && Within(s) && StartsRead(actions)
    ensures Within(Run(p, s, actions))
  {
    if actions != [] {
      var before := actions[..|actions| - 1];
      RunKeepsWithin(p, s, before);
      RunKeepsInv(p, s, before);
      ActionKeepsWithin(p, Run(p, s, before), actions[|actions| - 1]);
    }
  }

  lemma ReadingIsWithin(p: Platform, s: State)
    requires ReachableReading(p, s)
    ensures Reachable(p, s) && Within(s)
  {
    var actions :| StartsRead(actions) && s == Run(p, INITIAL, actions);
    RunKeepsWithin(p, INITIAL, actions);
  }

  /** While every start can read, what a restart loads is part of the registry that was in memory. */
  lemma RestartFindsPart(p: Platform, s: State, loaded: Memory)
    requires ReachableReading(p, s) && Loads(s.disk, loaded)
    ensures SubRegistry(loaded, s.mem)
  {
    ReadingIsWithin(p, s);
    LoadsPartIff(p, s, loaded);
  }

  // ---- Stability and progress ----

  lemma StepKeepsRegistry(p: Platform, s: State, a: Action)
    requires TasksOk(p, s) && !a.Crash? && !a.BadStart?
    ensures SubRegistry(s.mem, Apply(p, s, a).mem)
  {
    if a.Advance? && a.t in s.tasks && Pending(s.tasks[a.t]).Some? {
      PendingIsOwn(p, s, a.t);
    }
  }

  /** Until the service restarts, registrations are never undone or changed. */
  lemma {:induction false} RegistryOnlyGrows(p: Platform, s: State, actions: seq<Action>)
    requires Inv(p, s) && forall i :: 0 <= i < |actions| ==> !actions[i].Crash? && !actions[i].BadStart?
    ensures SubRegistry(s.mem, Run(p, s, actions).mem)
  {
    if actions != [] {
      var before := actions[..|actions| - 1];
      RegistryOnlyGrows(p, s, before);
      RunKeepsInv(p, s, before);
      StepKeepsRegistry(p, Run(p, s, before), actions[|actions| - 1]);
    }
  }

  // ---- Continuations ----

  /** Some steps lead from `s` to `s'`, and every start among them can read. */
  ghost predicate Leads(p: Platform, s: State, s': State) {
    exists actions :: StartsRead(actions) && s' == Run(p, s, actions)
  }

  lemma {:induction false} RunAppend(p: Platform, s: State, a: seq<Action>, b: seq<Action>)
    ensures Run(p, s, a + b) == Run(p, Run(p, s, a), b)
    decreases |b|
  {
    if b == [] {
      assert a + b == a;
    } else {
      var more := a + b;
      assert more[..|more| - 1] == a + b[..|b| - 1];
      RunAppend(p, s, a, b[..|b| - 1]);
    }
  }

  lemma LeadsHere(p: Platform, s: State)
    ensures Leads(p, s, s)
  {
    assert StartsRead([]) && s == Run(p, s, []);
  }

  lemma LeadsStep(p: Platform, s: State, s': State, a: Action)
    requires Leads(p, s, s') && !a.BadStart?
    ensures Leads(p, s, Apply(p, s', a))
  {
    var actions :| StartsRead(actions) && s' == Run(p, s, actions);
    var more := actions + [a];
    assert more[..|more| - 1] == actions;
    assert StartsRead(more) && Apply(p, s', a) == Run(p, s, more);
  }

  lemma LeadsOn(p: Platform, s: State, s': State, s'': State)
    requires Leads(p, s, s') && Leads(p, s', s'')
    ensures Leads(p, s, s'')
  {
    var a :| StartsRead(a) && s' == Run(p, s, a);
    var b :| StartsRead(b) && s'' == Run(p, s', b);
    RunAppend(p, s, a, b);
    assert StartsRead(a + b);
  }

  lemma LeadsReachable(p: Platform, s: State, s': State)
    requires Leads(p, s, s')
    ensures Reachable(p, s) ==> Reachable(p, s')
    ensures ReachableReading(p, s) ==> ReachableReading(p, s')
    ensures Inv(p, s) ==> Inv(p, s')
  {
    var b :| StartsRead(b) && s' == Run(p, s, b);
    if Reachable(p, s) {
      var a :| s == Run(p, INITIAL, a);
      RunAppend(p, INITIAL, a, b);
    }
    if ReachableReading(p, s) {
      LeadsOn(p, INITIAL, s, s');
    }
    if Inv(p, s) {
      RunKeepsInv(p, s, b);
    }
  }

  /** A registration of new code up to the end of its lock region. */
  lemma UpToLock(p: Platform, s: State, t: nat, b: Bytes, uuid: Id) returns (s': State)
    requires t !in s.tasks && uuid !in s.used
    requires p.signed(b) && p.sha256(b) !in s.mem.byHash && p.compile(b).Ok?
    ensures Leads(p, s, s') && s'.mem == Commit(p, s.mem, b, uuid, p.compile(b).value)
    ensures s'.disk == s.disk.(files := s.disk.files[FileOf(uuid) := b])
    ensures s'.tasks == s.tasks[t := Registering(b, false, WriteTmp(uuid, Snapshot(s'.mem)))]
    ensures s'.used == s.used + {uuid}
  {
    var step := Advance(t, uuid, false);
    LeadsHere(p, s);
    LeadsStep(p, s, s, Call(t, b, false));
    s' := Apply(p, s, Call(t, b, false));
    LeadsStep(p, s, s', step);
    s' := Apply(p, s', step);
    assert s'.tasks[t] == Registering(b, false, WriteFile(uuid, p.compile(b).value));
    LeadsStep(p, s, s', step);
    s' := Apply(p, s', step);
    assert s'.tasks[t] == Registering(b, false, TakeLock(uuid, p.compile(b).value));
    LeadsStep(p, s, s', step);
    s' := Apply(p, s', step);
  }

  /** A registration of new code that is left alone goes through: registered, compiled, on disk. */
  lemma UndisturbedRegistration(p: Platform, s: State, t: nat, b: Bytes, uuid: Id) returns (s': State)
    requires t !in s.tasks && uuid !in s.used
    requires p.signed(b) && p.sha256(b) !in s.mem.byHash && p.compile(b).Ok?
    ensures Leads(p, s, s') && s'.mem == Commit(p, s.mem, b, uuid, p.compile(b).value)
    ensures s'.disk == Disk(s.disk.files[FileOf(uuid) := b], None, Some(Index(s'.mem.byId, s'.mem.byHash)))
    ensures s'.tasks == s.tasks[t := Registered(b, Ok(uuid))]
  {
    var step := Advance(t, uuid, false);
    s' := UpToLock(p, s, t, b, uuid);
    LeadsStep(p, s, s', step);
    s' := Apply(p, s', step);
    assert s'.tasks[t] == Registering(b, false, Rename(uuid, Snapshot(s'.mem)));
    LeadsStep(p, s, s', step);
    s' := Apply(p, s', step);
  }

  /** A registration that found its hash taken under the lock removes its file again, and answers with
      the id that was there first. */
  lemma LosingRegistration(p: Platform, s: State, t: nat, b: Bytes, id: Id, c: Component) returns (s': State)
    requires t in s.tasks && s.tasks[t] == Registering(b, false, TakeLock(id, c)) && p.sha256(b) in s.mem.byHash
    ensures Leads(p, s, s') && s'.mem == s.mem && s'.lost == s.lost + {id}
    ensures s'.disk.files == s.disk.files - {FileOf(id)} && s'.disk.index == s.disk.index
    ensures s'.tasks == s.tasks[t := Registered(b, Ok(s.mem.byHash[p.sha256(b)]))]
  {
    var step, existing := Advance(t, "", false), s.mem.byHash[p.sha256(b)];
    LeadsHere(p, s);
    LeadsStep(p, s, s, step);
    s' := Apply(p, s, step);
    assert s'.tasks[t] == Registering(b, false, Discard(id, existing));
    LeadsStep(p, s, s', step);
    s' := Apply(p, s', step);
  }

  /** A file operation that fails ends a registration with an error, and changes no file. */
  lemma FailedStepIsReported(p: Platform, s: State, t: nat)
    requires t in s.tasks && s.tasks[t].Registering?
    requires s.tasks[t].phase.WriteFile? || s.tasks[t].phase.WriteTmp? || s.tasks[t].phase.Rename?
    ensures Apply(p, s, Advance(t, "", true)) == s.(tasks := s.tasks[t := Registered(s.tasks[t].b, Err)])
  {
  }

  /** A file that cannot be read ends a look-up with an error. One that cannot be removed stays, and
      the loser of a race is answered all the same. */
  lemma OtherFailedSteps(p: Platform, s: State, t: nat)
    requires t in s.tasks
    ensures s.tasks[t].Fetching? && s.tasks[t].at.ReadFile? ==>
      Apply(p, s, Advance(t, "", true))
      == s.(tasks := s.tasks[t := Resolved(s.tasks[t].id, s.tasks[t].inline, Err)])
    ensures s.tasks[t].Registering? && s.tasks[t].phase.Discard? && !s.tasks[t].resolve ==>
      Apply(p, s, Advance(t, "", true))
      == s.(tasks := s.tasks[t := Registered(s.tasks[t].b, Ok(s.tasks[t].phase.existing))])
  {
  }

  /** Code that is not signed, or does not compile, is refused without a trace. */
  lemma RefusedCode(p: Platform, s: State, t: nat, b: Bytes, resolve: bool, uuid: Id)
    requires t !in s.tasks
    requires !p.signed(b) || (p.sha256(b) !in s.mem.byHash && p.compile(b).Err?)
    ensures Run(p, s, [Call(t, b, resolve), Advance(t, uuid, false)]) == s.(tasks := s.tasks[t := Registered(b, Err)])
  {
    var called := Apply(p, s, Call(t, b, resolve));
    assert [Call(t, b, resolve), Advance(t, uuid, false)][..1] == [Call(t, b, resolve)];
    assert [Call(t, b, resolve)][..0] == [];
    assert Run(p, s, [Call(t, b, resolve)]) == called;
    assert called.tasks[t] == Registering(b, resolve, FastPath);
    assert s.tasks[t := Registering(b, resolve, FastPath)][t := Registered(b, Err)] == s.tasks[t := Registered(b, Err)];
  }

  /** A look-up that is left alone gives the compilation of the stored bytes of a registered id. */
  lemma UndisturbedLookup(p: Platform, s: State, t: nat, id: Id, inline: Option<Bytes>) returns (s': State)
    requires Consistent(p, s.mem, s.disk.files) && CacheAgrees(p, s.mem, s.disk.files)
    requires t in s.tasks && s.tasks[t] == Fetching(id, inline, CheckCompiled) && id in s.mem.byId
    ensures Leads(p, s, s') && s'.disk == s.disk && s'.mem.byId == s.mem.byId && FileOf(id) in s.disk.files
    ensures s'.tasks == s.tasks[t := Resolved(id, inline, p.compile(s.disk.files[FileOf(id)]))]
    ensures id in s'.mem.compiled && p.compile(s.disk.files[FileOf(id)]) == Ok(s'.mem.compiled[id])
  {
    var step := Advance(t, "", false);
    LeadsHere(p, s);
    LeadsStep(p, s, s, step);
    s' := Apply(p, s, step);
    if id !in s.mem.compiled {
      assert s'.tasks[t] == Fetching(id, inline, FindEntry);
      LeadsStep(p, s, s', step);
      s' := Apply(p, s', step);
      assert s'.tasks[t] == Fetching(id, inline, ReadFile(s.mem.byId[id]));
      LeadsStep(p, s, s', step);
      s' := Apply(p, s', step);
      assert s'.tasks[t] == Fetching(id, inline, Store(p.compile(s.disk.files[FileOf(id)]).value));
      LeadsStep(p, s, s', step);
      s' := Apply(p, s', step);
    }
  }

  lemma UpToLookup(p: Platform, s: State, t: nat, id: Id, inline: Option<Bytes>) returns (s': State)
    requires t !in s.tasks && (inline.Some? ==> p.signed(inline.value) && Holds(p, s.mem, inline.value, id))
    ensures Leads(p, s, s') && s' == s.(tasks := s.tasks[t := Fetching(id, inline, CheckCompiled)])
  {
    LeadsHere(p, s);
    if inline.None? {
      LeadsStep(p, s, s, CallById(t, id));
      s' := Apply(p, s, CallById(t, id));
    } else {
      var called := Apply(p, s, Call(t, inline.value, true));
      LeadsStep(p, s, s, Call(t, inline.value, true));
      assert called.tasks[t] == Registering(inline.value, true, FastPath);
      LeadsStep(p, s, called, Advance(t, "", false));
      s' := Apply(p, called, Advance(t, "", false));
    }
  }

  /** So do a resolve by id and a resolve of inline code that is registered already. */
  lemma UndisturbedResolve(p: Platform, s: State, t: nat, id: Id, inline: Option<Bytes>) returns (s': State)
    requires Consistent(p, s.mem, s.disk.files) && CacheAgrees(p, s.mem, s.disk.files)
    requires t !in s.tasks && id in s.mem.byId
    requires inline.Some? ==> p.signed(inline.value) && Holds(p, s.mem, inline.value, id)
    ensures Leads(p, s, s') && FileOf(id) in s.disk.files
    ensures s'.tasks == s.tasks[t := Resolved(id, inline, p.compile(s.disk.files[FileOf(id)]))]
  {
    var asked := UpToLookup(p, s, t, id, inline);
    s' := UndisturbedLookup(p, asked, t, id, inline);
    LeadsOn(p, s, asked, s');
    assert asked.tasks[t := s'.tasks[t]] == s.tasks[t := s'.tasks[t]];
  }
}
