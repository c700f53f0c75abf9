/** When a registration stays on disk: exactly, over all continuations of a run. */
module RegistryDurability {
  import opened Common
  import opened Registry
  import opened RegistryProofs

  predicate Persisting(task: Task) {
    task.Registering? && task.phase.WriteTmp?
  }

  predicate Indexes(i: Option<Index>, id: Id) {
    i.Some? && id in i.value.byId
  }

  /** The id is in the index, and so it is in every index that is still to be written or renamed. */
  ghost predicate Durable(s: State, id: Id) {
    && id in s.mem.byId
    && Indexes(s.disk.index, id)
    && (forall t :: t in s.tasks && Persisting(s.tasks[t]) ==> id in s.tasks[t].phase.snapshot.byId)
    && ((exists t :: t in s.tasks && Renaming(s.tasks[t])) && s.disk.tmp.Some? ==> id in s.disk.tmp.value.byId)
  }

  /** A step that leaves the index files alone, and gives no request an index without the id. */
  lemma QuietKeepsDurable(s: State, s': State, id: Id)
    requires Durable(s, id) && id in s'.mem.byId && s'.disk.index == s.disk.index && s'.disk.tmp == s.disk.tmp
    requires forall u :: u in s'.tasks && Persisting(s'.tasks[u]) ==>
      id in s'.tasks[u].phase.snapshot.byId || (u in s.tasks && s'.tasks[u] == s.tasks[u])
    requires forall u :: u in s'.tasks && Renaming(s'.tasks[u]) ==> u in s.tasks && s'.tasks[u] == s.tasks[u]
    ensures Durable(s', id)
  {
  }

  /** A step that writes or renames an index with the id. */
  lemma PersistKeepsDurable(s: State, s': State, t: nat, id: Id)
    requires Durable(s, id) && t in s.tasks && s'.mem == s.mem
    requires forall u :: u in s'.tasks && u != t ==> u in s.tasks && s'.tasks[u] == s.tasks[u]
    requires t in s'.tasks && !Persisting(s'.tasks[t])
    requires Indexes(s'.disk.index, id) && (s'.disk.tmp.Some? ==> id in s'.disk.tmp.value.byId)
    ensures Durable(s', id)
  {
  }

  /** A step of a registration. */
  lemma RegisteringKeepsDurable(p: Platform, s: State, id: Id, t: nat, uuid: Id, ioFails: bool)
    requires Durable(s, id) && t in s.tasks && s.tasks[t].Registering?
    ensures Durable(AdvanceRegistering(p, s, t, s.tasks[t], uuid, ioFails), id)
  {
    var s' := AdvanceRegistering(p, s, t, s.tasks[t], uuid, ioFails);
    match s.tasks[t].phase {
      case WriteTmp(_, _) =>
        assert Persisting(s.tasks[t]);
        if ioFails { QuietKeepsDurable(s, s', id); } else { PersistKeepsDurable(s, s', t, id); }
      case Rename(_, _) =>
        assert Renaming(s.tasks[t]);
        if ioFails || s.disk.tmp.None? { QuietKeepsDurable(s, s', id); } else { PersistKeepsDurable(s, s', t, id); }
      case _ =>
        QuietKeepsDurable(s, s', id);
    }
  }

  /** What is on disk outlives a restart that can read. */
  lemma CrashKeepsDurable(p: Platform, s: State, id: Id, m: Memory)
    requires Inv(p, s) && Durable(s, id) && Loads(s.disk, m)
    ensures Durable(s.(mem := m, tasks := map[]), id)
  {
    assert IndexOk(p, s, s.disk.index.value.byId);
  }

  lemma StepKeepsDurable(p: Platform, s: State, id: Id, a: Action)
    requires Inv(p, s) && Durable(s, id) && !a.BadStart?
    ensures Durable(Apply(p, s, a), id)
  {
    if a.Advance? && a.t in s.tasks && s.tasks[a.t].Registering? {
      RegisteringKeepsDurable(p, s, id, a.t, a.uuid, a.ioFails);
    } else if a.Crash? {
      if Loads(s.disk, a.reloaded) { CrashKeepsDurable(p, s, id, a.reloaded); }
    } else {
      OtherStepIsQuiet(p, s, a);
      QuietKeepsDurable(s, Apply(p, s, a), id);
    }
  }

  lemma OtherStepIsQuiet(p: Platform, s: State, a: Action)
    requires !a.Crash? && !a.BadStart? && !(a.Advance? && a.t in s.tasks && s.tasks[a.t].Registering?)
    ensures Apply(p, s, a).disk == s.disk && Apply(p, s, a).mem.byId == s.mem.byId
    ensures forall u :: u in Apply(p, s, a).tasks
                        && (Persisting(Apply(p, s, a).tasks[u]) || Renaming(Apply(p, s, a).tasks[u])) ==>
              u in s.tasks && Apply(p, s, a).tasks[u] == s.tasks[u]
  {
  }

  lemma {:induction false} RunKeepsDurable(p: Platform, s: State, id: Id, actions: seq<Action>)
    requires Inv(p, s) && Durable(s, id) && StartsRead(actions)
    ensures Durable(Run(p, s, actions), id)
  {
    if actions != [] {
      var before := actions[..|actions| - 1];
      RunKeepsDurable(p, s, id, before);
      RunKeepsInv(p, s, before);
      StepKeepsDurable(p, Run(p, s, before), id, actions[|actions| - 1]);
    }
  }

  // ---- What is not durable can be lost ----

  /** A request that holds an index without the id can write and rename it. */
  lemma PersistLoses(p: Platform, s: State, id: Id, t: nat) returns (s': State)
    requires t in s.tasks && Persisting(s.tasks[t]) && id !in s.tasks[t].phase.snapshot.byId
    ensures Leads(p, s, s') && !Indexes(s'.disk.index, id)
  {
    var a, snapshot := Advance(t, "", false), s.tasks[t].phase.snapshot;
    LeadsHere(p, s);
    LeadsStep(p, s, s, a);
    var written := Apply(p, s, a);
    assert Renaming(written.tasks[t]) && written.disk.tmp == Some(snapshot);
    LeadsStep(p, s, written, a);
    s' := Apply(p, written, a);
  }

  lemma RenameLoses(p: Platform, s: State, id: Id, t: nat) returns (s': State)
    requires t in s.tasks && Renaming(s.tasks[t]) && s.disk.tmp.Some? && id !in s.disk.tmp.value.byId
    ensures Leads(p, s, s') && !Indexes(s'.disk.index, id)
  {
    LeadsHere(p, s);
    LeadsStep(p, s, s, Advance(t, "", false));
    s' := Apply(p, s, Advance(t, "", false));
  }

  /** Code the service would register now. */
  predicate Registrable(p: Platform, s: State, b: Bytes) {
    p.signed(b) && p.compile(b).Ok? && p.sha256(b) !in s.mem.byHash
  }

  lemma {:induction false} LongerThanAll(used: set<Id>) returns (n: nat)
    ensures forall id :: id in used ==> |id| < n
  {
    if used == {} {
      n := 0;
    } else {
      var id :| id in used;
      n := LongerThanAll(used - {id});
      n := n + |id| + 1;
    }
  }

  lemma FreshId(used: set<Id>) returns (uuid: Id)
    ensures uuid !in used
  {
    var n := LongerThanAll(used);
    uuid := seq(n, _ => 'a');
  }

  lemma {:induction false} AboveAll(ts: set<nat>) returns (t: nat)
    ensures forall u :: u in ts ==> u < t
  {
    if ts == {} {
      t := 0;
    } else {
      var u :| u in ts;
      var above := AboveAll(ts - {u});
      t := above + u + 1;
      forall v | v in ts ensures v < t {
        assert v == u || v in ts - {u};
      }
    }
  }

  /** The next registration of new code writes an index without what is not in memory. */
  lemma RegistrationLoses(p: Platform, s: State, id: Id, b: Bytes) returns (s': State)
    requires Registrable(p, s, b) && id !in s.mem.byId
    ensures Leads(p, s, s') && !Indexes(s'.disk.index, id)
  {
    var uuid := FreshId(s.used + {id});
    var t := AboveAll(s.tasks.Keys);
    s' := UndisturbedRegistration(p, s, t, b, uuid);
  }

  lemma NotDurableIsLost(p: Platform, s: State, id: Id) returns (s': State)
    requires !Durable(s, id)
    requires (s.disk.index.Some? ==> SubIndex(s.disk.index.value, s.mem)) || exists b :: Registrable(p, s, b)
    ensures Leads(p, s, s') && !Indexes(s'.disk.index, id)
  {
    if !Indexes(s.disk.index, id) {
      LeadsHere(p, s);
      s' := s;
    } else if t :| t in s.tasks && Persisting(s.tasks[t]) && id !in s.tasks[t].phase.snapshot.byId {
      s' := PersistLoses(p, s, id, t);
    } else if t :| t in s.tasks && Renaming(s.tasks[t]) && s.disk.tmp.Some? && id !in s.disk.tmp.value.byId {
      s' := RenameLoses(p, s, id, t);
    } else {
      var b :| Registrable(p, s, b);
      s' := RegistrationLoses(p, s, id, b);
    }
  }

  // ---- Durability ----

  /** Durability: through every continuation with failures, crashes and restarts that can read, an id
      stays in the index exactly if it is in memory, in the index, and in every index still to be
      written or renamed. Where memory is behind the index, this takes some code left to register. */
  lemma DurableIff(p: Platform, s: State, id: Id)
    requires Reachable(p, s)
    requires (s.disk.index.Some? ==> SubIndex(s.disk.index.value, s.mem)) || exists b :: Registrable(p, s, b)
    ensures Durable(s, id) <==> forall s' :: Leads(p, s, s') ==> Indexes(s'.disk.index, id)
  {
    ReachableIsGood(p, s);
    if Durable(s, id) {
      forall s' | Leads(p, s, s') ensures Indexes(s'.disk.index, id) {
        var actions :| StartsRead(actions) && s' == Run(p, s, actions);
        RunKeepsDurable(p, s, id, actions);
      }
    } else {
      var lost := NotDurableIsLost(p, s, id);
    }
  }

  /** The same without a condition, in runs whose starts can read. */
  lemma DurableWhenStartsRead(p: Platform, s: State, id: Id)
    requires ReachableReading(p, s)
    ensures Durable(s, id) <==> forall s' :: Leads(p, s, s') ==> Indexes(s'.disk.index, id)
  {
    ReadingIsWithin(p, s);
    DurableIff(p, s, id);
  }

  /** Any later restart that can read finds a durable registration with its file. */
  lemma DurableIsReloaded(p: Platform, s: State, id: Id, s': State, loaded: Memory)
    requires Reachable(p, s) && Durable(s, id) && Leads(p, s, s') && Loads(s'.disk, loaded)
    ensures id in loaded.byId && loaded.byId[id].filename == FileOf(id) && FileOf(id) in s'.disk.files
    ensures p.sha256(s'.disk.files[FileOf(id)]) == loaded.byId[id].sha256
  {
    ReachableIsGood(p, s);
    LeadsReachable(p, s, s');
    var actions :| StartsRead(actions) && s' == Run(p, s, actions);
    RunKeepsDurable(p, s, id, actions);
    assert IndexOk(p, s', s'.disk.index.value.byId);
  }

  /** No registration is between its commit and the end of its rename. */
  ghost predicate Settled(s: State) {
    forall t :: t in s.tasks ==> !Persisting(s.tasks[t]) && !Renaming(s.tasks[t])
  }

  /** Once settled, exactly what is in memory and in the index is durable; in runs whose starts can
      read, that is the index. */
  lemma SettledIsDurable(p: Platform, s: State, id: Id)
    requires Settled(s)
    ensures Durable(s, id) <==> id in s.mem.byId && Indexes(s.disk.index, id)
    ensures ReachableReading(p, s) ==> (Durable(s, id) <==> Indexes(s.disk.index, id))
  {
    if ReachableReading(p, s) {
      ReadingIsWithin(p, s);
    }
  }

  /** A registration of new code that starts from a settled state and is left alone makes the whole
      registry in memory durable. */
  lemma UndisturbedIsDurable(p: Platform, s: State, t: nat, b: Bytes, uuid: Id) returns (s': State)
    requires Settled(s) && t !in s.tasks && uuid !in s.used && Registrable(p, s, b)
    ensures Leads(p, s, s') && s'.tasks == s.tasks[t := Registered(b, Ok(uuid))]
    ensures s'.mem == Commit(p, s.mem, b, uuid, p.compile(b).value)
    ensures forall id :: id in s'.mem.byId ==> Durable(s', id)
  {
    s' := UndisturbedRegistration(p, s, t, b, uuid);
    assert Settled(s');
  }

  // ---- A start that cannot read the index ----

  /** Nothing is durable through a start that cannot read the index and one registration after it:
      the index then holds the new component alone. What the next start finds is no part of the
      registry from before, and nothing of that registry is in it. */
  lemma UnreadableStartLosesAll(p: Platform, s: State, b: Bytes, uuid: Id) returns (s': State)
    requires Reachable(p, s) && p.signed(b) && p.compile(b).Ok? && uuid !in s.used
    ensures Leads(p, Apply(p, s, BadStart(EMPTY, {})), s') && s'.tasks == map[0 := Registered(b, Ok(uuid))]
    ensures s'.disk.index.Some? && s'.disk.index.value.byId.Keys == {uuid}
    ensures forall id :: Durable(s, id) ==> !Indexes(s'.disk.index, id)
    ensures forall loaded :: Loads(s'.disk, loaded) ==>
      uuid in loaded.byId && !SubRegistry(loaded, s.mem) && loaded.byId.Keys !! s.mem.byId.Keys
  {
    ReachableIsGood(p, s);
    assert uuid in s.mem.byId ==> Fixed(s, uuid);
    var restarted := Apply(p, s, BadStart(EMPTY, {}));
    assert restarted == s.(mem := EMPTY, tasks := map[]);
    s' := UndisturbedRegistration(p, restarted, 0, b, uuid);
    forall loaded | Loads(s'.disk, loaded)
      ensures uuid in loaded.byId && loaded.byId.Keys == {uuid}
    {
      assert s'.disk.index.value.byId[uuid] == NewEntry(p, b, uuid);
    }
  }

  /** A start that cannot read does no harm by itself: a restart that can read finds what it would
      have found before. */
  lemma UnreadableStartAloneIsHarmless(p: Platform, s: State, m: Memory, names: set<string>, loaded: Memory)
    requires LoadsSome(s.disk, names, m)
    ensures var bad := Apply(p, s, BadStart(m, names));
      Loads(bad.disk, loaded) <==> Loads(s.disk, loaded)
  {
  }

  // ---- Registrations that were answered and are not durable ----

  /** An older snapshot, renamed late, takes away a registration that has already returned. */
  lemma LateRenameLosesRegistration(p: Platform, x: Bytes, y: Bytes) returns (s: State)
    requires p.signed(x) && p.signed(y) && p.compile(x).Ok? && p.compile(y).Ok? && p.sha256(x) != p.sha256(y)
    ensures Leads(p, INITIAL, s) && 1 in s.tasks && s.tasks[1] == Registered(y, Ok("B"))
    ensures s.disk.index.Some? && !Indexes(s.disk.index, "B")
  {
    // The first registration stops between the lock and the index file.
    var first := UpToLock(p, INITIAL, 0, x, "A");
    var older := Snapshot(first.mem);
    assert older.byId.Keys == {"A"};
    // The second one goes through meanwhile.
    var second := UndisturbedRegistration(p, first, 1, y, "B");
    // Then the first one writes and renames its older snapshot.
    assert second.tasks[0] == Registering(x, false, WriteTmp("A", older));
    LeadsOn(p, INITIAL, first, second);
    LeadsStep(p, INITIAL, second, Advance(0, "", false));
    s := Apply(p, second, Advance(0, "", false));
    assert s.tasks[0] == Registering(x, false, Rename("A", older)) && s.disk.tmp == Some(older);
    LeadsStep(p, INITIAL, s, Advance(0, "", false));
    s := Apply(p, s, Advance(0, "", false));
  }

  /** A second registration of the same code, while the first one has not written the index. */
  lemma FastPathAnswer(p: Platform, s: State, t: nat, b: Bytes, id: Id) returns (s': State)
    requires t !in s.tasks && p.signed(b) && Holds(p, s.mem, b, id)
    ensures Leads(p, s, s') && s' == s.(tasks := s.tasks[t := Registered(b, Ok(id))])
  {
    LeadsHere(p, s);
    LeadsStep(p, s, s, Call(t, b, false));
    s' := Apply(p, s, Call(t, b, false));
    LeadsStep(p, s, s', Advance(t, "", false));
    s' := Apply(p, s', Advance(t, "", false));
  }

  /** Without any failure: the fast path answers from memory before the index is written, and a crash
      then leaves nothing of the registration. */
  lemma FastPathAnswersEarly(p: Platform, x: Bytes) returns (s: State)
    requires p.signed(x) && p.compile(x).Ok?
    ensures Leads(p, INITIAL, s) && s.tasks.Keys == {0, 1} && s.tasks[1] == Registered(x, Ok("A"))
    ensures Persisting(s.tasks[0]) && s.disk.index.None?
    ensures Apply(p, s, Crash(EMPTY)).mem == EMPTY
  {
    var first := UpToLock(p, INITIAL, 0, x, "A");
    s := FastPathAnswer(p, first, 1, x, "A");
    LeadsOn(p, INITIAL, first, s);
  }

  /** With one failure: the first registration cannot write the index and reports an error, but stays
      in memory, so that a second one of the same code succeeds without ever writing it. */
  lemma FailedWriteStaysInMemory(p: Platform, x: Bytes) returns (s: State)
    requires p.signed(x) && p.compile(x).Ok?
    ensures Leads(p, INITIAL, s) && s.tasks == map[0 := Registered(x, Err)][1 := Registered(x, Ok("A"))]
    ensures Settled(s) && s.disk.index.None?
    ensures Apply(p, s, Crash(EMPTY)).mem == EMPTY
  {
    var first := UpToLock(p, INITIAL, 0, x, "A");
    LeadsStep(p, INITIAL, first, Advance(0, "", true));
    var failed := Apply(p, first, Advance(0, "", true));
    assert first.tasks[0] == Registering(x, false, WriteTmp("A", Snapshot(first.mem)));
    assert failed == first.(tasks := first.tasks[0 := Registered(x, Err)]);
    s := FastPathAnswer(p, failed, 1, x, "A");
    LeadsOn(p, INITIAL, failed, s);
  }
}
