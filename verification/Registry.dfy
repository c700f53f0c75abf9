/** The registry of Wasm verifier components: its in-memory maps, its files, and every interleaving
    of requests on them. One step is one region between awaits or one lock region; writing a file and
    renaming it are atomic. */
module Registry {
  import opened Common

  type Id = string
  type Hash = string
  datatype Component = Component(image: Bytes)

  /** Code outside this model: SHA-256 in hex, the Wasm compiler, the signature check. */
  datatype Platform = Platform(
    sha256: Bytes -> Hash,
    compile: Bytes -> Result<Component>,
    signed: Bytes -> bool)

  datatype RegistryEntry = RegistryEntry(componentId: Id, sha256: Hash, filename: string)

  datatype Index = Index(byId: map<Id, RegistryEntry>, byHash: map<Hash, Id>)

  datatype Memory = Memory(byId: map<Id, RegistryEntry>, byHash: map<Hash, Id>, compiled: map<Id, Component>)

  /** The registry directory: component files by name, `index.json.tmp` and `index.json`. */
  datatype Disk = Disk(files: map<string, Bytes>, tmp: Option<Index>, index: Option<Index>)

  const EMPTY := Memory(map[], map[], map[])

  function FileOf(id: Id): string {
    id + ".wasm"
  }

  lemma FilesDiffer(a: Id, b: Id)
    ensures FileOf(a) == FileOf(b) ==> a == b
  {
    if FileOf(a) == FileOf(b) {
      assert FileOf(a)[..|FileOf(a)| - 5] == a && FileOf(b)[..|FileOf(b)| - 5] == b;
    }
  }

  // ---- The lock regions ----

  /** The entry that a registration adds. */
  function NewEntry(p: Platform, b: Bytes, id: Id): RegistryEntry {
    RegistryEntry(id, p.sha256(b), FileOf(id))
  }

  /** The maps after a registration that found its hash still free under the write lock. */
  function Commit(p: Platform, m: Memory, b: Bytes, id: Id, c: Component): Memory {
    Memory(m.byId[id := NewEntry(p, b, id)], m.byHash[p.sha256(b) := id], m.compiled[id := c])
  }

  function Snapshot(m: Memory): Index {
    Index(m.byId, m.byHash)
  }

  /** What loading the index from `d` at start may give; where two entries carry one hash, either
      may end up in `byHash`. */
  ghost predicate Loads(d: Disk, m: Memory) {
    if d.index.None? then m == EMPTY
    else
      && m.compiled == map[]
      && m.byId == (map id | id in d.index.value.byId && d.index.value.byId[id].filename in d.files
                           :: d.index.value.byId[id])
      && (forall id :: id in m.byId ==> m.byId[id].sha256 in m.byHash)
      && (forall h :: h in m.byHash ==>
            exists id :: id in m.byId && m.byId[id].sha256 == h && m.byHash[h] == m.byId[id].componentId)
  }

  /** The directory as a start sees it that cannot get at the status of every file. */
  function Seen(d: Disk, names: set<string>): Disk {
    d.(files := map f | f in d.files && f in names :: d.files[f])
  }

  /** What a start loads when reads fail: nothing if the index cannot be read, otherwise the entries
      whose file it could see. */
  ghost predicate LoadsSome(d: Disk, names: set<string>, m: Memory) {
    m == EMPTY || Loads(Seen(d, names), m)
  }

  // ---- Requests ----

  /** Where a registration stands: what it does next. */
  datatype Phase =
    | FastPath
    | WriteFile(id: Id, c: Component)
    | TakeLock(id: Id, c: Component)
    | Discard(id: Id, existing: Id)
    | WriteTmp(id: Id, snapshot: Index)
    | Rename(id: Id, snapshot: Index)

  /** Where the lookup of a compiled component stands. */
  datatype Lookup = CheckCompiled | FindEntry | ReadFile(entry: RegistryEntry) | Store(c: Component)

  /** A request in flight, or one that has returned. `inline` is the code a resolve was given, if it
      was given code rather than an id. */
  datatype Task =
    | Registering(b: Bytes, resolve: bool, phase: Phase)
    | Fetching(id: Id, inline: Option<Bytes>, at: Lookup)
    | Registered(b: Bytes, result: Result<Id>)
    | Resolved(id: Id, inline: Option<Bytes>, component: Result<Component>)

  /** `used` are the ids ever drawn, `lost` those of writers that found their hash taken. */
  datatype State = State(mem: Memory, disk: Disk, tasks: map<nat, Task>, used: set<Id>, lost: set<Id>)

  const INITIAL := State(EMPTY, Disk(map[], None, None), map[], {}, {})

  datatype Action =
    | Call(t: nat, b: Bytes, resolve: bool)
    | CallById(t: nat, id: Id)
    | Advance(t: nat, uuid: Id, ioFails: bool)
    | Drop(t: nat)
    | Crash(reloaded: Memory)
    | BadStart(reloaded: Memory, names: set<string>)

  function Finish(b: Bytes, resolve: bool, r: Result<Id>): Task {
    if resolve && r.Ok? then Fetching(r.value, Some(b), CheckCompiled) else Registered(b, r)
  }

  function AdvanceRegistering(p: Platform, s: State, t: nat, task: Task, uuid: Id, ioFails: bool): State
    requires task.Registering?
  {
    var b, h := task.b, p.sha256(task.b);
    match task.phase
    case FastPath =>
      if !p.signed(b) then s.(tasks := s.tasks[t := Registered(b, Err)])
      else if h in s.mem.byHash then s.(tasks := s.tasks[t := Finish(b, task.resolve, Ok(s.mem.byHash[h]))])
      else if p.compile(b).Err? then s.(tasks := s.tasks[t := Registered(b, Err)])
      else if uuid in s.used then s
      else s.(tasks := s.tasks[t := task.(phase := WriteFile(uuid, p.compile(b).value))], used := s.used + {uuid})
    case WriteFile(id, c) =>
      if ioFails then s.(tasks := s.tasks[t := Registered(b, Err)])
      else s.(disk := s.disk.(files := s.disk.files[FileOf(id) := b]),
              tasks := s.tasks[t := task.(phase := TakeLock(id, c))])
    case TakeLock(id, c) =>
      if h in s.mem.byHash then
        s.(tasks := s.tasks[t := task.(phase := Discard(id, s.mem.byHash[h]))], lost := s.lost + {id})
      else
        var mem := Commit(p, s.mem, b, id, c);
        s.(mem := mem, tasks := s.tasks[t := task.(phase := WriteTmp(id, Snapshot(mem)))])
    case Discard(id, existing) =>
      s.(disk := if ioFails then s.disk else s.disk.(files := s.disk.files - {FileOf(id)}),
         tasks := s.tasks[t := Finish(b, task.resolve, Ok(existing))])
    case WriteTmp(id, snapshot) =>
      if ioFails then s.(tasks := s.tasks[t := Registered(b, Err)])
      else s.(disk := s.disk.(tmp := Some(snapshot)), tasks := s.tasks[t := task.(phase := Rename(id, snapshot))])
    case Rename(id, snapshot) =>
      if ioFails || s.disk.tmp.None? then s.(tasks := s.tasks[t := Registered(b, Err)])
      else s.(disk := s.disk.(tmp := None, index := s.disk.tmp),
              tasks := s.tasks[t := Finish(b, task.resolve, Ok(id))])
  }

  function AdvanceFetching(p: Platform, s: State, t: nat, task: Task, ioFails: bool): State
    requires task.Fetching?
  {
    var id := task.id;
    match task.at
    case CheckCompiled =>
      if id in s.mem.compiled then s.(tasks := s.tasks[t := Resolved(id, task.inline, Ok(s.mem.compiled[id]))])
      else s.(tasks := s.tasks[t := task.(at := FindEntry)])
    case FindEntry =>
      if id in s.mem.byId then s.(tasks := s.tasks[t := task.(at := ReadFile(s.mem.byId[id]))])
      else s.(tasks := s.tasks[t := Resolved(id, task.inline, Err)])
    case ReadFile(entry) =>
      if ioFails || entry.filename !in s.disk.files || p.compile(s.disk.files[entry.filename]).Err?
      then s.(tasks := s.tasks[t := Resolved(id, task.inline, Err)])
      else s.(tasks := s.tasks[t := task.(at := Store(p.compile(s.disk.files[entry.filename]).value))])
    case Store(c) =>
      s.(mem := s.mem.(compiled := s.mem.compiled[id := c]),
         tasks := s.tasks[t := Resolved(id, task.inline, Ok(c))])
  }

  /** One step. An action that cannot happen in `s` changes nothing: a drawn UUID is never one drawn
      before, and a restart loads what is on disk, or some of it if reads fail. */
  ghost function Apply(p: Platform, s: State, a: Action): State {
    match a
    case Call(t, b, resolve) =>
      if t in s.tasks then s else s.(tasks := s.tasks[t := Registering(b, resolve, FastPath)])
    case CallById(t, id) =>
      if t in s.tasks then s else s.(tasks := s.tasks[t := Fetching(id, None, CheckCompiled)])
    case Advance(t, uuid, ioFails) =>
      if t !in s.tasks then s
      else if s.tasks[t].Registering? then AdvanceRegistering(p, s, t, s.tasks[t], uuid, ioFails)
      else if s.tasks[t].Fetching? then AdvanceFetching(p, s, t, s.tasks[t], ioFails)
      else s
    case Drop(t) => s.(tasks := s.tasks - {t})
    case Crash(reloaded) =>
      if Loads(s.disk, reloaded) then s.(mem := reloaded, tasks := map[]) else s
    case BadStart(reloaded, names) =>
      if LoadsSome(s.disk, names, reloaded) then s.(mem := reloaded, tasks := map[]) else s
  }

  ghost function Run(p: Platform, s: State, actions: seq<Action>): State {
    if actions == [] then s else Apply(p, Run(p, s, actions[..|actions| - 1]), actions[|actions| - 1])
  }

  /** The states that some sequence of steps reaches from an empty registry directory. */
  ghost predicate Reachable(p: Platform, s: State) {
    exists actions :: s == Run(p, INITIAL, actions)
  }

  /** Every start can read the index and the status of every file. */
  predicate StartsRead(actions: seq<Action>) {
    forall i :: 0 <= i < |actions| ==> !actions[i].BadStart?
  }

  ghost predicate ReachableReading(p: Platform, s: State) {
    exists actions :: StartsRead(actions) && s == Run(p, INITIAL, actions)
  }

  // ---- The invariant ----

  /** Code the service lets in. */
  predicate Admitted(p: Platform, b: Bytes) {
    p.signed(b) && p.compile(b).Ok?
  }

  /** `byId` and `byHash` are inverse to each other, and an id's file holds admitted code
      with its hash. */
  ghost predicate Consistent(p: Platform, m: Memory, files: map<string, Bytes>) {
    && (forall id :: id in m.byId ==>
          && m.byId[id].componentId == id && m.byId[id].filename == FileOf(id)
          && m.byId[id].sha256 in m.byHash && m.byHash[m.byId[id].sha256] == id)
    && (forall h :: h in m.byHash ==> m.byHash[h] in m.byId && m.byId[m.byHash[h]].sha256 == h)
    && (forall id :: id in m.byId ==>
          && FileOf(id) in files && p.sha256(files[FileOf(id)]) == m.byId[id].sha256
          && Admitted(p, files[FileOf(id)]))
  }

  /** Cached components are compilations of the files of registered ids. */
  ghost predicate CacheAgrees(p: Platform, m: Memory, files: map<string, Bytes>) {
    forall id :: id in m.compiled ==>
      id in m.byId && FileOf(id) in files && p.compile(files[FileOf(id)]) == Ok(m.compiled[id])
  }

  /** Every entry of `i` is one of `m`; the hash map of an index file is never read back. */
  ghost predicate SubIndex(i: Index, m: Memory) {
    forall id :: id in i.byId ==> id in m.byId && m.byId[id] == i.byId[id]
  }

  ghost predicate SubRegistry(a: Memory, b: Memory) {
    && (forall id :: id in a.byId ==> id in b.byId && b.byId[id] == a.byId[id])
    && (forall h :: h in a.byHash ==> h in b.byHash && b.byHash[h] == a.byHash[h])
  }

  ghost predicate Holds(p: Platform, m: Memory, b: Bytes, id: Id) {
    p.sha256(b) in m.byHash && m.byHash[p.sha256(b)] == id
  }

  /** The id of a file that a registration has drawn but not registered. */
  function Pending(task: Task): Option<Id> {
    match task
    case Registering(_, _, WriteFile(id, _)) => Some(id)
    case Registering(_, _, TakeLock(id, _)) => Some(id)
    case Registering(_, _, Discard(id, _)) => Some(id)
    case _ => None
  }

  ghost predicate TaskOk(p: Platform, m: Memory, files: map<string, Bytes>, lost: set<Id>, task: Task) {
    match task
    case Registering(b, _, FastPath) => true
    case Registering(b, _, WriteFile(id, c)) => p.signed(b) && p.compile(b) == Ok(c) && id !in lost
    case Registering(b, _, TakeLock(id, c)) =>
      p.signed(b) && p.compile(b) == Ok(c) && id !in lost && FileOf(id) in files && files[FileOf(id)] == b
    case Registering(b, _, Discard(id, existing)) => id in lost && Holds(p, m, b, existing)
    case Registering(b, _, WriteTmp(id, _)) => Holds(p, m, b, id)
    case Registering(b, _, Rename(id, _)) => Holds(p, m, b, id)
    case Registered(b, r) => r.Ok? ==> Holds(p, m, b, r.value)
    case Fetching(id, inline, at) =>
      && (inline.Some? ==> Holds(p, m, inline.value, id))
      && (at.ReadFile? ==> id in m.byId && m.byId[id] == at.entry)
      && (at.Store? ==> id in m.byId && FileOf(id) in files && p.compile(files[FileOf(id)]) == Ok(at.c))
    case Resolved(id, inline, r) =>
      && (inline.Some? ==> Holds(p, m, inline.value, id))
      && (r.Ok? ==> id in m.byId && FileOf(id) in files && p.compile(files[FileOf(id)]) == r)
  }

  ghost predicate TasksOk(p: Platform, s: State) {
    && (forall t :: t in s.tasks ==> TaskOk(p, s.mem, s.disk.files, s.lost, s.tasks[t]))
    && (forall t :: t in s.tasks && Pending(s.tasks[t]).Some? ==>
          Pending(s.tasks[t]).value in s.used && Pending(s.tasks[t]).value !in s.mem.byId)
    && (forall t, t' :: t in s.tasks && t' in s.tasks && t != t' && Pending(s.tasks[t]).Some? ==>
          Pending(s.tasks[t]) != Pending(s.tasks[t']))
  }

  predicate Renaming(task: Task) {
    task.Registering? && task.phase.Rename?
  }

  /** The index that a request has still to write or has written. */
  function SnapshotOf(task: Task): Option<Index> {
    match task
    case Registering(_, _, WriteTmp(_, snapshot)) => Some(snapshot)
    case Registering(_, _, Rename(_, snapshot)) => Some(snapshot)
    case _ => None
  }

  /** An id whose file nobody will touch again. */
  ghost predicate Fixed(s: State, id: Id) {
    id in s.used && id !in s.lost && forall t :: t in s.tasks ==> Pending(s.tasks[t]) != Some(id)
  }

  /** Entries that are good by themselves: one id for each hash, and the file of each id holds admitted
      code with its hash. */
  ghost predicate GoodEntries(p: Platform, entries: map<Id, RegistryEntry>, files: map<string, Bytes>) {
    && (forall id :: id in entries ==>
          && entries[id].componentId == id && entries[id].filename == FileOf(id)
          && FileOf(id) in files && p.sha256(files[FileOf(id)]) == entries[id].sha256
          && Admitted(p, files[FileOf(id)]))
    && (forall id, id' :: id in entries && id' in entries && entries[id].sha256 == entries[id'].sha256 ==> id == id')
  }

  ghost predicate IndexOk(p: Platform, s: State, entries: map<Id, RegistryEntry>) {
    GoodEntries(p, entries, s.disk.files) && forall id :: id in entries ==> Fixed(s, id)
  }

  /** The registry in memory, the index files and every index under way are each good by themselves;
      they need not be part of each other. */
  ghost predicate IndexesOk(p: Platform, s: State) {
    && IndexOk(p, s, s.mem.byId)
    && (s.disk.index.Some? ==> IndexOk(p, s, s.disk.index.value.byId))
    && (s.disk.tmp.Some? ==> IndexOk(p, s, s.disk.tmp.value.byId))
    && (forall t :: t in s.tasks && SnapshotOf(s.tasks[t]).Some? ==>
          IndexOk(p, s, SnapshotOf(s.tasks[t]).value.byId))
  }

  ghost predicate Inv(p: Platform, s: State) {
    && Consistent(p, s.mem, s.disk.files)
    && CacheAgrees(p, s.mem, s.disk.files)
    && TasksOk(p, s)
    && IndexesOk(p, s)
    && s.lost <= s.used
  }
}
