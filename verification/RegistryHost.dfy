/** The component host as one caller sees it: its maps and its directory, updated in place. */
module RegistryHost {
  import opened Common
  import opened Registry
  import opened RegistryProofs

  /** Which file operations of a call fail. */
  datatype Io = Io(writeFails: bool, tmpFails: bool, renameFails: bool, readFails: bool)

  /** Reads the index. One that is missing or cannot be read counts as empty, and entries whose file
      is not among those seen are dropped; a text that does not parse ends the start. */
  method LoadRegistryIndex(files: map<string, Bytes>, text: Option<Bytes>, parse: Bytes -> Result<Index>,
                           readFails: bool, names: set<string>)
    returns (r: Result<Memory>)
    ensures r.Err? <==> text.Some? && !readFails && parse(text.value).Err?
    ensures r.Ok? && (text.None? || readFails) ==> r.value == EMPTY
    ensures r.Ok? && text.Some? && !readFails ==>
      Loads(Seen(Disk(files, None, Some(parse(text.value).value)), names), r.value)
  {
    if text.None? || readFails { return Ok(EMPTY); }
    var idx :- parse(text.value);
    var m := LoadEntries(Seen(Disk(files, None, Some(idx)), names));
    return Ok(m);
  }

  /** Keeps the entries whose file exists. The entries come in any order. */
  method LoadEntries(d: Disk) returns (m: Memory)
    requires d.index.Some?
    ensures Loads(d, m)
  {
    var idx := d.index.value.byId;
    var byId: map<Id, RegistryEntry>, byHash: map<Hash, Id>, rest := map[], map[], idx.Keys;
    while rest != {}
      invariant rest <= idx.Keys
      invariant byId == (map id | id in idx && id !in rest && idx[id].filename in d.files :: idx[id])
      invariant forall id :: id in byId ==> byId[id].sha256 in byHash
      invariant forall h :: h in byHash ==>
        exists id :: id in byId && byId[id].sha256 == h && byHash[h] == byId[id].componentId
      decreases rest
    {
      var id :| id in rest;
      var entry := idx[id];
      rest := rest - {id};
      if entry.filename in d.files {
        ghost var before, idsBefore := byHash, byId;
        byHash := byHash[entry.sha256 := entry.componentId];
        byId := byId[id := entry];
        forall h | h in byHash
          ensures exists x :: x in byId && byId[x].sha256 == h && byHash[h] == byId[x].componentId
        {
          if h == entry.sha256 {
            assert byId[id] == entry && byHash[h] == entry.componentId;
          } else {
            var x :| x in idsBefore && idsBefore[x].sha256 == h && before[h] == idsBefore[x].componentId;
            assert x != id && byId[x] == idsBefore[x] && byHash[h] == before[h];
          }
        }
      }
    }
    return Memory(byId, byHash, map[]);
  }

  ghost predicate Good(p: Platform, m: Memory, files: map<string, Bytes>, index: Option<Index>) {
    Consistent(p, m, files) && CacheAgrees(p, m, files) && (index.Some? ==> GoodEntries(p, index.value.byId, files))
  }

  /** A component whose file has been written can be committed. */
  lemma CommitIsGood(p: Platform, m: Memory, files: map<string, Bytes>, index: Option<Index>,
                     b: Bytes, id: Id, c: Component)
    requires Good(p, m, files, index)
    requires id !in m.byId && p.sha256(b) !in m.byHash && p.signed(b) && p.compile(b) == Ok(c)
    requires index.Some? ==> id !in index.value.byId
    ensures Good(p, Commit(p, m, b, id, c), files[FileOf(id) := b], index)
  {
    var files' := files[FileOf(id) := b];
    FileChangeKeepsMemory(p, m, files, files', id);
    CommitKeepsConsistent(p, m, files', b, id, c);
    CommitKeepsCache(p, m, files', b, id, c);
    OtherFilesSame(files, files', id);
  }

  class WasmVerifierHost {
    const p: Platform
    var byId: map<Id, RegistryEntry>
    var byHash: map<Hash, Id>
    var compiled: map<Id, Component>
    var files: map<string, Bytes>
    var tmp: Option<Index>
    var index: Option<Index>

    ghost function Mem(): Memory
      reads this
    {
      Memory(byId, byHash, compiled)
    }

    ghost function OnDisk(): Disk
      reads this
    {
      Disk(files, tmp, index)
    }

    ghost predicate Valid()
      reads this
    {
      Good(p, Mem(), files, index)
    }

    /** Starts from a directory and what was loaded from it, whether reads failed or not. */
    constructor (p: Platform, d: Disk, names: set<string>, m: Memory)
      requires LoadsSome(d, names, m) && (d.index.Some? ==> GoodEntries(p, d.index.value.byId, d.files))
      ensures this.p == p && OnDisk() == d && Mem() == m && Valid()
    {
      this.p := p;
      byId, byHash, compiled := m.byId, m.byHash, m.compiled;
      files, tmp, index := d.files, d.tmp, d.index;
      EntriesLoadGood(p, d, names, m);
    }

    /** Writes the index beside the real one, then renames it. */
    method PersistRegistryIndex(i: Index, io: Io) returns (r: Result<()>)
      modifies this`tmp, this`index
      ensures r.Ok? <==> !io.tmpFails && !io.renameFails
      ensures tmp == if io.tmpFails then old(tmp) else if io.renameFails then Some(i) else None
      ensures index == if r.Ok? then Some(i) else old(index)
    {
      if io.tmpFails { return Err; }
      tmp := Some(i);
      if io.renameFails { return Err; }
      tmp, index := None, tmp;
      return Ok(());
    }

    /** Registers `b` under `uuid`, or finds the id it already has. When the index cannot be written
        the call fails, but the registration stays in memory. */
    method RegisterComponent(b: Bytes, uuid: Id, io: Io) returns (r: Result<Id>)
      requires Valid() && uuid !in byId && (index.Some? ==> uuid !in index.value.byId)
      modifies this
      ensures Valid()
      ensures r.Ok? <==> p.signed(b) && (p.sha256(b) in old(byHash)
                                         || (p.compile(b).Ok? && !io.writeFails && !io.tmpFails && !io.renameFails))
      ensures r.Ok? ==> Holds(p, Mem(), b, r.value)
      ensures var committed := p.signed(b) && p.sha256(b) !in old(byHash) && p.compile(b).Ok? && !io.writeFails;
        && (!committed ==> Mem() == old(Mem()) && OnDisk() == old(OnDisk()))
        && (committed ==>
              && (r.Ok? ==> r.value == uuid)
              && Mem() == Commit(p, old(Mem()), b, uuid, p.compile(b).value)
              && files == old(files)[FileOf(uuid) := b]
              && index == (if r.Ok? then Some(Snapshot(Mem())) else old(index))
              && tmp == if io.tmpFails then old(tmp) else if io.renameFails then Some(Snapshot(Mem())) else None)
    {
      if !p.signed(b) { return Err; }
      var h := p.sha256(b);
      if h in byHash { return Ok(byHash[h]); }
      var c :- p.compile(b);
      if io.writeFails { return Err; }
      CommitComponent(b, uuid, c);
      ConsistentIsGood(p, Mem(), files);
      var _ :- PersistRegistryIndex(Index(byId, byHash), io);
      return Ok(uuid);
    }

    /** The file of new code and its entries in the maps. */
    method CommitComponent(b: Bytes, uuid: Id, c: Component)
      requires Valid() && uuid !in byId && p.sha256(b) !in byHash && p.signed(b) && p.compile(b) == Ok(c)
      requires index.Some? ==> uuid !in index.value.byId
      modifies this`files, this`byId, this`byHash, this`compiled
      ensures Valid() && Mem() == Commit(p, old(Mem()), b, uuid, c)
      ensures files == old(files)[FileOf(uuid) := b]
    {
      var filename := FileOf(uuid);
      CommitIsGood(p, Mem(), files, index, b, uuid, c);
      ghost var good := Commit(p, Mem(), b, uuid, c);
      files := files[filename := b];
      byId := byId[uuid := RegistryEntry(uuid, p.sha256(b), filename)];
      byHash := byHash[p.sha256(b) := uuid];
      compiled := compiled[uuid := c];
      assert Mem() == good;
    }

    /** The code of a registered id is the file with its hash. */
    method GetComponentBytes(id: Id, io: Io) returns (r: Result<Bytes>)
      requires Valid()
      ensures r.Ok? <==> id in byId && !io.readFails
      ensures r.Ok? ==> p.sha256(r.value) == byId[id].sha256 && FileOf(id) in files && r.value == files[FileOf(id)]
    {
      if id !in byId || io.readFails { return Err; }
      return Ok(files[byId[id].filename]);
    }

    /** What is cached needs no file. */
    method GetCompiledComponent(id: Id, io: Io) returns (r: Result<Component>)
      requires Valid()
      modifies this`compiled
      ensures Valid()
      ensures r == if id in byId && (id in old(compiled) || !io.readFails) then p.compile(files[FileOf(id)]) else Err
      ensures compiled == if r.Ok? then old(compiled)[id := r.value] else old(compiled)
    {
      if id in compiled {
        assert compiled == compiled[id := compiled[id]];
        return Ok(compiled[id]);
      }
      var bytes :- GetComponentBytes(id, io);
      var c :- p.compile(bytes);
      compiled := compiled[id := c];
      return Ok(c);
    }

    /** Inline code wins over an id. Distinct stored code with the hash of the inline code would be
        resolved in its place. */
    method ResolveComponent(id: Option<Id>, inline: Option<Bytes>, uuid: Id, io: Io)
      returns (r: Result<(Component, Id)>)
      requires Valid() && uuid !in byId && (index.Some? ==> uuid !in index.value.byId)
      modifies this
      ensures Valid()
      ensures inline.Some? && !p.signed(inline.value) ==> r.Err?
      ensures inline.Some? && p.signed(inline.value) && p.sha256(inline.value) in old(byHash) ==>
        (r.Ok? <==> old(byHash)[p.sha256(inline.value)] in old(compiled) || !io.readFails)
      ensures inline.Some? && p.signed(inline.value) && p.sha256(inline.value) !in old(byHash) ==>
        (r.Ok? <==> p.compile(inline.value).Ok? && !io.writeFails && !io.tmpFails && !io.renameFails)
      ensures inline.None? ==>
        (r.Ok? <==> id.Some? && id.value in byId && (id.value in old(compiled) || !io.readFails))
      ensures r.Ok? ==> r.value.1 in byId && p.compile(files[FileOf(r.value.1)]) == Ok(r.value.0)
      ensures r.Ok? && inline.Some? ==> p.sha256(files[FileOf(r.value.1)]) == p.sha256(inline.value)
      ensures r.Ok? && inline.None? ==> id == Some(r.value.1) && byId == old(byId) && files == old(files)
      ensures inline.None? && id.None? ==> r.Err?
    {
      if inline.Some? {
        var found :- RegisterComponent(inline.value, uuid, io);
        var c :- GetCompiledComponent(found, io);
        return Ok((c, found));
      }
      if id.None? { return Err; }
      var c :- GetCompiledComponent(id.value, io);
      return Ok((c, id.value));
    }
  }
}
