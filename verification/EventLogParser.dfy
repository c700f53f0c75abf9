/** The parser as it runs: a cursor that advances over the raw log, filling a list and a table. */
module EventLogParser {
  import opened Common
  import opened TcgEnum
  import opened EventLog
  import Base64

  /** A cursor position seen as the bytes that remain after it. */
  function Remaining<T>(data: Bytes, r: Result<(T, nat)>): Result<(T, Bytes)>
    requires r.Ok? ==> r.value.1 <= |data|
  {
    match r case Err => Err case Ok((x, index)) => Ok((x, data[index..]))
  }

  method ReadBytes(data: Bytes, index: nat, n: nat) returns (r: Result<(Bytes, nat)>)
    requires index <= |data|
    ensures r.Ok? ==> r.value.1 == index + n <= |data|
    ensures Remaining(data, r) == TakeBytes(n, data[index..])
  {
    if |data| - index < n { return Err; }
    Slice(data, index, n);
    return Ok((data[index..index + n], index + n));
  }

  method ReadLE(data: Bytes, index: nat, n: nat) returns (r: Result<(nat, nat)>)
    requires index <= |data|
    ensures r.Ok? ==> r.value.1 == index + n <= |data|
    ensures Remaining(data, r) == TakeLE(n, data[index..])
  {
    var bytes :- ReadBytes(data, index, n);
    return Ok((FromLE(bytes.0), bytes.1));
  }

  // ---- The header ----

  method ParseSize(data: Bytes, start: nat) returns (r: Result<(AlgSize, nat)>)
    requires start <= |data|
    ensures r.Ok? ==> r.value.1 <= |data|
    ensures Remaining(data, r) == TakeSize(data[start..])
  {
    var id :- ReadLE(data, start, 2);
    var size :- ReadLE(data, id.1, 2);
    var alg :- AlgorithmOf(id.0);
    return Ok((AlgSize(alg, size.0), size.1));
  }

  lemma PrependSizesTwice(a: seq<AlgSize>, b: seq<AlgSize>, r: Result<(seq<AlgSize>, Bytes)>)
    ensures PrependSizes(a, PrependSizes(b, r)) == PrependSizes(a + b, r)
    ensures PrependSizes([], r) == r
  {
    if r.Ok? {
      Assoc(a, b, r.value.0);
      assert [] + r.value.0 == r.value.0;
    }
  }

  method ParseSizeRun(data: Bytes, start: nat, n: nat) returns (r: Result<(SizeTable, nat)>)
    requires start <= |data|
    ensures r.Ok? ==> r.value.1 <= |data|
    ensures r.Ok? <==> TakeSizes(data[start..], n).Ok?
    ensures r.Ok? ==> r.value.0 == SizesOf(TakeSizes(data[start..], n).value.0)
    ensures r.Ok? ==> data[r.value.1..] == TakeSizes(data[start..], n).value.1
  {
    var index: nat, table: SizeTable := start, map[];
    ghost var read: seq<AlgSize>, whole := [], TakeSizes(data[start..], n);
    PrependSizesTwice([], [], whole);
    for i := 0 to n
      invariant index <= |data|
      invariant table == SizesOf(read)
      invariant whole == PrependSizes(read, TakeSizes(data[index..], n - i))
    {
      var one :- ParseSize(data, index);
      PrependSizesTwice(read, [one.0], TakeSizes(data[one.1..], n - i - 1));
      Split(read, [one.0]);
      read := read + [one.0];
      table, index := table[one.0.alg := one.0.size], one.1;
    }
    assert read + [] == read;
    return Ok((table, index));
  }

  /** Fills the table of digest sizes and returns how many bytes of `data` it accounts for. */
  method ParseDigestSizes(data: Bytes) returns (r: Result<(nat, SizeTable)>)
    ensures r.Ok? && r.value.0 == |data| <==> TakeSpecId(data).Ok?
    ensures r.Ok? && r.value.0 == |data| ==> r.value.1 == SizesOf(TakeSpecId(data).value.1)
  {
    if |data| < 24 { return Err; }
    var count :- ReadLE(data, 24, 4);
    var sizes :- ParseSizeRun(data, count.1, count.0);
    var vendor :- ReadLE(data, sizes.1, 1);
    return Ok((sizes.1 + vendor.0 + 1, sizes.0));
  }

  method ParseInitialEntry(data: Bytes) returns (r: Result<(SizeTable, nat)>)
    ensures r.Ok? ==> r.value.1 <= |data|
    ensures r.Ok? <==> TakeHeader(data).Ok?
    ensures r.Ok? ==> r.value.0 == TableOf(TakeHeader(data).value.0)
    ensures r.Ok? ==> data[r.value.1..] == TakeHeader(data).value.1
  {
    assert data[0..] == data;
    var pcr :- ReadLE(data, 0, 4);
    var code :- ReadLE(data, pcr.1, 4);
    var t :- EventTypeOf(code.0);
    var gap :- ReadBytes(data, code.1, 20);
    var size :- ReadLE(data, gap.1, 4);
    if t == EvNoAction {
      var body :- ReadBytes(data, size.1, size.0);
      var sizes :- ParseDigestSizes(body.0);
      if sizes.0 != size.0 { return Err; }
      return Ok((sizes.1, body.1));
    }
    return Ok((map[], size.1));
  }

  // ---- Entries ----

  method ParseDigest(data: Bytes, start: nat, table: SizeTable) returns (r: Result<(ElDigest, nat)>)
    requires start <= |data|
    ensures r.Ok? ==> r.value.1 <= |data|
    ensures Remaining(data, r) == TakeDigest(table, data[start..])
  {
    var id :- ReadLE(data, start, 2);
    var alg :- AlgorithmOf(id.0);
    if alg !in table { return Err; }
    var digest :- ReadBytes(data, id.1, table[alg]);
    return Ok((ElDigest(alg, digest.0), digest.1));
  }

  lemma PrependDigestsTwice(a: seq<ElDigest>, b: seq<ElDigest>, r: Result<(seq<ElDigest>, Bytes)>)
    ensures PrependDigests(a, PrependDigests(b, r)) == PrependDigests(a + b, r)
    ensures PrependDigests([], r) == r
  {
    if r.Ok? {
      Assoc(a, b, r.value.0);
      assert [] + r.value.0 == r.value.0;
    }
  }

  method ParseDigestRun(data: Bytes, start: nat, table: SizeTable, n: nat) returns (r: Result<(seq<ElDigest>, nat)>)
    requires start <= |data|
    ensures r.Ok? ==> r.value.1 <= |data|
    ensures Remaining(data, r) == TakeDigests(table, data[start..], n)
  {
    var index: nat, digests: seq<ElDigest> := start, [];
    ghost var whole := TakeDigests(table, data[start..], n);
    PrependDigestsTwice([], [], whole);
    for i := 0 to n
      invariant index <= |data|
      invariant whole == PrependDigests(digests, TakeDigests(table, data[index..], n - i))
    {
      var one :- ParseDigest(data, index, table);
      PrependDigestsTwice(digests, [one.0], TakeDigests(table, data[one.1..], n - i - 1));
      digests, index := digests + [one.0], one.1;
    }
    assert digests + [] == digests;
    return Ok((digests, index));
  }

  method ParseDigests(data: Bytes, start: nat, table: SizeTable) returns (r: Result<(seq<ElDigest>, nat)>)
    requires start <= |data|
    ensures r.Ok? ==> r.value.1 <= |data|
    ensures Remaining(data, r) == TakeDigestList(table, data[start..])
  {
    var count :- ReadLE(data, start, 4);
    r := ParseDigestRun(data, count.1, table, count.0);
  }

  /** Compares the digests with the event data, stopping at the first that differs. */
  method CompareDigestList(p: Platform, payload: Bytes, digests: seq<ElDigest>) returns (r: Result<bool>)
    ensures r == CompareDigests(p, payload, digests)
  {
    assert digests[0..] == digests;
    for i := 0 to |digests|
      invariant CompareDigests(p, payload, digests) == CompareDigests(p, payload, digests[i..])
    {
      Slice(digests, i, 1);
      if !Computable(digests[i].alg) { return Err; }
      if p.hash(digests[i].alg, payload) != digests[i].digest { return Ok(false); }
    }
    return Ok(true);
  }

  method BuildEntry(p: Platform, registry: nat, t: TcgEventType, digests: seq<ElDigest>, payload: Bytes)
    returns (r: Result<Entry>)
    ensures r == MakeEntry(p, registry, t, digests, payload)
  {
    var same :- CompareDigestList(p, payload, digests);
    var details :- ParseDetails(p, t, payload);
    return Ok(Entry(registry, t, digests, Base64.Encode(payload), details, same));
  }

  method ReadPayload(data: Bytes, start: nat) returns (r: Result<(Bytes, nat)>)
    requires start <= |data|
    ensures r.Ok? ==> r.value.1 <= |data|
    ensures Remaining(data, r) == TakePayload(data[start..])
  {
    var size :- ReadLE(data, start, 4);
    if |data| < size.0 { return Err; }
    r := ReadBytes(data, size.1, size.0);
  }

  /** The entry at `start`, or `None` at a stop flag. */
  method ParseEventlogEntry(p: Platform, data: Bytes, start: nat, table: SizeTable)
    returns (r: Result<(Option<Entry>, nat)>)
    requires start < |data|
    ensures IsStop(data[start..]) ==> r == Ok((None, 0))
    ensures !IsStop(data[start..]) && r.Err? ==> TakeEntry(p, table, data[start..]).Err?
    ensures !IsStop(data[start..]) && r.Ok? ==> r.value.0.Some? && r.value.1 <= |data|
    ensures !IsStop(data[start..]) && r.Ok? ==>
      TakeEntry(p, table, data[start..]) == Ok((r.value.0.value, data[r.value.1..]))
  {
    var flag :- ReadLE(data, start, 8);
    if flag.0 == 0xFFFF_FFFF_FFFF_FFFF || flag.0 == 0 { return Ok((None, 0)); }
    var registry := ReadLE(data, start, 4);
    var code := ReadLE(data, start + 4, 4);
    var t :- EventTypeOf(code.value.0);
    var digests :- ParseDigests(data, start + 8, table);
    var payload :- ReadPayload(data, digests.1);
    var entry :- BuildEntry(p, registry.value.0, t, digests.0, payload.0);
    return Ok((Some(entry), payload.1));
  }

  lemma PrependEntriesTwice(a: seq<Entry>, b: seq<Entry>, r: Result<(seq<Entry>, Bytes)>)
    ensures PrependEntries(a, PrependEntries(b, r)) == PrependEntries(a + b, r)
    ensures PrependEntries([], r) == r
  {
    if r.Ok? {
      Assoc(a, b, r.value.0);
      assert [] + r.value.0 == r.value.0;
    }
  }

  /** The loop over entries: `index` moves forward by at least sixteen bytes each time. */
  method ParseEntries(p: Platform, data: Bytes, start: nat, table: SizeTable) returns (r: Result<seq<Entry>>)
    requires start <= |data|
    ensures r.Ok? <==> TakeEntries(p, table, data[start..]).Ok?
    ensures r.Ok? ==> r.value == TakeEntries(p, table, data[start..]).value.0
  {
    var index: nat, log: seq<Entry> := start, [];
    ghost var whole := TakeEntries(p, table, data[start..]);
    PrependEntriesTwice([], [], whole);
    while index < |data|
      invariant index <= |data|
      invariant whole == PrependEntries(log, TakeEntries(p, table, data[index..]))
      decreases |data| - index
    {
      var step :- ParseEventlogEntry(p, data, index, table);
      if step.0.None? { break; }
      EntryProgress(p, table, data[index..]);
      PrependEntriesTwice(log, [step.0.value], TakeEntries(p, table, data[step.1..]));
      log, index := log + [step.0.value], step.1;
    }
    assert log + [] == log;
    return Ok(log);
  }

  /** Parses a whole log. */
  method TryFrom(p: Platform, data: Bytes) returns (r: Result<seq<Entry>>)
    ensures r == ParseLog(p, data)
  {
    var header :- ParseInitialEntry(data);
    r := ParseEntries(p, data, header.1, header.0);
  }
}
