/** The measured-boot event log: its entries, its binary format and what a parse of it yields. */
module EventLog {
  import opened Common
  import opened TcgEnum
  import opened DevicePaths
  import Base64

  datatype ElDigest = ElDigest(alg: TcgAlgorithm, digest: Bytes)

  /** A log entry as the parser returns it; `event` is the event data in Base64. */
  datatype Entry = Entry(
    index: nat,
    eventType: TcgEventType,
    digests: seq<ElDigest>,
    event: string,
    details: EventDetails,
    digestMatchesEvent: bool)

  /** Code outside this model: the hash functions, the text parsers of event data, path rendering. */
  datatype Platform = Platform(
    hash: (TcgAlgorithm, Bytes) -> Bytes,
    textDetails: (TcgEventType, Bytes) -> Result<EventDetails>,
    showPath: PathPrinter)

  /** Digest length in bytes of each algorithm that the log declares. */
  type SizeTable = map<TcgAlgorithm, nat>

  /** True if every digest is the hash of `payload`. The first digest that differs ends the
      comparison, so an algorithm that cannot be computed is an error only before that. */
  function CompareDigests(p: Platform, payload: Bytes, digests: seq<ElDigest>): Result<bool> {
    if digests == [] then Ok(true)
    else if !Computable(digests[0].alg) then Err
    else if p.hash(digests[0].alg, payload) != digests[0].digest then Ok(false)
    else CompareDigests(p, payload, digests[1..])
  }

  predicate Matches(p: Platform, payload: Bytes, d: ElDigest) {
    Computable(d.alg) && p.hash(d.alg, payload) == d.digest
  }

  /** The comparison is decided by the first digest that does not match: it is a difference, or an
      error if its algorithm cannot be computed. With no such digest all match. */
  lemma {:induction false} CompareDigestsIs(p: Platform, payload: Bytes, digests: seq<ElDigest>) returns (i: nat)
    ensures i <= |digests| && forall j :: 0 <= j < i ==> Matches(p, payload, digests[j])
    ensures i < |digests| ==> !Matches(p, payload, digests[i])
    ensures CompareDigests(p, payload, digests)
         == if i == |digests| then Ok(true) else if Computable(digests[i].alg) then Ok(false) else Err
    ensures CompareDigests(p, payload, digests) == Ok(true) <==>
      forall j :: 0 <= j < |digests| ==> Matches(p, payload, digests[j])
  {
    if digests == [] || !Matches(p, payload, digests[0]) {
      i := 0;
    } else {
      i := CompareDigestsIs(p, payload, digests[1..]);
      i := i + 1;
      assert forall j :: 1 <= j < |digests| ==> digests[j] == digests[1..][j - 1];
    }
  }

  function ParseDetails(p: Platform, t: TcgEventType, payload: Bytes): Result<EventDetails> {
    if t.EvEfiBootServicesApplication? then ParseImageLoad(p.showPath, payload) else p.textDetails(t, payload)
  }

  // ---- The format: `Put` functions write a value in front of the bytes that follow it ----

  datatype AlgSize = AlgSize(alg: TcgAlgorithm, size: nat)

  /** The first record. An EV_NO_ACTION record holds the specification ID event (section 10.4.5.1 of
      the TCG PC Client Platform Firmware Profile 1.06) with the digest sizes; of any other record
      only the fixed part is consumed, and no algorithm is declared. */
  datatype Header =
    | SpecId(pcr: nat, gap: Bytes, version: Bytes, algs: seq<AlgSize>, vendor: Bytes)
    | Other(pcr: nat, gap: Bytes, eventType: TcgEventType, claimed: nat)

  function PutSizes(algs: seq<AlgSize>, rest: Bytes): Bytes {
    if algs == [] then rest
    else LE(2, AlgorithmId(algs[0].alg)) + (LE(2, algs[0].size) + PutSizes(algs[1..], rest))
  }

  function SpecIdBytes(version: Bytes, algs: seq<AlgSize>, vendor: Bytes): Bytes {
    version + (LE(4, |algs|) + PutSizes(algs, LE(1, |vendor|) + vendor))
  }

  predicate WellFormedSizes(algs: seq<AlgSize>) {
    forall i :: 0 <= i < |algs| ==> algs[i].size < 0x1_0000
  }

  predicate WellFormedHeader(h: Header) {
    && h.pcr < 0x1_0000_0000
    && |h.gap| == 20
    && match h
       case SpecId(_, _, version, algs, vendor) =>
         && |version| == 24 && |algs| < 0x1_0000_0000 && |vendor| < 256 && WellFormedSizes(algs)
         && |SpecIdBytes(version, algs, vendor)| < 0x1_0000_0000
       case Other(_, _, t, claimed) => !t.EvNoAction? && claimed < 0x1_0000_0000
  }

  function PutRecord(pcr: nat, t: TcgEventType, gap: Bytes, size: nat, rest: Bytes): Bytes {
    LE(4, pcr) + (LE(4, EventCode(t)) + (gap + (LE(4, size) + rest)))
  }

  function PutHeader(h: Header, rest: Bytes): Bytes {
    match h
    case SpecId(pcr, gap, version, algs, vendor) =>
      var body := SpecIdBytes(version, algs, vendor);
      PutRecord(pcr, EvNoAction, gap, |body|, body + rest)
    case Other(pcr, gap, t, claimed) => PutRecord(pcr, t, gap, claimed, rest)
  }

  /** Later declarations of an algorithm replace earlier ones. */
  function SizesOf(algs: seq<AlgSize>): SizeTable {
    if algs == [] then map[]
    else var last := algs[|algs| - 1]; SizesOf(algs[..|algs| - 1])[last.alg := last.size]
  }

  function TableOf(h: Header): SizeTable {
    if h.SpecId? then SizesOf(h.algs) else map[]
  }

  predicate WellFormedDigests(table: SizeTable, digests: seq<ElDigest>) {
    forall i :: 0 <= i < |digests| ==> digests[i].alg in table && |digests[i].digest| == table[digests[i].alg]
  }

  function PutDigests(digests: seq<ElDigest>, rest: Bytes): Bytes {
    if digests == [] then rest
    else LE(2, AlgorithmId(digests[0].alg)) + (digests[0].digest + PutDigests(digests[1..], rest))
  }

  /** The event data of an entry. */
  function PayloadOf(e: Entry): Bytes {
    var d := Base64.Decode(e.event); if d.Ok? then d.value else []
  }

  /** The entries a log can hold: sized digests, event data its own parser accepts, derived fields
      that agree with it, and a start that is not the stop flag. */
  predicate WellFormedEntry(p: Platform, table: SizeTable, e: Entry) {
    var payload := PayloadOf(e);
    && e.index < 0x1_0000_0000
    && !(e.index == 0 && e.eventType.EvPrebootCert?)
    && |e.digests| < 0x1_0000_0000
    && WellFormedDigests(table, e.digests)
    && |payload| < 0x1_0000_0000
    && e.event == Base64.Encode(payload)
    && ParseDetails(p, e.eventType, payload) == Ok(e.details)
    && CompareDigests(p, payload, e.digests) == Ok(e.digestMatchesEvent)
  }

  predicate WellFormedEntries(p: Platform, table: SizeTable, entries: seq<Entry>) {
    forall i :: 0 <= i < |entries| ==> WellFormedEntry(p, table, entries[i])
  }

  function PutDigestList(digests: seq<ElDigest>, rest: Bytes): Bytes {
    LE(4, |digests|) + PutDigests(digests, rest)
  }

  function PutPayload(payload: Bytes, rest: Bytes): Bytes {
    LE(4, |payload|) + (payload + rest)
  }

  function PutEntry(e: Entry, rest: Bytes): Bytes {
    LE(4, e.index) + (LE(4, EventCode(e.eventType)) + PutDigestList(e.digests, PutPayload(PayloadOf(e), rest)))
  }

  function PutEntries(entries: seq<Entry>, rest: Bytes): Bytes {
    if entries == [] then rest else PutEntry(entries[0], PutEntries(entries[1..], rest))
  }

  /** Eight bytes of zeros, or of ones, end the log. */
  predicate IsStop(s: Bytes) {
    |s| >= 8 && (FromLE(s[..8]) == 0 || FromLE(s[..8]) == 0xFFFF_FFFF_FFFF_FFFF)
  }

  /** A whole log: header, entries, and whatever follows them. */
  function LogBytes(h: Header, entries: seq<Entry>, tail: Bytes): Bytes {
    PutHeader(h, PutEntries(entries, tail))
  }

  // ---- Parsing: each reader returns what it read and the bytes after it ----

  function TakeSize(s: Bytes): Result<(AlgSize, Bytes)> {
    var (id, s1) :- TakeLE(2, s);
    var (size, s2) :- TakeLE(2, s1);
    var alg :- AlgorithmOf(id);
    Ok((AlgSize(alg, size), s2))
  }

  function TakeSizes(s: Bytes, n: nat): Result<(seq<AlgSize>, Bytes)> {
    if n == 0 then Ok(([], s))
    else
      var (one, s1) :- TakeSize(s);
      PrependSizes([one], TakeSizes(s1, n - 1))
  }

  function PrependSizes(first: seq<AlgSize>, r: Result<(seq<AlgSize>, Bytes)>): Result<(seq<AlgSize>, Bytes)> {
    match r case Err => Err case Ok((algs, rest)) => Ok((first + algs, rest))
  }

  /** The specification ID event; it must fill `body` exactly. */
  function TakeSpecId(body: Bytes): Result<(Bytes, seq<AlgSize>, Bytes)> {
    var (version, s1) :- TakeBytes(24, body);
    var (n, s2) :- TakeLE(4, s1);
    var (algs, s3) :- TakeSizes(s2, n);
    var (size, vendor) :- TakeLE(1, s3);
    if size == |vendor| then Ok((version, algs, vendor)) else Err
  }

  function TakeHeader(s: Bytes): Result<(Header, Bytes)> {
    var (pcr, s1) :- TakeLE(4, s);
    var (code, s2) :- TakeLE(4, s1);
    var t :- EventTypeOf(code);
    var (gap, s3) :- TakeBytes(20, s2);
    var (size, s4) :- TakeLE(4, s3);
    if !t.EvNoAction? then Ok((Other(pcr, gap, t, size), s4))
    else
      var (body, s5) :- TakeBytes(size, s4);
      var (version, algs, vendor) :- TakeSpecId(body);
      Ok((SpecId(pcr, gap, version, algs, vendor), s5))
  }

  function TakeDigest(table: SizeTable, s: Bytes): Result<(ElDigest, Bytes)> {
    var (id, s1) :- TakeLE(2, s);
    var alg :- AlgorithmOf(id);
    if alg !in table then Err
    else
      var (digest, s2) :- TakeBytes(table[alg], s1);
      Ok((ElDigest(alg, digest), s2))
  }

  function TakeDigests(table: SizeTable, s: Bytes, n: nat): Result<(seq<ElDigest>, Bytes)> {
    if n == 0 then Ok(([], s))
    else
      var (digest, s1) :- TakeDigest(table, s);
      PrependDigests([digest], TakeDigests(table, s1, n - 1))
  }

  function PrependDigests(first: seq<ElDigest>, r: Result<(seq<ElDigest>, Bytes)>): Result<(seq<ElDigest>, Bytes)> {
    match r case Err => Err case Ok((digests, rest)) => Ok((first + digests, rest))
  }

  function TakeDigestList(table: SizeTable, s: Bytes): Result<(seq<ElDigest>, Bytes)> {
    var (n, s1) :- TakeLE(4, s);
    TakeDigests(table, s1, n)
  }

  /** An entry made of its raw parts, if its event data and digests are acceptable. */
  function MakeEntry(p: Platform, index: nat, t: TcgEventType, digests: seq<ElDigest>, payload: Bytes)
    : Result<Entry>
  {
    var same :- CompareDigests(p, payload, digests);
    var details :- ParseDetails(p, t, payload);
    Ok(Entry(index, t, digests, Base64.Encode(payload), details, same))
  }

  /** Event data, after its length. */
  function TakePayload(s: Bytes): Result<(Bytes, Bytes)> {
    var (size, s1) :- TakeLE(4, s);
    TakeBytes(size, s1)
  }

  /** The entry that starts `s`, which does not start with the stop flag. */
  function TakeEntry(p: Platform, table: SizeTable, s: Bytes): Result<(Entry, Bytes)> {
    var (index, s1) :- TakeLE(4, s);
    var (code, s2) :- TakeLE(4, s1);
    var t :- EventTypeOf(code);
    var (digests, s3) :- TakeDigestList(table, s2);
    var (payload, s4) :- TakePayload(s3);
    var entry :- MakeEntry(p, index, t, digests, payload);
    Ok((entry, s4))
  }

  lemma TakeDigestsShrinks(table: SizeTable, s: Bytes, n: nat)
    ensures TakeDigests(table, s, n).Ok? ==> |TakeDigests(table, s, n).value.1| <= |s|
  {
  }

  /** Sixteen bytes are the least an entry takes; this is what makes the loop over entries end. */
  lemma EntryProgress(p: Platform, table: SizeTable, s: Bytes)
    requires TakeEntry(p, table, s).Ok?
    ensures |TakeEntry(p, table, s).value.1| + 16 <= |s|
  {
    var s2 := TakeLE(4, TakeLE(4, s).value.1).value.1;
    var (n, s3) := TakeLE(4, s2).value;
    TakeDigestsShrinks(table, s3, n);
  }

  /** Entries up to the end of `s` or to a stop flag, and what is left there. */
  function TakeEntries(p: Platform, table: SizeTable, s: Bytes): Result<(seq<Entry>, Bytes)>
    decreases |s|
  {
    if s == [] || IsStop(s) then Ok(([], s))
    else
      var r := TakeEntry(p, table, s);
      if r.Err? then Err
      else
        EntryProgress(p, table, s);
        PrependEntries([r.value.0], TakeEntries(p, table, r.value.1))
  }

  function PrependEntries(first: seq<Entry>, r: Result<(seq<Entry>, Bytes)>): Result<(seq<Entry>, Bytes)> {
    match r case Err => Err case Ok((entries, rest)) => Ok((first + entries, rest))
  }

  function ParseLog(p: Platform, data: Bytes): Result<seq<Entry>> {
    var (h, s) :- TakeHeader(data);
    var (entries, _) :- TakeEntries(p, TableOf(h), s);
    Ok(entries)
  }
}
