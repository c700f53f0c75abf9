/** Printing and parsing the event log are inverse to each other, level by level: what was put is
    taken back, and what was taken puts back exactly what it consumed. */
module EventLogRoundTrip {
  import opened Common
  import opened TcgEnum
  import opened EventLog
  import Base64

  // ---- The header ----

  lemma SizePut(one: AlgSize, rest: Bytes)
    requires one.size < 0x1_0000
    ensures TakeSize(LE(2, AlgorithmId(one.alg)) + (LE(2, one.size) + rest)) == Ok((one, rest))
  {
    FieldWidths();
    RegistriesInvert(one.alg, EvNoAction);
    LEPut(2, AlgorithmId(one.alg), LE(2, one.size) + rest);
    LEPut(2, one.size, rest);
  }

  lemma SizeTaken(s: Bytes)
    requires TakeSize(s).Ok?
    ensures var (one, rest) := TakeSize(s).value;
      one.size < 0x1_0000 && s == LE(2, AlgorithmId(one.alg)) + (LE(2, one.size) + rest)
  {
    FieldWidths();
    LETaken(2, s);
    LETaken(2, TakeLE(2, s).value.1);
  }

  lemma {:induction false} SizesPut(algs: seq<AlgSize>, rest: Bytes)
    requires WellFormedSizes(algs)
    ensures TakeSizes(PutSizes(algs, rest), |algs|) == Ok((algs, rest))
  {
    if algs != [] {
      SizesPut(algs[1..], rest);
      SizePut(algs[0], PutSizes(algs[1..], rest));
      HeadTail(algs);
    }
  }

  lemma {:induction false} SizesTaken(s: Bytes, n: nat)
    requires TakeSizes(s, n).Ok?
    ensures var (algs, rest) := TakeSizes(s, n).value;
      |algs| == n && WellFormedSizes(algs) && s == PutSizes(algs, rest)
    decreases n
  {
    if n > 0 {
      SizeTaken(s);
      var (one, s1) := TakeSize(s).value;
      SizesTaken(s1, n - 1);
      Split([one], TakeSizes(s1, n - 1).value.0);
    }
  }

  lemma SpecIdPut(version: Bytes, algs: seq<AlgSize>, vendor: Bytes)
    requires |version| == 24 && |algs| < 0x1_0000_0000 && |vendor| < 256 && WellFormedSizes(algs)
    ensures TakeSpecId(SpecIdBytes(version, algs, vendor)) == Ok((version, algs, vendor))
  {
    FieldWidths();
    var s3 := LE(1, |vendor|) + vendor;
    BytesPut(version, LE(4, |algs|) + PutSizes(algs, s3));
    LEPut(4, |algs|, PutSizes(algs, s3));
    SizesPut(algs, s3);
    LEPut(1, |vendor|, vendor);
  }

  lemma SpecIdTaken(body: Bytes)
    requires TakeSpecId(body).Ok?
    ensures var (version, algs, vendor) := TakeSpecId(body).value;
      |version| == 24 && |algs| < 0x1_0000_0000 && |vendor| < 256 && WellFormedSizes(algs)
      && body == SpecIdBytes(version, algs, vendor)
  {
    FieldWidths();
    BytesTaken(24, body);
    var s1 := TakeBytes(24, body).value.1;
    LETaken(4, s1);
    var (n, s2) := TakeLE(4, s1).value;
    SizesTaken(s2, n);
    LETaken(1, TakeSizes(s2, n).value.1);
  }

  lemma RecordPut(pcr: nat, t: TcgEventType, gap: Bytes, size: nat, rest: Bytes)
    requires pcr < 0x1_0000_0000 && |gap| == 20 && size < 0x1_0000_0000
    ensures var s := PutRecord(pcr, t, gap, size, rest);
      && TakeLE(4, s).Ok? && TakeLE(4, s).value.0 == pcr
      && var s1 := TakeLE(4, s).value.1;
      && TakeLE(4, s1).Ok? && TakeLE(4, s1).value.0 == EventCode(t)
      && var s2 := TakeLE(4, s1).value.1;
      && TakeBytes(20, s2).Ok? && TakeBytes(20, s2).value.0 == gap
      && TakeLE(4, TakeBytes(20, s2).value.1) == Ok((size, rest))
  {
    FieldWidths();
    RegistriesInvert(Rsa, t);
    var s3 := LE(4, size) + rest;
    LEPut(4, pcr, LE(4, EventCode(t)) + (gap + s3));
    LEPut(4, EventCode(t), gap + s3);
    BytesPut(gap, s3);
    LEPut(4, size, rest);
  }

  lemma HeaderPut(h: Header, rest: Bytes)
    requires WellFormedHeader(h)
    ensures TakeHeader(PutHeader(h, rest)) == Ok((h, rest))
  {
    match h {
      case SpecId(pcr, gap, version, algs, vendor) =>
        var body := SpecIdBytes(version, algs, vendor);
        RegistriesInvert(Rsa, EvNoAction);
        RecordPut(pcr, EvNoAction, gap, |body|, body + rest);
        BytesPut(body, rest);
        SpecIdPut(version, algs, vendor);
      case Other(pcr, gap, t, claimed) =>
        RegistriesInvert(Rsa, t);
        RecordPut(pcr, t, gap, claimed, rest);
    }
  }

  lemma HeaderTaken(s: Bytes)
    requires TakeHeader(s).Ok?
    ensures var (h, rest) := TakeHeader(s).value; WellFormedHeader(h) && s == PutHeader(h, rest)
  {
    var (h, rest) := TakeHeader(s).value;
    FieldWidths();
    LETaken(4, s);
    var s1 := TakeLE(4, s).value.1;
    LETaken(4, s1);
    var (code, s2) := TakeLE(4, s1).value;
    EventTypeOfSound(code);
    BytesTaken(20, s2);
    var s3 := TakeBytes(20, s2).value.1;
    LETaken(4, s3);
    if h.SpecId? {
      var (size, s4) := TakeLE(4, s3).value;
      BytesTaken(size, s4);
      SpecIdTaken(TakeBytes(size, s4).value.0);
    }
  }

  // ---- Digests ----

  lemma DigestPut(table: SizeTable, one: ElDigest, rest: Bytes)
    requires one.alg in table && |one.digest| == table[one.alg]
    ensures TakeDigest(table, LE(2, AlgorithmId(one.alg)) + (one.digest + rest)) == Ok((one, rest))
  {
    FieldWidths();
    RegistriesInvert(one.alg, EvNoAction);
    LEPut(2, AlgorithmId(one.alg), one.digest + rest);
    BytesPut(one.digest, rest);
  }

  lemma DigestTaken(table: SizeTable, s: Bytes)
    requires TakeDigest(table, s).Ok?
    ensures var (one, rest) := TakeDigest(table, s).value;
      one.alg in table && |one.digest| == table[one.alg]
      && s == LE(2, AlgorithmId(one.alg)) + (one.digest + rest)
  {
    LETaken(2, s);
    var (id, s1) := TakeLE(2, s).value;
    BytesTaken(table[AlgorithmOf(id).value], s1);
  }

  lemma {:induction false} DigestsPut(table: SizeTable, digests: seq<ElDigest>, rest: Bytes)
    requires WellFormedDigests(table, digests)
    ensures TakeDigests(table, PutDigests(digests, rest), |digests|) == Ok((digests, rest))
  {
    if digests != [] {
      DigestsPut(table, digests[1..], rest);
      DigestPut(table, digests[0], PutDigests(digests[1..], rest));
      HeadTail(digests);
    }
  }

  lemma {:induction false} DigestsTaken(table: SizeTable, s: Bytes, n: nat)
    requires TakeDigests(table, s, n).Ok?
    ensures var (digests, rest) := TakeDigests(table, s, n).value;
      |digests| == n && WellFormedDigests(table, digests) && s == PutDigests(digests, rest)
    decreases n
  {
    if n > 0 {
      DigestTaken(table, s);
      var (one, s1) := TakeDigest(table, s).value;
      DigestsTaken(table, s1, n - 1);
      Split([one], TakeDigests(table, s1, n - 1).value.0);
    }
  }

  lemma DigestListPut(table: SizeTable, digests: seq<ElDigest>, rest: Bytes)
    requires WellFormedDigests(table, digests) && |digests| < 0x1_0000_0000
    ensures TakeDigestList(table, PutDigestList(digests, rest)) == Ok((digests, rest))
  {
    FieldWidths();
    LEPut(4, |digests|, PutDigests(digests, rest));
    DigestsPut(table, digests, rest);
  }

  lemma DigestListTaken(table: SizeTable, s: Bytes)
    requires TakeDigestList(table, s).Ok?
    ensures var (digests, rest) := TakeDigestList(table, s).value;
      |digests| < 0x1_0000_0000 && WellFormedDigests(table, digests) && s == PutDigestList(digests, rest)
  {
    FieldWidths();
    LETaken(4, s);
    var (n, s1) := TakeLE(4, s).value;
    DigestsTaken(table, s1, n);
  }

  // ---- Entries ----

  lemma PayloadPut(payload: Bytes, rest: Bytes)
    requires |payload| < 0x1_0000_0000
    ensures TakePayload(PutPayload(payload, rest)) == Ok((payload, rest))
  {
    FieldWidths();
    LEPut(4, |payload|, payload + rest);
    BytesPut(payload, rest);
  }

  lemma PayloadTaken(s: Bytes)
    requires TakePayload(s).Ok?
    ensures var (payload, rest) := TakePayload(s).value;
      |payload| < 0x1_0000_0000 && s == PutPayload(payload, rest)
  {
    FieldWidths();
    LETaken(4, s);
    var (size, s1) := TakeLE(4, s).value;
    BytesTaken(size, s1);
  }

  lemma {:induction false} ConcatLE(a: Bytes, b: Bytes)
    ensures FromLE(a + b) == FromLE(a) + Pow256(|a|) * FromLE(b)
  {
    if a == [] {
      assert a + b == b;
    } else {
      ConcatLE(a[1..], b);
      assert (a + b)[1..] == a[1..] + b;
      assert 256 * (Pow256(|a| - 1) * FromLE(b)) == Pow256(|a|) * FromLE(b);
    }
  }

  lemma EventCodesBelowOnes(t: TcgEventType)
    ensures EventCode(t) < 0xFFFF_FFFF
    ensures EventCode(t) == 0 ==> t == EvPrebootCert
  {
  }

  /** The stop flag lies over the first two fields of an entry; only register 0 with event type 0
      reads as one. */
  lemma StopFlagIsTwoFields(index: nat, t: TcgEventType, rest: Bytes)
    requires index < 0x1_0000_0000
    ensures IsStop(LE(4, index) + (LE(4, EventCode(t)) + rest)) <==> index == 0 && t == EvPrebootCert
  {
    var code := EventCode(t);
    var two := LE(4, index) + LE(4, code);
    FieldWidths();
    EventCodesBelowOnes(t);
    Assoc(LE(4, index), LE(4, code), rest);
    Split(two, rest);
    ConcatLE(LE(4, index), LE(4, code));
    FromLEofLE(4, index);
    FromLEofLE(4, code);
  }

  lemma MadeEntry(p: Platform, index: nat, t: TcgEventType, digests: seq<ElDigest>, payload: Bytes)
    requires MakeEntry(p, index, t, digests, payload).Ok?
    ensures var e := MakeEntry(p, index, t, digests, payload).value;
      && PayloadOf(e) == payload && e.event == Base64.Encode(payload)
      && e.index == index && e.eventType == t && e.digests == digests
      && ParseDetails(p, t, payload) == Ok(e.details)
      && CompareDigests(p, payload, digests) == Ok(e.digestMatchesEvent)
  {
    Base64.DecodeInvertsEncode(payload);
  }

  lemma EntryPut(p: Platform, table: SizeTable, e: Entry, rest: Bytes)
    requires WellFormedEntry(p, table, e)
    ensures TakeEntry(p, table, PutEntry(e, rest)) == Ok((e, rest))
    ensures !IsStop(PutEntry(e, rest)) && PutEntry(e, rest) != []
  {
    var s3 := PutPayload(PayloadOf(e), rest);
    var s2 := PutDigestList(e.digests, s3);
    FieldWidths();
    RegistriesInvert(Rsa, e.eventType);
    StopFlagIsTwoFields(e.index, e.eventType, s2);
    LEPut(4, e.index, LE(4, EventCode(e.eventType)) + s2);
    LEPut(4, EventCode(e.eventType), s2);
    DigestListPut(table, e.digests, s3);
    PayloadPut(PayloadOf(e), rest);
  }

  lemma EntryTaken(p: Platform, table: SizeTable, s: Bytes)
    requires !IsStop(s) && TakeEntry(p, table, s).Ok?
    ensures var (e, rest) := TakeEntry(p, table, s).value;
      WellFormedEntry(p, table, e) && s == PutEntry(e, rest)
  {
    FieldWidths();
    LETaken(4, s);
    var (index, s1) := TakeLE(4, s).value;
    LETaken(4, s1);
    var (code, s2) := TakeLE(4, s1).value;
    EventTypeOfSound(code);
    StopFlagIsTwoFields(index, EventTypeOf(code).value, s2);
    DigestListTaken(table, s2);
    var (digests, s3) := TakeDigestList(table, s2).value;
    PayloadTaken(s3);
    MadeEntry(p, index, EventTypeOf(code).value, digests, TakePayload(s3).value.0);
  }

  lemma {:induction false} EntriesPut(p: Platform, table: SizeTable, entries: seq<Entry>, tail: Bytes)
    requires WellFormedEntries(p, table, entries) && (tail == [] || IsStop(tail))
    ensures TakeEntries(p, table, PutEntries(entries, tail)) == Ok((entries, tail))
  {
    if entries != [] {
      EntriesPut(p, table, entries[1..], tail);
      EntryPut(p, table, entries[0], PutEntries(entries[1..], tail));
      HeadTail(entries);
    }
  }

  lemma {:induction false} EntriesTaken(p: Platform, table: SizeTable, s: Bytes)
    requires TakeEntries(p, table, s).Ok?
    ensures var (entries, tail) := TakeEntries(p, table, s).value;
      WellFormedEntries(p, table, entries) && (tail == [] || IsStop(tail)) && s == PutEntries(entries, tail)
    decreases |s|
  {
    if s != [] && !IsStop(s) {
      EntryProgress(p, table, s);
      EntryTaken(p, table, s);
      var (e, s1) := TakeEntry(p, table, s).value;
      EntriesTaken(p, table, s1);
      Split([e], TakeEntries(p, table, s1).value.0);
    }
  }

  // ---- The log ----

  /** A log: header, acceptable entries, then nothing or a stop flag and any bytes. */
  predicate IsLog(p: Platform, h: Header, entries: seq<Entry>, tail: Bytes) {
    WellFormedHeader(h) && WellFormedEntries(p, TableOf(h), entries) && (tail == [] || IsStop(tail))
  }

  /** Print then parse: the entries come back, in order, whatever follows a stop flag. */
  lemma LogPrintThenParse(p: Platform, h: Header, entries: seq<Entry>, tail: Bytes)
    requires IsLog(p, h, entries, tail)
    ensures ParseLog(p, LogBytes(h, entries, tail)) == Ok(entries)
  {
    HeaderPut(h, PutEntries(entries, tail));
    EntriesPut(p, TableOf(h), entries, tail);
  }

  /** Parse then print: the entries of a log that parses, printed between its header and its rest,
      are that log again. */
  lemma LogParseThenPrint(p: Platform, data: Bytes) returns (h: Header, tail: Bytes)
    requires ParseLog(p, data).Ok?
    ensures IsLog(p, h, ParseLog(p, data).value, tail)
    ensures data == LogBytes(h, ParseLog(p, data).value, tail)
  {
    HeaderTaken(data);
    h := TakeHeader(data).value.0;
    var s := TakeHeader(data).value.1;
    EntriesTaken(p, TableOf(h), s);
    tail := TakeEntries(p, TableOf(h), s).value.1;
  }

  /** The parse succeeds on exactly the printed logs. */
  lemma ParsesIffPrinted(p: Platform, data: Bytes)
    ensures ParseLog(p, data).Ok?
        <==> exists h: Header, entries: seq<Entry>, tail: Bytes ::
               IsLog(p, h, entries, tail) && data == LogBytes(h, entries, tail)
  {
    if ParseLog(p, data).Ok? {
      var h, tail := LogParseThenPrint(p, data);
      assert IsLog(p, h, ParseLog(p, data).value, tail);
    }
    forall h: Header, entries: seq<Entry>, tail: Bytes |
      IsLog(p, h, entries, tail) && data == LogBytes(h, entries, tail)
      ensures ParseLog(p, data).Ok?
    {
      LogPrintThenParse(p, h, entries, tail);
    }
  }

  /** One byte string is the print of one header, one list of entries and one rest only. */
  lemma LogUnambiguous(p: Platform, h: Header, es: seq<Entry>, tail: Bytes, h': Header, es': seq<Entry>, tail': Bytes)
    requires IsLog(p, h, es, tail) && IsLog(p, h', es', tail')
    requires LogBytes(h, es, tail) == LogBytes(h', es', tail')
    ensures h == h' && es == es' && tail == tail'
  {
    HeaderPut(h, PutEntries(es, tail));
    HeaderPut(h', PutEntries(es', tail'));
    EntriesPut(p, TableOf(h), es, tail);
    EntriesPut(p, TableOf(h), es', tail');
  }

  /** Printing is concatenation: what follows a log does not change the bytes of the log. */
  lemma LogIsConcatenation(h: Header, entries: seq<Entry>, tail: Bytes)
    ensures LogBytes(h, entries, tail) == PutHeader(h, []) + PutEntries(entries, []) + tail
  {
    HeaderFront(h, PutEntries(entries, tail));
    EntriesFront(entries, tail);
    Assoc(PutHeader(h, []), PutEntries(entries, []), tail);
  }

  lemma HeaderFront(h: Header, rest: Bytes)
    ensures PutHeader(h, rest) == PutHeader(h, []) + rest
  {
    match h {
      case SpecId(pcr, gap, version, algs, vendor) =>
        var body := SpecIdBytes(version, algs, vendor);
        assert body + [] == body;
        RecordFront(pcr, EvNoAction, gap, |body|, body, rest);
      case Other(pcr, gap, t, claimed) =>
        assert [] + rest == rest;
        RecordFront(pcr, t, gap, claimed, [], rest);
    }
  }

  lemma RecordFront(pcr: nat, t: TcgEventType, gap: Bytes, size: nat, a: Bytes, b: Bytes)
    ensures PutRecord(pcr, t, gap, size, a + b) == PutRecord(pcr, t, gap, size, a) + b
  {
    Assoc(LE(4, size), a, b);
    Assoc(gap, LE(4, size) + a, b);
    Assoc(LE(4, EventCode(t)), gap + (LE(4, size) + a), b);
    Assoc(LE(4, pcr), LE(4, EventCode(t)) + (gap + (LE(4, size) + a)), b);
  }

  lemma {:induction false} DigestsFront(digests: seq<ElDigest>, a: Bytes, b: Bytes)
    ensures PutDigests(digests, a + b) == PutDigests(digests, a) + b
  {
    if digests != [] {
      DigestsFront(digests[1..], a, b);
      var rest := PutDigests(digests[1..], a);
      Assoc(digests[0].digest, rest, b);
      Assoc(LE(2, AlgorithmId(digests[0].alg)), digests[0].digest + rest, b);
    }
  }

  lemma EntryFront(e: Entry, a: Bytes, b: Bytes)
    ensures PutEntry(e, a + b) == PutEntry(e, a) + b
  {
    var payload := PayloadOf(e);
    Assoc(payload, a, b);
    Assoc(LE(4, |payload|), payload + a, b);
    DigestsFront(e.digests, PutPayload(payload, a), b);
    Assoc(LE(4, |e.digests|), PutDigests(e.digests, PutPayload(payload, a)), b);
    var list := PutDigestList(e.digests, PutPayload(payload, a));
    Assoc(LE(4, EventCode(e.eventType)), list, b);
    Assoc(LE(4, e.index), LE(4, EventCode(e.eventType)) + list, b);
  }

  lemma {:induction false} EntriesFront(entries: seq<Entry>, rest: Bytes)
    ensures PutEntries(entries, rest) == PutEntries(entries, []) + rest
  {
    if entries == [] {
      assert [] + rest == rest;
    } else {
      EntriesFront(entries[1..], rest);
      EntryFront(entries[0], PutEntries(entries[1..], []), rest);
    }
  }
}
