/** Where things stand in an event log, by position, and what ends it. */
module EventLogLayout {
  import opened Common
  import opened TcgEnum
  import opened DevicePaths
  import opened EventLog
  import opened EventLogRoundTrip

  predicate AllBytes(s: Bytes, b: byte) {
    forall i :: 0 <= i < |s| ==> s[i] == b
  }

  /** The number that only zeros, or only ones, denote. */
  lemma {:induction false} Extremes(s: Bytes)
    ensures FromLE(s) == 0 <==> AllBytes(s, 0)
    ensures FromLE(s) == Pow256(|s|) - 1 <==> AllBytes(s, 0xFF)
    ensures FromLE(s) < Pow256(|s|)
  {
    if s != [] {
      Extremes(s[1..]);
      assert AllBytes(s, 0) <==> s[0] == 0 && AllBytes(s[1..], 0) by { HeadTail(s); }
      assert AllBytes(s, 0xFF) <==> s[0] == 0xFF && AllBytes(s[1..], 0xFF) by { HeadTail(s); }
    }
  }

  /** A stop flag is eight bytes of zeros or eight bytes of ones. */
  lemma StopIff(s: Bytes)
    ensures IsStop(s) <==> |s| >= 8 && (AllBytes(s[..8], 0) || AllBytes(s[..8], 0xFF))
  {
    if |s| >= 8 {
      Extremes(s[..8]);
      FieldWidths();
    }
  }

  /** Entries end at eight bytes of zeros or of ones, whatever follows: the usual padding of the log area. */
  lemma PaddingEndsLog(p: Platform, h: Header, entries: seq<Entry>, tail: Bytes)
    requires WellFormedHeader(h) && WellFormedEntries(p, TableOf(h), entries)
    requires |tail| >= 8 && (AllBytes(tail[..8], 0) || AllBytes(tail[..8], 0xFF))
    ensures ParseLog(p, LogBytes(h, entries, tail)) == Ok(entries)
  {
    StopIff(tail);
    LogPrintThenParse(p, h, entries, tail);
  }

  /** Anything else in their place must be an entry. */
  lemma NoOtherEnd(p: Platform, table: SizeTable, s: Bytes)
    requires s != [] && !(|s| >= 8 && (AllBytes(s[..8], 0) || AllBytes(s[..8], 0xFF)))
    ensures TakeEntries(p, table, s).Ok? ==> TakeEntry(p, table, s).Ok? && TakeEntries(p, table, s).value.0 != []
  {
    StopIff(s);
  }

  /** The number in two or four bytes, the first one counting least. */
  function Word(s: Bytes, i: nat): int
    requires i + 4 <= |s|
  {
    s[i] + 0x100 * s[i + 1] as int + 0x1_0000 * s[i + 2] as int + 0x100_0000 * s[i + 3] as int
  }

  function Half(s: Bytes, i: nat): int
    requires i + 2 <= |s|
  {
    s[i] + 0x100 * s[i + 1] as int
  }

  lemma WordAt(s: Bytes, i: nat)
    requires i + 4 <= |s|
    ensures FromLE(s[i..i + 4]) == Word(s, i)
  {
    LittleEndian(s[i..i + 4]);
  }

  lemma HalfAt(s: Bytes, i: nat)
    requires i + 2 <= |s|
    ensures FromLE(s[i..i + 2]) == Half(s, i)
  {
    LittleEndian(s[i..i + 2]);
  }

  /** A digest: the number of its algorithm, then as many bytes as the table says. */
  lemma DigestLayout(table: SizeTable, s: Bytes)
    ensures TakeDigest(table, s).Ok? <==>
      && |s| >= 2 && AlgorithmOf(Half(s, 0)).Ok? && AlgorithmOf(Half(s, 0)).value in table
      && 2 + table[AlgorithmOf(Half(s, 0)).value] <= |s|
    ensures TakeDigest(table, s).Ok? ==>
      var alg := AlgorithmOf(Half(s, 0)).value;
      TakeDigest(table, s).value == (ElDigest(alg, s[2..2 + table[alg]]), s[2 + table[alg]..])
  {
    if |s| >= 2 {
      HalfAt(s, 0);
      if AlgorithmOf(Half(s, 0)).Ok? && AlgorithmOf(Half(s, 0)).value in table {
        var size := table[AlgorithmOf(Half(s, 0)).value];
        if 2 + size <= |s| { Slice(s, 2, size); }
      }
    }
  }

  /** Event data: its size in four bytes, then that many bytes. */
  lemma PayloadLayout(s: Bytes)
    ensures TakePayload(s).Ok? <==> |s| >= 4 && 4 + Word(s, 0) <= |s|
    ensures TakePayload(s).Ok? ==> TakePayload(s).value == (s[4..4 + Word(s, 0)], s[4 + Word(s, 0)..])
  {
    if |s| >= 4 {
      WordAt(s, 0);
      if 4 + Word(s, 0) <= |s| { Slice(s, 4, Word(s, 0)); }
    }
  }

  lemma DigestListLayout(table: SizeTable, s: Bytes)
    requires TakeDigestList(table, s).Ok?
    ensures |s| >= 4 && TakeDigests(table, s[4..], Word(s, 0)).Ok?
    ensures TakeDigestList(table, s).value.0 == TakeDigests(table, s[4..], Word(s, 0)).value.0
    ensures |TakeDigestList(table, s).value.0| == Word(s, 0)
  {
    WordAt(s, 0);
    DigestCount(table, s[4..], Word(s, 0));
  }

  /** An entry: register at 0, event type at 4, number of digests at 8; then the digests, then the data. */
  lemma EntryLayout(p: Platform, table: SizeTable, s: Bytes)
    requires TakeEntry(p, table, s).Ok?
    ensures var e := TakeEntry(p, table, s).value.0;
      && |s| >= 16 && e.index == Word(s, 0) && EventTypeOf(Word(s, 4)) == Ok(e.eventType)
      && TakeDigests(table, s[12..], Word(s, 8)).Ok?
      && e.digests == TakeDigests(table, s[12..], Word(s, 8)).value.0
      && |e.digests| == Word(s, 8)
  {
    EntryProgress(p, table, s);
    WordAt(s, 0);
    WordAt(s, 4);
    Slice(s, 4, 4);
    DigestListLayout(table, s[8..]);
    assert s[8..][4..] == s[12..] && Word(s[8..], 0) == Word(s, 8);
  }

  lemma {:induction false} DigestCount(table: SizeTable, s: Bytes, n: nat)
    ensures TakeDigests(table, s, n).Ok? ==> |TakeDigests(table, s, n).value.0| == n
    decreases n
  {
    if n > 0 && TakeDigest(table, s).Ok? {
      DigestCount(table, TakeDigest(table, s).value.1, n - 1);
    }
  }

  /** Event data is read as a device path for image loads alone, type 0x80000003, and as text otherwise;
      and an entry says whether all its digests are those of its event data. */
  lemma EntryDetails(p: Platform, table: SizeTable, e: Entry)
    requires WellFormedEntry(p, table, e)
    ensures Ok(e.details) == if EventCode(e.eventType) == 0x8000_0003 then ParseImageLoad(p.showPath, PayloadOf(e))
                             else p.textDetails(e.eventType, PayloadOf(e))
    ensures e.digestMatchesEvent <==>
      forall i :: 0 <= i < |e.digests| ==>
        Computable(e.digests[i].alg) && p.hash(e.digests[i].alg, PayloadOf(e)) == e.digests[i].digest
  {
    var i := CompareDigestsIs(p, PayloadOf(e), e.digests);
    if i < |e.digests| {
      assert !Matches(p, PayloadOf(e), e.digests[i]);
    }
  }

  /** The first record: register at 0, type at 4, the digest at 8, size at 28. Only a record of type 3
      has a body and declares digest sizes. */
  lemma HeaderLayout(s: Bytes)
    requires TakeHeader(s).Ok?
    ensures var (h, rest) := TakeHeader(s).value;
      && |s| >= 32 && h.pcr == Word(s, 0) && h.gap == s[8..28]
      && (h.SpecId? <==> Word(s, 4) == 3)
      && (h.Other? ==> TableOf(h) == map[] && rest == s[32..])
      && (h.SpecId? ==> |s| >= 32 + Word(s, 28) && rest == s[32 + Word(s, 28)..]
                        && TakeSpecId(s[32..32 + Word(s, 28)]) == Ok((h.version, h.algs, h.vendor)))
  {
    WordAt(s, 0);
    WordAt(s, 4);
    WordAt(s, 28);
    Slice(s, 4, 4);
    Slice(s, 8, 20);
    Slice(s, 28, 4);
    EventTypeOfSound(Word(s, 4));
    if Word(s, 4) == 3 {
      Slice(s, 32, Word(s, 28));
    }
  }

  /** The specification ID event: the number of algorithms at 24, then four bytes for each. */
  lemma SpecIdLayout(body: Bytes)
    requires TakeSpecId(body).Ok?
    ensures var (version, algs, vendor) := TakeSpecId(body).value;
      && |body| >= 29 && version == body[..24] && |algs| == Word(body, 24)
      && |body| == 29 + 4 * |algs| + |vendor| && vendor == body[29 + 4 * |algs|..]
      && body[28 + 4 * |algs|] == |vendor|
      && forall i :: 0 <= i < |algs| ==>
           AlgorithmOf(Half(body, 28 + 4 * i)) == Ok(algs[i].alg) && algs[i].size == Half(body, 30 + 4 * i)
  {
    WordAt(body, 24);
    Slice(body, 24, 4);
    var (version, s1) := TakeBytes(24, body).value;
    var (n, s2) := TakeLE(4, s1).value;
    var (algs, s3) := TakeSizes(s2, n).value;
    SizesLayout(s2, n);
    assert s2 == body[28..];
    assert FromLE(s3[..1]) == s3[0] by { assert s3[..1][1..] == []; }
    forall i | 0 <= i < |algs|
      ensures AlgorithmOf(Half(body, 28 + 4 * i)) == Ok(algs[i].alg) && algs[i].size == Half(body, 30 + 4 * i)
    {
      assert Half(s2, 4 * i) == Half(body, 28 + 4 * i) && Half(s2, 4 * i + 2) == Half(body, 30 + 4 * i);
    }
  }

  lemma {:induction false} SizesLayout(s: Bytes, n: nat)
    requires TakeSizes(s, n).Ok?
    ensures var (algs, rest) := TakeSizes(s, n).value;
      && |algs| == n && 4 * n <= |s| && rest == s[4 * n..]
      && forall i :: 0 <= i < n ==>
           AlgorithmOf(Half(s, 4 * i)) == Ok(algs[i].alg) && algs[i].size == Half(s, 4 * i + 2)
    decreases n
  {
    if n > 0 {
      HalfAt(s, 0);
      HalfAt(s, 2);
      Slice(s, 2, 2);
      var (one, s1) := TakeSize(s).value;
      assert s1 == s[4..];
      SizesLayout(s1, n - 1);
      var algs := TakeSizes(s, n).value.0;
      assert algs == [one] + TakeSizes(s1, n - 1).value.0;
      forall i | 1 <= i < n
        ensures AlgorithmOf(Half(s, 4 * i)) == Ok(algs[i].alg) && algs[i].size == Half(s, 4 * i + 2)
      {
        assert Half(s1, 4 * (i - 1)) == Half(s, 4 * i) && Half(s1, 4 * (i - 1) + 2) == Half(s, 4 * i + 2);
      }
    }
  }

  /** A device path node: type at 0, subtype at 1, length with its header at 2, then the data. */
  lemma NodeLayout(show: PathPrinter, s: Bytes, result: EventDetails)
    ensures NestedPaths(show, s, result).Ok? ==> |s| >= 4 && 4 <= Half(s, 2) <= |s|
    ensures |s| >= 4 && Half(s, 2) == |s| ==>
      NestedPaths(show, s, result) == Ok(WithPaths(result, [show(s[0], s[1], s[4..])]))
  {
    if |s| >= 4 {
      HalfAt(s, 2);
      if Half(s, 2) == |s| {
        assert s[4..|s|] == s[4..] && s[|s|..] == [];
      }
    }
  }
}
