/** What the registers say about the event data of a log: reference values bind the events. */
module EventBinding {
  import opened Common
  import opened TcgEnum
  import opened EventLog
  import opened EventLogRoundTrip
  import opened Replay

  function Copies(x: Bytes, n: nat): seq<Bytes> {
    seq(n, _ => x)
  }

  /** The event data behind the digests that extend a register under one algorithm. */
  function Events(log: seq<Entry>, index: nat, alg: TcgAlgorithm): seq<Bytes> {
    if log == [] then []
    else
      var last := log[|log| - 1];
      Events(log[..|log| - 1], index, alg)
      + (if last.index == index then Copies(PayloadOf(last), |OfAlgorithm(last.digests, alg)|) else [])
  }

  /** The digests of an entry are those of its event data. */
  predicate Matched(p: Platform, e: Entry) {
    CompareDigests(p, PayloadOf(e), e.digests) == Ok(true)
  }

  predicate MatchedAt(p: Platform, log: seq<Entry>, index: nat) {
    forall i :: 0 <= i < |log| && log[i].index == index ==> Matched(p, log[i])
  }

  /** `digests` are the hashes of `events`, one by one. */
  predicate AreHashes(p: Platform, alg: TcgAlgorithm, digests: seq<Bytes>, events: seq<Bytes>) {
    |digests| == |events| && forall i :: 0 <= i < |digests| ==> digests[i] == p.hash(alg, events[i])
  }

  lemma {:induction false} OfAlgorithmAppend(a: seq<ElDigest>, b: seq<ElDigest>, alg: TcgAlgorithm)
    ensures OfAlgorithm(a + b, alg) == OfAlgorithm(a, alg) + OfAlgorithm(b, alg)
    decreases |b|
  {
    if b == [] {
      assert a + b == a;
    } else {
      var shorter, last := b[..|b| - 1], b[|b| - 1];
      OfAlgorithmAppend(a, shorter, alg);
      assert (a + b)[..|a + b| - 1] == a + shorter && (a + b)[|a + b| - 1] == last;
      Assoc(OfAlgorithm(a, alg), OfAlgorithm(shorter, alg), if last.alg == alg then [last.digest] else []);
    }
  }

  lemma {:induction false} MatchedDigests(p: Platform, payload: Bytes, digests: seq<ElDigest>, alg: TcgAlgorithm)
    requires forall j :: 0 <= j < |digests| ==> Matches(p, payload, digests[j])
    ensures forall i :: 0 <= i < |OfAlgorithm(digests, alg)| ==>
      OfAlgorithm(digests, alg)[i] == p.hash(alg, payload)
  {
    if digests != [] {
      assert Matches(p, payload, digests[|digests| - 1]);
      MatchedDigests(p, payload, digests[..|digests| - 1], alg);
    }
  }

  lemma HashesAppend(p: Platform, alg: TcgAlgorithm, a: seq<Bytes>, b: seq<Bytes>, x: seq<Bytes>, y: seq<Bytes>)
    requires AreHashes(p, alg, a, x) && AreHashes(p, alg, b, y)
    ensures AreHashes(p, alg, a + b, x + y)
  {
  }

  /** Where every entry matches, what extends a register are the hashes of its event data. */
  lemma {:induction false} HistoryIsHashed(p: Platform, log: seq<Entry>, index: nat, alg: TcgAlgorithm)
    requires MatchedAt(p, log, index)
    ensures AreHashes(p, alg, History(log, index, alg), Events(log, index, alg))
  {
    if log != [] {
      var shorter, last := log[..|log| - 1], log[|log| - 1];
      HistoryIsHashed(p, shorter, index, alg);
      var more := if last.index == index then last.digests else [];
      OfAlgorithmAppend(DigestsAt(shorter, index), more, alg);
      if last.index == index {
        assert Matched(p, last);
        var i := CompareDigestsIs(p, PayloadOf(last), last.digests);
        MatchedDigests(p, PayloadOf(last), last.digests, alg);
        HashesAppend(p, alg, History(shorter, index, alg), OfAlgorithm(more, alg),
                     Events(shorter, index, alg), Copies(PayloadOf(last), |OfAlgorithm(more, alg)|));
      } else {
        assert History(shorter, index, alg) + [] == History(shorter, index, alg);
        assert Events(shorter, index, alg) + [] == Events(shorter, index, alg);
      }
    }
  }

  /** Two different pieces of event data, at one place of the two logs, with one hash. */
  ghost predicate EventsCollide(p: Platform, alg: TcgAlgorithm, a: seq<Bytes>, b: seq<Bytes>) {
    exists i :: 0 <= i < |a| && i < |b| && a[i] != b[i] && p.hash(alg, a[i]) == p.hash(alg, b[i])
  }

  lemma SameHistorySameEvents(p: Platform, alg: TcgAlgorithm, history: seq<Bytes>, a: seq<Bytes>, b: seq<Bytes>)
    requires AreHashes(p, alg, history, a) && AreHashes(p, alg, history, b)
    ensures a == b || EventsCollide(p, alg, a, b)
  {
    if a != b {
      var i :| 0 <= i < |a| && a[i] != b[i];
      assert p.hash(alg, a[i]) == history[i] == p.hash(alg, b[i]);
    }
  }

  /** The entries of a log that parses say truly whether their digests match. */
  lemma ParsedEntriesMatch(p: Platform, data: Bytes, index: nat)
    requires ParseLog(p, data).Ok?
    requires forall i :: 0 <= i < |ParseLog(p, data).value| && ParseLog(p, data).value[i].index == index ==>
      ParseLog(p, data).value[i].digestMatchesEvent
    ensures MatchedAt(p, ParseLog(p, data).value, index)
  {
    var log := ParseLog(p, data).value;
    var h, tail := LogParseThenPrint(p, data);
    forall i | 0 <= i < |log| && log[i].index == index ensures Matched(p, log[i]) {
      assert WellFormedEntry(p, TableOf(h), log[i]);
    }
  }

  /** Reference values bind the events: two logs that parse, are accepted against the same reference
      value and whose entries of that register all match, carry the same event data there, in order,
      unless the hash is broken on what they fed it or collides on the event data itself. */
  lemma AcceptedEventsAgree(p: Platform, data: Bytes, data': Bytes, refs: seq<ReferenceMeasurement>, k: nat)
    requires ParseLog(p, data).Ok? && ParseLog(p, data').Ok? && k < |refs| && SizedHash(p, refs[k].algorithm)
    requires Verdict(p, ParseLog(p, data).value, refs) && Verdict(p, ParseLog(p, data').value, refs)
    requires forall i :: 0 <= i < |ParseLog(p, data).value| && ParseLog(p, data).value[i].index == refs[k].index ==>
      ParseLog(p, data).value[i].digestMatchesEvent
    requires forall i :: 0 <= i < |ParseLog(p, data').value| && ParseLog(p, data').value[i].index == refs[k].index ==>
      ParseLog(p, data').value[i].digestMatchesEvent
    ensures var a, b, index, alg :=
        ParseLog(p, data).value, ParseLog(p, data').value, refs[k].index, refs[k].algorithm;
      || Events(a, index, alg) == Events(b, index, alg)
      || EventsCollide(p, alg, Events(a, index, alg), Events(b, index, alg))
      || HashBroken(p, alg, Hashed(p, alg, Zeros(DigestSize(alg).value), History(a, index, alg))
                            + Hashed(p, alg, Zeros(DigestSize(alg).value), History(b, index, alg)))
  {
    var a, b, index, alg := ParseLog(p, data).value, ParseLog(p, data').value, refs[k].index, refs[k].algorithm;
    AcceptedLogsAgree(p, a, b, refs);
    ParsedEntriesMatch(p, data, index);
    ParsedEntriesMatch(p, data', index);
    HistoryIsHashed(p, a, index, alg);
    HistoryIsHashed(p, b, index, alg);
    if History(a, index, alg) == History(b, index, alg) {
      SameHistorySameEvents(p, alg, History(a, index, alg), Events(a, index, alg), Events(b, index, alg));
    }
  }
}
