/** Replaying an event log: the value a measurement register ends with, and what that value binds. */
module Replay {
  import opened Common
  import opened TcgEnum
  import opened EventLog

  datatype ReferenceMeasurement = ReferenceMeasurement(index: nat, algorithm: TcgAlgorithm, reference: Bytes)

  type DigestMap = map<nat, seq<ElDigest>>

  function Zeros(n: nat): (z: Bytes)
    ensures |z| == n
  {
    seq(n, _ => 0)
  }

  /** One extension of a register; only the computable algorithms can extend. */
  function Extend(p: Platform, alg: TcgAlgorithm, value: Bytes, digest: Bytes): Result<Bytes> {
    if Computable(alg) then Ok(p.hash(alg, value + digest)) else Err
  }

  /** The register value after the digests of one algorithm, in order. */
  function ExtendAll(p: Platform, alg: TcgAlgorithm, value: Bytes, digests: seq<ElDigest>): Result<Bytes> {
    if digests == [] then Ok(value)
    else
      var last := digests[|digests| - 1];
      var value' :- ExtendAll(p, alg, value, digests[..|digests| - 1]);
      if last.alg == alg then Extend(p, alg, value', last.digest) else Ok(value')
  }

  // ---- The code: group the digests by register, then replay one group ----

  /** All digests of one register, in log order. */
  function DigestsAt(log: seq<Entry>, index: nat): seq<ElDigest> {
    if log == [] then []
    else
      var last := log[|log| - 1];
      DigestsAt(log[..|log| - 1], index) + (if last.index == index then last.digests else [])
  }

  ghost predicate Groups(log: seq<Entry>, m: DigestMap) {
    && (forall index :: index in m <==> exists i :: 0 <= i < |log| && log[i].index == index)
    && (forall index :: index in m ==> m[index] == DigestsAt(log, index))
  }

  method PushAll(digests: seq<ElDigest>, more: seq<ElDigest>) returns (r: seq<ElDigest>)
    ensures r == digests + more
  {
    r := digests;
    for j := 0 to |more|
      invariant r == digests + more[..j]
    {
      r := r + [more[j]];
    }
    assert more[..|more|] == more;
  }

  method CollectDigestsByIndex(log: seq<Entry>) returns (m: DigestMap)
    ensures Groups(log, m)
  {
    m := map[];
    for i := 0 to |log|
      invariant Groups(log[..i], m)
    {
      GroupsStep(log[..i], m, log[i]);
      assert log[..i + 1] == log[..i] + [log[i]];
      var digests := PushAll(if log[i].index in m then m[log[i].index] else [], log[i].digests);
      m := m[log[i].index := digests];
    }
    assert log[..|log|] == log;
  }

  lemma {:induction false} AbsentRegister(log: seq<Entry>, index: nat)
    ensures (forall i :: 0 <= i < |log| ==> log[i].index != index) ==> DigestsAt(log, index) == []
  {
    if log != [] {
      AbsentRegister(log[..|log| - 1], index);
    }
  }

  lemma GroupsStep(log: seq<Entry>, m: DigestMap, entry: Entry)
    requires Groups(log, m)
    ensures Groups(log + [entry],
                   m[entry.index := (if entry.index in m then m[entry.index] else []) + entry.digests])
  {
    var log' := log + [entry];
    var m' := m[entry.index := (if entry.index in m then m[entry.index] else []) + entry.digests];
    AbsentRegister(log, entry.index);
    assert log'[..|log|] == log;
    forall index
      ensures index in m' <==> exists i :: 0 <= i < |log'| && log'[i].index == index
    {
      if index in m {
        var i :| 0 <= i < |log| && log[i].index == index;
        assert log'[i].index == index;
      }
      assert log'[|log|] == entry;
      if i :| 0 <= i < |log'| && log'[i].index == index && i < |log| {
        assert log[i].index == index;
      }
    }
    forall index | index in m'
      ensures m'[index] == DigestsAt(log', index)
    {
      assert DigestsAt(log, index) + [] == DigestsAt(log, index);
    }
  }

  function ReplayGroup(p: Platform, m: DigestMap, index: nat, alg: TcgAlgorithm): Result<Bytes> {
    var size :- DigestSize(alg);
    if index in m then ExtendAll(p, alg, Zeros(size), m[index]) else Ok(Zeros(size))
  }

  method ReplayOne(p: Platform, m: DigestMap, index: nat, alg: TcgAlgorithm) returns (r: Result<Bytes>)
    ensures r == ReplayGroup(p, m, index, alg)
  {
    var size :- DigestSize(alg);
    var materials := Zeros(size);
    if index in m {
      var digests := m[index];
      for i := 0 to |digests|
        invariant ExtendAll(p, alg, Zeros(size), digests[..i]) == Ok(materials)
      {
        assert digests[..i + 1][..i] == digests[..i];
        if digests[i].alg == alg {
          if !Computable(alg) {
            ExtendErrs(p, alg, Zeros(size), digests, i + 1);
            return Err;
          }
          materials := p.hash(alg, materials + digests[i].digest);
        }
      }
      assert digests[..|digests|] == digests;
    }
    return Ok(materials);
  }

  /** An extension that fails is not made up for by later digests. */
  lemma {:induction false} ExtendErrs(p: Platform, alg: TcgAlgorithm, value: Bytes, digests: seq<ElDigest>, i: nat)
    requires i <= |digests| && ExtendAll(p, alg, value, digests[..i]).Err?
    ensures ExtendAll(p, alg, value, digests).Err?
    decreases |digests|
  {
    if i == |digests| {
      assert digests[..i] == digests;
    } else {
      var shorter := digests[..|digests| - 1];
      assert shorter[..i] == digests[..i];
      ExtendErrs(p, alg, value, shorter, i);
    }
  }

  /** True if every reference value is the one the log replays to. */
  method ReplayAndMatch(p: Platform, log: seq<Entry>, refs: seq<ReferenceMeasurement>) returns (ok: bool)
    ensures ok <==> Verdict(p, log, refs)
  {
    var m := CollectDigestsByIndex(log);
    for i := 0 to |refs|
      invariant forall k :: 0 <= k < i ==> Stream(p, log, refs[k].index, refs[k].algorithm) == Ok(refs[k].reference)
    {
      var value := ReplayOne(p, m, refs[i].index, refs[i].algorithm);
      GroupingRefinesStream(p, log, m, refs[i].index, refs[i].algorithm);
      if value != Ok(refs[i].reference) { return false; }
    }
    return true;
  }

  // ---- The reference: one pass over the log, extending one register as its entries come by ----

  function StreamFrom(p: Platform, log: seq<Entry>, index: nat, alg: TcgAlgorithm, value: Bytes): Result<Bytes> {
    if log == [] then Ok(value)
    else
      var last := log[|log| - 1];
      var value' :- StreamFrom(p, log[..|log| - 1], index, alg, value);
      if last.index == index then ExtendAll(p, alg, value', last.digests) else Ok(value')
  }

  function Stream(p: Platform, log: seq<Entry>, index: nat, alg: TcgAlgorithm): Result<Bytes> {
    var size :- DigestSize(alg);
    StreamFrom(p, log, index, alg, Zeros(size))
  }

  /** A register starts with as many zeros as its digests have bytes, and an event extends it with the
      hash of its value followed by the digest. */
  lemma StreamSteps(p: Platform, log: seq<Entry>, e: Entry, index: nat, alg: TcgAlgorithm, digest: Bytes)
    requires Computable(alg) && e.index == index && e.digests == [ElDigest(alg, digest)]
    ensures Stream(p, [], index, alg).Ok? && |Stream(p, [], index, alg).value| == DigestSize(alg).value
    ensures forall i :: 0 <= i < DigestSize(alg).value ==> Stream(p, [], index, alg).value[i] == 0
    ensures Stream(p, log, index, alg).Ok? ==>
      Stream(p, log + [e], index, alg) == Ok(p.hash(alg, Stream(p, log, index, alg).value + digest))
  {
    Split(log, [e]);
    if Stream(p, log, index, alg).Ok? {
      var value, more := Stream(p, log, index, alg).value, log + [e];
      assert more[..|more| - 1] == log && more[|more| - 1] == e;
      assert e.digests[..0] == [] && ExtendAll(p, alg, value, []) == Ok(value);
      assert ExtendAll(p, alg, value, e.digests) == Extend(p, alg, value, digest);
    }
  }

  predicate Verdict(p: Platform, log: seq<Entry>, refs: seq<ReferenceMeasurement>) {
    forall k :: 0 <= k < |refs| ==> Stream(p, log, refs[k].index, refs[k].algorithm) == Ok(refs[k].reference)
  }

  lemma {:induction false} ExtendAllAppend(p: Platform, alg: TcgAlgorithm, value: Bytes,
                                           a: seq<ElDigest>, b: seq<ElDigest>)
    requires ExtendAll(p, alg, value, a).Ok?
    ensures ExtendAll(p, alg, value, a + b) == ExtendAll(p, alg, ExtendAll(p, alg, value, a).value, b)
    decreases |b|
  {
    if b == [] {
      assert a + b == a;
    } else {
      var b' := b[..|b| - 1];
      assert (a + b)[..|a + b| - 1] == a + b';
      ExtendAllAppend(p, alg, value, a, b');
    }
  }

  lemma {:induction false} StreamIsExtendAll(p: Platform, log: seq<Entry>, index: nat, alg: TcgAlgorithm, value: Bytes)
    ensures StreamFrom(p, log, index, alg, value) == ExtendAll(p, alg, value, DigestsAt(log, index))
  {
    if log != [] {
      var last, shorter := log[|log| - 1], log[..|log| - 1];
      StreamIsExtendAll(p, shorter, index, alg, value);
      var before := DigestsAt(shorter, index);
      if last.index != index {
        assert before + [] == before;
      } else if ExtendAll(p, alg, value, before).Ok? {
        ExtendAllAppend(p, alg, value, before, last.digests);
      } else {
        Split(before, last.digests);
        ExtendErrs(p, alg, value, before + last.digests, |before|);
      }
    }
  }

  /** Replaying a group of the per-register map is one pass over the whole log. */
  lemma GroupingRefinesStream(p: Platform, log: seq<Entry>, m: DigestMap, index: nat, alg: TcgAlgorithm)
    requires Groups(log, m)
    ensures ReplayGroup(p, m, index, alg) == Stream(p, log, index, alg)
  {
    var size := DigestSize(alg);
    if size.Ok? {
      StreamIsExtendAll(p, log, index, alg, Zeros(size.value));
      if index !in m {
        AbsentRegister(log, index);
      }
    }
  }

  /** When a replay fails: the algorithm has no digest size, or SHA-1 digests would have to be extended. */
  lemma ReplayFailsIff(p: Platform, log: seq<Entry>, index: nat, alg: TcgAlgorithm)
    ensures Stream(p, log, index, alg).Err?
        <==> alg.Rsa? || alg.Tdes? || (alg.Sha1? && exists d :: d in DigestsAt(log, index) && d.alg == alg)
  {
    if DigestSize(alg).Ok? {
      StreamIsExtendAll(p, log, index, alg, Zeros(DigestSize(alg).value));
      ExtendAllFailsIff(p, alg, Zeros(DigestSize(alg).value), DigestsAt(log, index));
    }
  }

  lemma {:induction false} ExtendAllFailsIff(p: Platform, alg: TcgAlgorithm, value: Bytes, digests: seq<ElDigest>)
    ensures ExtendAll(p, alg, value, digests).Err?
        <==> !Computable(alg) && exists d :: d in digests && d.alg == alg
  {
    if digests != [] {
      var last, shorter := digests[|digests| - 1], digests[..|digests| - 1];
      ExtendAllFailsIff(p, alg, value, shorter);
      assert forall d :: d in digests <==> d in shorter || d == last;
    }
  }

  // ---- Reordering ----

  /** The entries of one register, in log order. */
  function RegisterLog(log: seq<Entry>, index: nat): seq<Entry> {
    if log == [] then []
    else
      var last := log[|log| - 1];
      RegisterLog(log[..|log| - 1], index) + (if last.index == index then [last] else [])
  }

  ghost predicate SameRegisterOrder(a: seq<Entry>, b: seq<Entry>) {
    forall index: nat :: RegisterLog(a, index) == RegisterLog(b, index)
  }

  lemma {:induction false} StreamOfRegisterLog(p: Platform, log: seq<Entry>, index: nat,
                                               alg: TcgAlgorithm, value: Bytes)
    ensures StreamFrom(p, RegisterLog(log, index), index, alg, value) == StreamFrom(p, log, index, alg, value)
  {
    if log != [] {
      var last, shorter := log[|log| - 1], log[..|log| - 1];
      StreamOfRegisterLog(p, shorter, index, alg, value);
      var kept := RegisterLog(shorter, index);
      if last.index == index {
        assert (kept + [last])[..|kept|] == kept;
      } else {
        assert kept + [] == kept;
      }
    }
  }

  /** A reordering that keeps each register's own order changes no replayed value and no verdict. */
  lemma ReorderingIsInvisible(p: Platform, a: seq<Entry>, b: seq<Entry>)
    requires SameRegisterOrder(a, b)
    ensures forall index, alg :: Stream(p, a, index, alg) == Stream(p, b, index, alg)
    ensures forall refs :: Verdict(p, a, refs) <==> Verdict(p, b, refs)
  {
    forall index, alg
      ensures Stream(p, a, index, alg) == Stream(p, b, index, alg)
    {
      if DigestSize(alg).Ok? {
        StreamOfRegisterLog(p, a, index, alg, Zeros(DigestSize(alg).value));
        StreamOfRegisterLog(p, b, index, alg, Zeros(DigestSize(alg).value));
      }
    }
  }

  lemma {:induction false} RegisterLogAppend(a: seq<Entry>, b: seq<Entry>, index: nat)
    ensures RegisterLog(a + b, index) == RegisterLog(a, index) + RegisterLog(b, index)
    decreases |b|
  {
    if b == [] {
      assert a + b == a;
    } else {
      var b', last := b[..|b| - 1], b[|b| - 1];
      assert (a + b)[..|a + b| - 1] == a + b';
      RegisterLogAppend(a, b', index);
    }
  }

  /** Neighbours of different registers may trade places, the step that generates all such reorderings. */
  lemma SwapKeepsRegisterOrder(a: seq<Entry>, x: Entry, y: Entry, b: seq<Entry>)
    requires x.index != y.index
    ensures SameRegisterOrder(a + [x, y] + b, a + [y, x] + b)
  {
    forall index: nat
      ensures RegisterLog(a + [x, y] + b, index) == RegisterLog(a + [y, x] + b, index)
    {
      RegisterLogAppend(a + [x, y], b, index);
      RegisterLogAppend(a + [y, x], b, index);
      RegisterLogAppend(a, [x, y], index);
      RegisterLogAppend(a, [y, x], index);
      RegisterLogAppend([x], [y], index);
      RegisterLogAppend([y], [x], index);
      assert [x] + [y] == [x, y] && [y] + [x] == [y, x];
    }
  }

  // ---- Binding ----

  /** The digests that extend a register under one algorithm. */
  function History(log: seq<Entry>, index: nat, alg: TcgAlgorithm): seq<Bytes> {
    OfAlgorithm(DigestsAt(log, index), alg)
  }

  function OfAlgorithm(digests: seq<ElDigest>, alg: TcgAlgorithm): seq<Bytes> {
    if digests == [] then []
    else
      var last := digests[|digests| - 1];
      OfAlgorithm(digests[..|digests| - 1], alg) + (if last.alg == alg then [last.digest] else [])
  }

  function Chain(p: Platform, alg: TcgAlgorithm, value: Bytes, history: seq<Bytes>): Bytes {
    if history == [] then value
    else p.hash(alg, Chain(p, alg, value, history[..|history| - 1]) + history[|history| - 1])
  }

  /** Everything that is hashed while a history is replayed. */
  function Hashed(p: Platform, alg: TcgAlgorithm, value: Bytes, history: seq<Bytes>): set<Bytes> {
    if history == [] then {}
    else
      var shorter := history[..|history| - 1];
      Hashed(p, alg, value, shorter) + {Chain(p, alg, value, shorter) + history[|history| - 1]}
  }

  lemma {:induction false} ExtendAllIsChain(p: Platform, alg: TcgAlgorithm, value: Bytes, digests: seq<ElDigest>)
    requires ExtendAll(p, alg, value, digests).Ok?
    ensures ExtendAll(p, alg, value, digests).value == Chain(p, alg, value, OfAlgorithm(digests, alg))
  {
    if digests != [] {
      var last, shorter := digests[|digests| - 1], digests[..|digests| - 1];
      ExtendAllIsChain(p, alg, value, shorter);
      var kept := OfAlgorithm(shorter, alg);
      if last.alg == alg {
        assert (kept + [last.digest])[..|kept|] == kept;
      } else {
        assert kept + [] == kept;
      }
    }
  }

  /** The hash yields values of the register's size. */
  ghost predicate SizedHash(p: Platform, alg: TcgAlgorithm) {
    DigestSize(alg).Ok? && forall x: Bytes :: |p.hash(alg, x)| == DigestSize(alg).value
  }

  /** What breaking the hash would take: two inputs with one hash, or an input hashing to zeros. */
  ghost predicate HashBroken(p: Platform, alg: TcgAlgorithm, inputs: set<Bytes>)
    requires DigestSize(alg).Ok?
  {
    || (exists x, y :: x in inputs && y in inputs && x != y && p.hash(alg, x) == p.hash(alg, y))
    || (exists x :: x in inputs && p.hash(alg, x) == Zeros(DigestSize(alg).value))
  }

  lemma {:induction false} ChainSize(p: Platform, alg: TcgAlgorithm, history: seq<Bytes>)
    requires SizedHash(p, alg)
    ensures |Chain(p, alg, Zeros(DigestSize(alg).value), history)| == DigestSize(alg).value
  {
  }

  /** The input of the last hash of a history. */
  function LastHashed(p: Platform, alg: TcgAlgorithm, history: seq<Bytes>): (x: Bytes)
    requires DigestSize(alg).Ok? && history != []
    ensures x in Hashed(p, alg, Zeros(DigestSize(alg).value), history)
    ensures p.hash(alg, x) == Chain(p, alg, Zeros(DigestSize(alg).value), history)
  {
    Chain(p, alg, Zeros(DigestSize(alg).value), history[..|history| - 1]) + history[|history| - 1]
  }

  lemma Broken(p: Platform, alg: TcgAlgorithm, inputs: set<Bytes>, x: Bytes, y: Bytes)
    requires DigestSize(alg).Ok? && x in inputs && y in inputs
    requires if x == y then p.hash(alg, x) == Zeros(DigestSize(alg).value) else p.hash(alg, x) == p.hash(alg, y)
    ensures HashBroken(p, alg, inputs)
  {
  }

  lemma BrokenOnMore(p: Platform, alg: TcgAlgorithm, inputs: set<Bytes>, more: set<Bytes>)
    requires DigestSize(alg).Ok? && inputs <= more && HashBroken(p, alg, inputs)
    ensures HashBroken(p, alg, more)
  {
  }

  lemma LastsAgree(p: Platform, alg: TcgAlgorithm, a: seq<Bytes>, u: Bytes, b: seq<Bytes>, v: Bytes)
    requires SizedHash(p, alg)
    requires Chain(p, alg, Zeros(DigestSize(alg).value), a) + u == Chain(p, alg, Zeros(DigestSize(alg).value), b) + v
    ensures Chain(p, alg, Zeros(DigestSize(alg).value), a) == Chain(p, alg, Zeros(DigestSize(alg).value), b) && u == v
  {
    ChainSize(p, alg, a);
    ChainSize(p, alg, b);
    Split(Chain(p, alg, Zeros(DigestSize(alg).value), a), u);
    Split(Chain(p, alg, Zeros(DigestSize(alg).value), b), v);
  }

  /** Two different histories that end in one value break the hash on what they fed it. */
  lemma {:induction false} ChainsBind(p: Platform, alg: TcgAlgorithm, a: seq<Bytes>, b: seq<Bytes>)
    requires SizedHash(p, alg) && a != b
    requires Chain(p, alg, Zeros(DigestSize(alg).value), a) == Chain(p, alg, Zeros(DigestSize(alg).value), b)
    ensures HashBroken(p, alg, Hashed(p, alg, Zeros(DigestSize(alg).value), a)
                               + Hashed(p, alg, Zeros(DigestSize(alg).value), b))
    decreases |a| + |b|
  {
    var zero := Zeros(DigestSize(alg).value);
    var inputs := Hashed(p, alg, zero, a) + Hashed(p, alg, zero, b);
    if a == [] || b == [] {
      var c := if a == [] then b else a;
      Broken(p, alg, inputs, LastHashed(p, alg, c), LastHashed(p, alg, c));
    } else {
      var a', b' := a[..|a| - 1], b[..|b| - 1];
      if LastHashed(p, alg, a) != LastHashed(p, alg, b) {
        Broken(p, alg, inputs, LastHashed(p, alg, a), LastHashed(p, alg, b));
      } else {
        LastsAgree(p, alg, a', a[|a| - 1], b', b[|b| - 1]);
        assert a == a' + [a[|a| - 1]] && b == b' + [b[|b| - 1]];
        ChainsBind(p, alg, a', b');
        BrokenOnMore(p, alg, Hashed(p, alg, zero, a') + Hashed(p, alg, zero, b'), inputs);
      }
    }
  }

  /** Replay binds the history: two logs with the same replayed value carry the same digests for
      that register and algorithm, however many there are, unless the hash is broken on what they
      fed it. */
  lemma ReplayBindsHistory(p: Platform, a: seq<Entry>, b: seq<Entry>, index: nat, alg: TcgAlgorithm)
    requires SizedHash(p, alg)
    requires Stream(p, a, index, alg).Ok? && Stream(p, a, index, alg) == Stream(p, b, index, alg)
    ensures History(a, index, alg) == History(b, index, alg)
         || HashBroken(p, alg, Hashed(p, alg, Zeros(DigestSize(alg).value), History(a, index, alg))
                               + Hashed(p, alg, Zeros(DigestSize(alg).value), History(b, index, alg)))
  {
    var zero := Zeros(DigestSize(alg).value);
    StreamIsExtendAll(p, a, index, alg, zero);
    StreamIsExtendAll(p, b, index, alg, zero);
    ExtendAllIsChain(p, alg, zero, DigestsAt(a, index));
    ExtendAllIsChain(p, alg, zero, DigestsAt(b, index));
    if History(a, index, alg) != History(b, index, alg) {
      ChainsBind(p, alg, History(a, index, alg), History(b, index, alg));
    }
  }

  /** Two logs accepted against the same reference values carry the same digests for every register
      that is referred to, unless the hash is broken on what they fed it. */
  lemma AcceptedLogsAgree(p: Platform, a: seq<Entry>, b: seq<Entry>, refs: seq<ReferenceMeasurement>)
    requires Verdict(p, a, refs) && Verdict(p, b, refs)
    ensures forall k :: 0 <= k < |refs| && SizedHash(p, refs[k].algorithm) ==>
      var index, alg := refs[k].index, refs[k].algorithm;
      History(a, index, alg) == History(b, index, alg)
      || HashBroken(p, alg, Hashed(p, alg, Zeros(DigestSize(alg).value), History(a, index, alg))
                            + Hashed(p, alg, Zeros(DigestSize(alg).value), History(b, index, alg)))
  {
    forall k | 0 <= k < |refs| && SizedHash(p, refs[k].algorithm) {
      ReplayBindsHistory(p, a, b, refs[k].index, refs[k].algorithm);
    }
  }
}
