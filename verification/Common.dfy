/** Bytes, optional values and little-endian integers, shared by every component. */
module Common {

  type byte = b: int | 0 <= b < 256
  type Bytes = seq<byte>

  datatype Option<+T> = None | Some(value: T)

  /** An `anyhow::Result` whose error text is dropped; a Rust panic is an `Err` too. */
  datatype Result<+T> = Ok(value: T) | Err {
    predicate IsFailure() { Err? }
    function PropagateFailure<U>(): Result<U> requires Err? { Err }
    function Extract(): T requires Ok? { value }
  }

  // ---- Concatenation, kept out of the way of the definitions it is used with ----

  lemma Split<T>(a: seq<T>, b: seq<T>)
    ensures (a + b)[..|a|] == a && (a + b)[|a|..] == b
  {
  }

  lemma Rejoin<T>(s: seq<T>, i: nat)
    requires i <= |s|
    ensures s == s[..i] + s[i..]
  {
  }

  lemma HeadTail<T>(s: seq<T>)
    requires s != []
    ensures s == [s[0]] + s[1..]
  {
  }

  lemma Assoc<T>(a: seq<T>, b: seq<T>, c: seq<T>)
    ensures a + b + c == a + (b + c)
  {
  }

  lemma Slice<T>(s: seq<T>, i: nat, n: nat)
    requires i + n <= |s|
    ensures s[i..][..n] == s[i..i + n] && s[i..][n..] == s[i + n..]
  {
  }

  // ---- Fixed-width integers ----

  /** The numbers an `n`-byte field can hold are those below `Pow256(n)`. */
  function Pow256(n: nat): (p: nat)
    ensures p >= 1
  {
    if n == 0 then 1 else 256 * Pow256(n - 1)
  }

  /** `v` as `n` bytes, least significant first. */
  function LE(n: nat, v: nat): (s: Bytes)
    ensures |s| == n
  {
    if n == 0 then [] else [v % 256] + LE(n - 1, v / 256)
  }

  /** The number that a little-endian byte string denotes. */
  function FromLE(s: Bytes): nat {
    if s == [] then 0 else s[0] + 256 * FromLE(s[1..])
  }

  /** The first byte counts least. */
  lemma LittleEndian(s: Bytes)
    ensures |s| == 2 ==> FromLE(s) == s[0] + 0x100 * s[1] as int
    ensures |s| == 4 ==> FromLE(s) == s[0] + 0x100 * s[1] as int + 0x1_0000 * s[2] as int + 0x100_0000 * s[3] as int
  {
    if |s| == 2 {
      assert s[1..][0] == s[1] && s[1..][1..] == [];
    } else if |s| == 4 {
      assert s[1..][1..] == s[2..] && s[2..][1..] == s[3..] && s[3..][1..] == [];
      assert s[1..][0] == s[1] && s[2..][0] == s[2] && s[3..][0] == s[3];
    }
  }

  lemma {:induction false} FromLEofLE(n: nat, v: nat)
    requires v < Pow256(n)
    ensures FromLE(LE(n, v)) == v
  {
    if n > 0 {
      FromLEofLE(n - 1, v / 256);
      assert LE(n, v)[1..] == LE(n - 1, v / 256);
    }
  }

  lemma {:induction false} LEofFromLE(s: Bytes)
    ensures FromLE(s) < Pow256(|s|)
    ensures LE(|s|, FromLE(s)) == s
  {
    if s != [] {
      LEofFromLE(s[1..]);
      assert s == [s[0]] + s[1..];
    }
  }

  /** Reads `n` bytes off the front of `s`; the rest of `s` is what follows them. */
  function TakeBytes(n: nat, s: Bytes): Result<(Bytes, Bytes)> {
    if |s| < n then Err else Ok((s[..n], s[n..]))
  }

  lemma BytesPut(b: Bytes, rest: Bytes)
    ensures TakeBytes(|b|, b + rest) == Ok((b, rest))
  {
    Split(b, rest);
  }

  lemma BytesTaken(n: nat, s: Bytes)
    requires TakeBytes(n, s).Ok?
    ensures var (b, rest) := TakeBytes(n, s).value; |b| == n && s == b + rest
  {
    Rejoin(s, n);
  }

  /** Reads an `n`-byte number off the front of `s`. */
  function TakeLE(n: nat, s: Bytes): Result<(nat, Bytes)> {
    if |s| < n then Err else Ok((FromLE(s[..n]), s[n..]))
  }

  lemma LEPut(n: nat, v: nat, rest: Bytes)
    requires v < Pow256(n)
    ensures TakeLE(n, LE(n, v) + rest) == Ok((v, rest))
  {
    FromLEofLE(n, v);
    Split(LE(n, v), rest);
  }

  lemma LETaken(n: nat, s: Bytes)
    requires TakeLE(n, s).Ok?
    ensures var (v, rest) := TakeLE(n, s).value; v < Pow256(n) && s == LE(n, v) + rest
  {
    LEofFromLE(s[..n]);
    Rejoin(s, n);
  }

  /** The widths the formats use. */
  lemma FieldWidths()
    ensures Pow256(1) == 0x100
    ensures Pow256(2) == 0x1_0000
    ensures Pow256(4) == 0x1_0000_0000
    ensures Pow256(8) == 0x1_0000_0000_0000_0000
  {
    assert Pow256(2) == 256 * Pow256(1);
    assert Pow256(4) == 256 * 256 * Pow256(2);
    assert Pow256(8) == 256 * 256 * 256 * 256 * Pow256(4) by {
      assert Pow256(8) == 256 * Pow256(7);
      assert Pow256(7) == 256 * Pow256(6);
      assert Pow256(6) == 256 * Pow256(5);
      assert Pow256(5) == 256 * Pow256(4);
    }
  }
}
