/** Standard Base64 (section 4 of RFC 4648), in which a log entry carries its event data. */
module Base64 {
  import opened Common

  function Digit(v: nat): (c: char)
    requires v < 64
    ensures c != '=' && ValueOf(c) == Ok(v)
  {
    if v < 26 then 'A' + v as char
    else if v < 52 then 'a' + (v - 26) as char
    else if v < 62 then '0' + (v - 52) as char
    else if v == 62 then '+' else '/'
  }

  function ValueOf(c: char): (r: Result<nat>)
    ensures r.Ok? ==> r.value < 64
  {
    if 'A' <= c <= 'Z' then Ok((c - 'A') as nat)
    else if 'a' <= c <= 'z' then Ok((c - 'a') as nat + 26)
    else if '0' <= c <= '9' then Ok((c - '0') as nat + 52)
    else if c == '+' then Ok(62) else if c == '/' then Ok(63) else Err
  }

  /** A group of three bytes as four digits; the last group may be shorter and is padded. */
  function Encode(s: Bytes): string {
    if |s| == 0 then ""
    else if |s| == 1 then Quad(s[0], 0, 0)[..2] + "=="
    else if |s| == 2 then Quad(s[0], s[1], 0)[..3] + "="
    else Quad(s[0], s[1], s[2]) + Encode(s[3..])
  }

  function Quad(x: byte, y: byte, z: byte): (q: string)
    ensures |q| == 4 && forall i :: 0 <= i < 4 ==> q[i] != '='
  {
    [Digit(x / 4), Digit(x % 4 * 16 + y / 16), Digit(y % 16 * 4 + z / 64), Digit(z % 64)]
  }

  function Unquad(q: string): Result<(byte, byte, byte)>
    requires |q| == 4
  {
    var a, b, c, d := ValueOf(q[0]), ValueOf(q[1]), ValueOf(q[2]), ValueOf(q[3]);
    if a.Err? || b.Err? || c.Err? || d.Err? then Err
    else Ok((a.value * 4 + b.value / 16, b.value % 16 * 16 + c.value / 4, c.value % 4 * 64 + d.value))
  }

  function Decode(t: string): Result<Bytes> {
    if |t| == 0 then Ok([])
    else if |t| < 4 then Err
    else if t[2..] == "==" then
      var q := Unquad(t[..2] + "AA");
      if q.Err? then Err else Ok([q.value.0])
    else if t[3..] == "=" then
      var q := Unquad(t[..3] + "A");
      if q.Err? then Err else Ok([q.value.0, q.value.1])
    else
      var q, rest := Unquad(t[..4]), Decode(t[4..]);
      if q.Err? || rest.Err? then Err else Ok([q.value.0, q.value.1, q.value.2] + rest.value)
  }

  /** Four sextets carry three bytes. */
  lemma SextetsCarryBytes(x: byte, y: byte, z: byte)
    ensures x / 4 * 4 + (x % 4 * 16 + y / 16) / 16 == x
    ensures (x % 4 * 16 + y / 16) % 16 * 16 + (y % 16 * 4 + z / 64) / 4 == y
    ensures (y % 16 * 4 + z / 64) % 4 * 64 + z % 64 == z
  {
  }

  lemma UnquadInvertsQuad(x: byte, y: byte, z: byte)
    ensures Unquad(Quad(x, y, z)) == Ok((x, y, z))
  {
    var q := Quad(x, y, z);
    assert ValueOf(q[0]) == Ok(x / 4) && ValueOf(q[1]) == Ok(x % 4 * 16 + y / 16);
    assert ValueOf(q[2]) == Ok(y % 16 * 4 + z / 64) && ValueOf(q[3]) == Ok(z % 64);
    SextetsCarryBytes(x, y, z);
  }

  lemma DecodePadded(q: string)
    requires |q| == 4 && q[1] != '=' && q[2] != '=' && Unquad(q).Ok?
    ensures q[2..] == "AA" ==> Decode(q[..2] + "==") == Ok([Unquad(q).value.0])
    ensures q[3..] == "A" ==> Decode(q[..3] + "=") == Ok([Unquad(q).value.0, Unquad(q).value.1])
  {
    var one, two := q[..2] + "==", q[..3] + "=";
    assert one[2..] == "==" && one[..2] == q[..2];
    assert two[3..] == "=" && two[..3] == q[..3] && two[2..][0] != '=';
    assert q == q[..2] + q[2..] == q[..3] + q[3..];
  }

  lemma DecodeGroup(x: byte, y: byte, z: byte, rest: string)
    requires Decode(rest).Ok?
    ensures Decode(Quad(x, y, z) + rest) == Ok([x, y, z] + Decode(rest).value)
  {
    UnquadInvertsQuad(x, y, z);
    var q := Quad(x, y, z);
    var t := q + rest;
    assert t[2..][0] == q[2] && t[3..][0] == q[3];
    assert t[..4] == q && t[4..] == rest;
  }

  lemma DecodeLastGroup(x: byte, y: byte)
    ensures Decode(Quad(x, 0, 0)[..2] + "==") == Ok([x])
    ensures Decode(Quad(x, y, 0)[..3] + "=") == Ok([x, y])
  {
    UnquadInvertsQuad(x, 0, 0);
    UnquadInvertsQuad(x, y, 0);
    assert Quad(x, 0, 0)[2..] == "AA" && Quad(x, y, 0)[3..] == "A" by {
      assert Digit(0) == 'A';
    }
    DecodePadded(Quad(x, 0, 0));
    DecodePadded(Quad(x, y, 0));
  }

  lemma DecodePair(s: Bytes)
    requires |s| == 2
    ensures Decode(Encode(s)) == Ok(s)
  {
    DecodeLastGroup(s[0], s[1]);
    assert s == [s[0], s[1]];
  }

  /** `e` stands for the encoding of `s[3..]`, kept abstract so that it is not unfolded. */
  lemma DecodeLongest(s: Bytes, e: string)
    requires |s| >= 3 && Decode(e) == Ok(s[3..])
    ensures Decode(Quad(s[0], s[1], s[2]) + e) == Ok(s)
  {
    DecodeGroup(s[0], s[1], s[2], e);
    assert s == [s[0], s[1], s[2]] + s[3..];
  }

  lemma {:induction false} DecodeInvertsEncode(s: Bytes)
    ensures Decode(Encode(s)) == Ok(s)
  {
    if |s| == 1 {
      DecodeLastGroup(s[0], s[0]);
      assert s == [s[0]];
    } else if |s| == 2 {
      DecodePair(s);
    } else if |s| > 2 {
      DecodeInvertsEncode(s[3..]);
      DecodeLongest(s, Encode(s[3..]));
    }
  }

  /** Decoding gives fewer bytes than the text has characters. */
  lemma {:induction false} DecodeShrinks(t: string)
    requires t != "" && Decode(t).Ok?
    ensures |Decode(t).value| < |t|
  {
    if t[2..] != "==" && t[3..] != "=" && |t| > 4 {
      DecodeShrinks(t[4..]);
    }
  }

  /** The corners of the alphabet (table 1 of RFC 4648). */
  lemma Alphabet()
    ensures Digit(0) == 'A' && Digit(25) == 'Z' && Digit(26) == 'a' && Digit(51) == 'z'
    ensures Digit(52) == '0' && Digit(61) == '9' && Digit(62) == '+' && Digit(63) == '/'
  {
  }

  /** Four digits are the bits of three bytes, most significant first. */
  lemma QuadIsBigEndian(x: byte, y: byte, z: byte)
    ensures forall i :: 0 <= i < 4 ==> ValueOf(Quad(x, y, z)[i]).Ok?
    ensures var q := Quad(x, y, z);
      64 * 64 * 64 * ValueOf(q[0]).value + 64 * 64 * ValueOf(q[1]).value
      + 64 * ValueOf(q[2]).value + ValueOf(q[3]).value
      == 256 * 256 * x as int + 256 * y as int + z as int
  {
    var q := Quad(x, y, z);
    assert ValueOf(q[0]) == Ok(x / 4) && ValueOf(q[1]) == Ok(x % 4 * 16 + y / 16);
    assert ValueOf(q[2]) == Ok(y % 16 * 4 + z / 64) && ValueOf(q[3]) == Ok(z % 64);
  }

  /** Three bytes, or what is left of them, take four characters. */
  lemma {:induction false} EncodedLength(s: Bytes)
    ensures |Encode(s)| == (|s| + 2) / 3 * 4
  {
    if |s| > 2 {
      EncodedLength(s[3..]);
    }
  }
}
