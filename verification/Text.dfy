/** Bytes as text: UTF-8, white space and hexadecimal digits. */
module Text {
  import opened Common

  predicate Tail(b: byte) {
    0x80 <= b < 0xC0
  }

  /** The low bits of a tail byte. */
  function Low(b: byte): int {
    b as int - 0x80
  }

  /** The character a UTF-8 sequence starts with and its length (table 3-7 of the Unicode standard). */
  function FirstChar(s: Bytes): (r: Option<(char, nat)>)
    ensures r.Some? ==> 1 <= r.value.1 <= |s|
  {
    if s == [] then None
    else
      var lead := s[0] as int;
      if lead < 0x80 then Some((lead as char, 1))
      else if |s| >= 2 && 0xC2 <= lead <= 0xDF && Tail(s[1]) then
        Some((((lead - 0xC0) * 64 + Low(s[1])) as char, 2))
      else if |s| >= 3 && 0xE0 <= lead <= 0xEF && Tail(s[1]) && Tail(s[2])
              && (lead == 0xE0 ==> 0xA0 <= s[1]) && (lead == 0xED ==> s[1] < 0xA0) then
        Some((((lead - 0xE0) * 4096 + Low(s[1]) * 64 + Low(s[2])) as char, 3))
      else if |s| >= 4 && 0xF0 <= lead <= 0xF4 && Tail(s[1]) && Tail(s[2]) && Tail(s[3])
              && (lead == 0xF0 ==> 0x90 <= s[1]) && (lead == 0xF4 ==> s[1] < 0x90) then
        Some((((lead - 0xF0) * 262144 + Low(s[1]) * 4096 + Low(s[2]) * 64 + Low(s[3])) as char, 4))
      else None
  }

  /** The text a byte string encodes, if it is UTF-8. */
  function FromUtf8(s: Bytes): Option<string>
    decreases |s|
  {
    if s == [] then Some("")
    else match FirstChar(s)
      case None => None
      case Some((c, n)) =>
        match FromUtf8(s[n..])
        case None => None
        case Some(rest) => Some([c] + rest)
  }

  /** A text has no more characters than its bytes. */
  lemma {:induction false} TextIsNoLonger(s: Bytes)
    requires FromUtf8(s).Some?
    ensures |FromUtf8(s).value| <= |s|
    decreases |s|
  {
    if s != [] {
      TextIsNoLonger(s[FirstChar(s).value.1..]);
    }
  }

  /** A character in UTF-8. */
  function Utf8(c: char): (s: Bytes)
    ensures s != []
  {
    var v := c as int;
    if v < 0x80 then [v]
    else if v < 0x800 then [0xC0 + v / 64, 0x80 + v % 64]
    else if v < 0x1_0000 then [0xE0 + v / 4096, 0x80 + v / 64 % 64, 0x80 + v % 64]
    else [0xF0 + v / 262144, 0x80 + v / 4096 % 64, 0x80 + v / 64 % 64, 0x80 + v % 64]
  }

  function ToUtf8(t: string): Bytes {
    if t == "" then [] else Utf8(t[0]) + ToUtf8(t[1..])
  }

  /** Six bits at a time. */
  lemma Sextets(v: nat)
    ensures v == 64 * (v / 64) + v % 64
    ensures v / 64 == 64 * (v / 4096) + v / 64 % 64
    ensures v / 4096 == 64 * (v / 262144) + v / 4096 % 64
  {
    assert v / 4096 == v / 64 / 64 && v / 262144 == v / 4096 / 64;
  }

  lemma Together(a: nat, b: nat, c: nat, d: nat)
    requires b < 64 && c < 64 && d < 64
    ensures var v := 262144 * a + 4096 * b + 64 * c + d;
      v % 64 == d && v / 64 % 64 == c && v / 4096 % 64 == b && v / 262144 == a
  {
    var v := 262144 * a + 4096 * b + 64 * c + d;
    assert v / 64 == 4096 * a + 64 * b + c;
    assert v / 4096 == v / 64 / 64 == 64 * a + b;
    assert v / 262144 == v / 4096 / 64 == a;
  }

  lemma FirstCharOf(c: char, rest: Bytes)
    ensures FirstChar(Utf8(c) + rest) == Some((c, |Utf8(c)|))
  {
    var v, s := c as int, Utf8(c) + rest;
    Sextets(v);
    if v < 0x80 {
      assert s[0] == v;
    } else if v < 0x800 {
      assert s[0] == 0xC0 + v / 64 && s[1] == 0x80 + v % 64;
    } else if v < 0x1_0000 {
      assert s[0] == 0xE0 + v / 4096 && s[1] == 0x80 + v / 64 % 64 && s[2] == 0x80 + v % 64;
      assert (s[0] - 0xE0) as int * 4096 + Low(s[1]) * 64 + Low(s[2]) == v;
    } else {
      assert s[0] == 0xF0 + v / 262144 && s[1] == 0x80 + v / 4096 % 64;
      assert s[2] == 0x80 + v / 64 % 64 && s[3] == 0x80 + v % 64;
      assert (s[0] - 0xF0) as int * 262144 + Low(s[1]) * 4096 + Low(s[2]) * 64 + Low(s[3]) == v;
    }
  }

  lemma FirstCharEncodes(s: Bytes)
    requires FirstChar(s).Some?
    ensures Utf8(FirstChar(s).value.0) == s[..FirstChar(s).value.1]
  {
    var (c, n) := FirstChar(s).value;
    if n == 2 {
      Together(0, 0, s[0] - 0xC0, s[1] - 0x80);
    } else if n == 3 {
      Together(0, s[0] - 0xE0, s[1] - 0x80, s[2] - 0x80);
    } else if n == 4 {
      Together(s[0] - 0xF0, s[1] - 0x80, s[2] - 0x80, s[3] - 0x80);
    }
  }

  /** Every text reads back from its UTF-8 form. */
  lemma {:induction false} TextReadsBack(t: string)
    ensures FromUtf8(ToUtf8(t)) == Some(t)
  {
    if t != "" {
      TextReadsBack(t[1..]);
      FirstCharOf(t[0], ToUtf8(t[1..]));
      Split(Utf8(t[0]), ToUtf8(t[1..]));
      HeadTail(t);
    }
  }

  /** And what reads as text is the UTF-8 form of that text, and of no other. */
  lemma {:induction false} BytesReadBack(s: Bytes)
    requires FromUtf8(s).Some?
    ensures ToUtf8(FromUtf8(s).value) == s
    decreases |s|
  {
    if s != [] {
      var n := FirstChar(s).value.1;
      FirstCharEncodes(s);
      BytesReadBack(s[n..]);
      Split([FirstChar(s).value.0], FromUtf8(s[n..]).value);
      Rejoin(s, n);
    }
  }

  predicate IsAscii(t: string) {
    forall i :: 0 <= i < |t| ==> t[i] as int < 0x80
  }

  function AsciiBytes(t: string): Bytes
    requires IsAscii(t)
  {
    seq(|t|, i requires 0 <= i < |t| => t[i] as byte)
  }

  lemma {:induction false} AsciiIsUtf8(t: string)
    requires IsAscii(t)
    ensures FromUtf8(AsciiBytes(t)) == Some(t)
  {
    if t != "" {
      AsciiIsUtf8(t[1..]);
      assert AsciiBytes(t)[1..] == AsciiBytes(t[1..]);
      HeadTail(t);
    }
  }

  // ---- White space ----

  predicate IsWhitespace(c: char) {
    var v := c as int;
    || 0x9 <= v <= 0xD || v == 0x20 || v == 0x85 || v == 0xA0 || v == 0x1680 || 0x2000 <= v <= 0x200A
    || v == 0x2028 || v == 0x2029 || v == 0x202F || v == 0x205F || v == 0x3000
  }

  function Solid(t: string): string {
    if t == "" then "" else (if IsWhitespace(t[0]) then "" else [t[0]]) + Solid(t[1..])
  }

  lemma {:induction false} SolidIsNoLonger(t: string)
    ensures |Solid(t)| <= |t|
  {
    if t != "" {
      SolidIsNoLonger(t[1..]);
    }
  }

  lemma {:induction false} SolidStays(t: string)
    requires forall i :: 0 <= i < |t| ==> !IsWhitespace(t[i])
    ensures Solid(t) == t
  {
    if t != "" {
      SolidStays(t[1..]);
      HeadTail(t);
    }
  }

  // ---- Hexadecimal ----

  predicate IsHexDigit(c: char) {
    '0' <= c <= '9' || 'a' <= c <= 'f' || 'A' <= c <= 'F'
  }

  function HexValue(c: char): (v: nat)
    requires IsHexDigit(c)
    ensures v < 16
  {
    if c <= '9' then (c - '0') as nat
    else if c <= 'F' then (c - 'A') as nat + 10
    else (c - 'a') as nat + 10
  }

  function HexDigit(v: nat): (c: char)
    requires v < 16
    ensures IsHexDigit(c) && HexValue(c) == v && c as int < 0x80 && c != 'B' && !IsWhitespace(c)
  {
    if v < 10 then '0' + v as char else 'a' + (v - 10) as char
  }

  /** Two lower-case digits per byte. */
  function Hex(s: Bytes): (t: string)
    ensures |t| == 2 * |s|
    ensures forall i :: 0 <= i < |t| ==>
      IsHexDigit(t[i]) && t[i] as int < 0x80 && t[i] != 'B' && !IsWhitespace(t[i])
  {
    if s == [] then "" else [HexDigit(s[0] / 16), HexDigit(s[0] % 16)] + Hex(s[1..])
  }

  function Unhex(t: string): Bytes
    requires |t| % 2 == 0 && forall i :: 0 <= i < |t| ==> IsHexDigit(t[i])
  {
    if t == "" then [] else [HexValue(t[0]) * 16 + HexValue(t[1])] + Unhex(t[2..])
  }

  lemma {:induction false} UnhexHalves(t: string)
    requires |t| % 2 == 0 && forall i :: 0 <= i < |t| ==> IsHexDigit(t[i])
    ensures 2 * |Unhex(t)| == |t|
  {
    if t != "" {
      UnhexHalves(t[2..]);
    }
  }

  lemma {:induction false} UnhexAt(t: string, i: nat)
    requires |t| % 2 == 0 && (forall k :: 0 <= k < |t| ==> IsHexDigit(t[k])) && 2 * i + 1 < |t|
    ensures |Unhex(t)| > i && Unhex(t)[i] as int == 16 * HexValue(t[2 * i]) + HexValue(t[2 * i + 1])
  {
    if i > 0 {
      UnhexAt(t[2..], i - 1);
    }
  }

  lemma {:induction false} UnhexInvertsHex(s: Bytes)
    ensures Unhex(Hex(s)) == s
  {
    if s != [] {
      UnhexInvertsHex(s[1..]);
      UnhexStep(s[0], Hex(s[1..]));
      HeadTail(s);
    }
  }

  lemma UnhexStep(b: byte, rest: string)
    requires |rest| % 2 == 0 && forall i :: 0 <= i < |rest| ==> IsHexDigit(rest[i])
    ensures var t := [HexDigit(b / 16), HexDigit(b % 16)] + rest;
      (forall i :: 0 <= i < |t| ==> IsHexDigit(t[i])) && Unhex(t) == [b] + Unhex(rest)
  {
    Split([HexDigit(b / 16), HexDigit(b % 16)], rest);
  }

  /** Digits of both cases read as their value; no other character does. */
  lemma HexDigits(v: nat)
    requires v < 16
    ensures IsHexDigit("0123456789abcdef"[v]) && HexValue("0123456789abcdef"[v]) == v
    ensures IsHexDigit("0123456789ABCDEF"[v]) && HexValue("0123456789ABCDEF"[v]) == v
    ensures HexDigit(v) == "0123456789abcdef"[v]
  {
  }

  lemma NoOtherHexDigits(c: char)
    requires IsHexDigit(c)
    ensures c == "0123456789abcdef"[HexValue(c)] || c == "0123456789ABCDEF"[HexValue(c)]
  {
  }

  /** The white space of Unicode. */
  lemma WhitespaceIs(c: char)
    ensures IsWhitespace(c) <==>
      c as int in {0x9, 0xA, 0xB, 0xC, 0xD, 0x20, 0x85, 0xA0, 0x1680, 0x2000, 0x2001, 0x2002, 0x2003, 0x2004, 0x2005,
                   0x2006, 0x2007, 0x2008, 0x2009, 0x200A, 0x2028, 0x2029, 0x202F, 0x205F, 0x3000}
  {
  }

  /** White space anywhere does not matter, and nothing else is dropped. */
  lemma {:induction false} SolidIs(a: string, b: string)
    ensures Solid(a + b) == Solid(a) + Solid(b)
    ensures |a| == 1 ==> Solid(a) == if IsWhitespace(a[0]) then "" else a
  {
    if a == "" {
      assert a + b == b;
    } else {
      assert (a + b)[0] == a[0] && (a + b)[1..] == a[1..] + b;
      SolidIs(a[1..], b);
    }
  }
}
