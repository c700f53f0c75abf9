/** The collateral cache of the quote verifier: revocation lists in whatever form they were stored. */
module Collateral {
  import opened Common
  import opened Json
  import opened Text
  import Base64

  /** PEM blocks (tag and contents) and standard Base64. */
  datatype Library = Library(pem: string -> Option<seq<(string, Bytes)>>, base64: string -> Option<Bytes>)

  // ---- DER elements ----

  /** The length a DER sequence declares for itself, header included. */
  function DerTotalLen(b: Bytes): Option<nat> {
    if |b| < 2 || b[0] != 0x30 then None
    else if b[1] == 0x81 && |b| >= 3 then Some(3 + b[2] as int)
    else if b[1] == 0x82 && |b| >= 4 then Some(4 + (b[2] as int * 256 + b[3]))
    else if b[1] < 0x80 then Some(2 + b[1] as int)
    else None
  }

  predicate LooksLikeDer(b: Bytes) {
    DerTotalLen(b) == Some(|b|)
  }

  predicate DeclaredFits(b: Bytes) {
    DerTotalLen(b).Some? && DerTotalLen(b).value <= |b|
  }

  function Trimmed(b: Bytes): Bytes {
    if DeclaredFits(b) then b[..DerTotalLen(b).value] else b
  }

  /** The forms of length octets (section 8.1.3 of ITU-T X.690) that the cache understands: one octet,
      or one or two octets after their count. */
  datatype LengthForm = Short | Long1 | Long2

  predicate Fits(form: LengthForm, n: nat) {
    n < match form case Short => 0x80 case Long1 => 0x100 case Long2 => 0x1_0000
  }

  function LengthOctets(form: LengthForm, n: nat): Bytes
    requires Fits(form, n)
  {
    match form
    case Short => [n]
    case Long1 => [0x81, n]
    case Long2 => [0x82, n / 256, n % 256]
  }

  /** A sequence element: identifier, length, contents. */
  function Element(form: LengthForm, contents: Bytes): Bytes
    requires Fits(form, |contents|)
  {
    [0x30] + LengthOctets(form, |contents|) + contents
  }

  lemma ElementTotal(form: LengthForm, contents: Bytes, rest: Bytes)
    requires Fits(form, |contents|)
    ensures DerTotalLen(Element(form, contents) + rest) == Some(|Element(form, contents)|)
  {
    var b := Element(form, contents) + rest;
    var n := |contents|;
    match form
    case Short => assert b[0] == 0x30 && b[1] == n;
    case Long1 => assert b[0] == 0x30 && b[1] == 0x81 && b[2] == n;
    case Long2 => assert b[0] == 0x30 && b[1] == 0x82 && b[2] == n / 256 && b[3] == n % 256;
  }

  /** A declared length that fits is that of one element at the front. */
  lemma DeclaredIsElement(b: Bytes) returns (form: LengthForm, contents: Bytes)
    requires DeclaredFits(b)
    ensures Fits(form, |contents|) && Trimmed(b) == Element(form, contents)
  {
    var total := DerTotalLen(b).value;
    if b[1] == 0x81 {
      form, contents := Long1, b[3..total];
      assert Trimmed(b) == [0x30] + [0x81, b[2]] + b[3..total];
    } else if b[1] == 0x82 {
      form, contents := Long2, b[4..total];
      assert Trimmed(b) == [0x30] + [0x82, b[2], b[3]] + b[4..total];
    } else {
      form, contents := Short, b[2..total];
      assert Trimmed(b) == [0x30] + [b[1]] + b[2..total];
    }
  }

  /** What looks like DER is exactly one element, and the other way round. */
  lemma LooksIffElement(b: Bytes)
    ensures LooksLikeDer(b) <==> IsElement(b)
  {
    if LooksLikeDer(b) {
      var form, contents := DeclaredIsElement(b);
      assert Trimmed(b) == b;
    }
    if IsElement(b) {
      var form, contents :| Fits(form, |contents|) && b == Element(form, contents);
      ElementTotal(form, contents, []);
      assert b + [] == b;
    }
  }

  ghost predicate IsElement(b: Bytes) {
    exists form, contents :: Fits(form, |contents|) && b == Element(form, contents)
  }

  /** Trimming cuts whatever follows an element, and leaves nothing that looks whole otherwise. */
  lemma TrimmedIsWhole(b: Bytes)
    ensures LooksLikeDer(Trimmed(b)) <==> DeclaredFits(b)
    ensures Trimmed(Trimmed(b)) == Trimmed(b)
  {
    if DeclaredFits(b) {
      var form, contents := DeclaredIsElement(b);
      ElementTotal(form, contents, []);
      assert Element(form, contents) + [] == Element(form, contents);
    }
  }

  // ---- Decoding ----

  function DecodeHexString(s: string): Option<Bytes> {
    var filtered := Solid(s);
    if filtered == "" || |filtered| % 2 != 0 || exists i :: 0 <= i < |filtered| && !IsHexDigit(filtered[i])
    then None else Some(Unhex(filtered))
  }

  function DecodeBase64String(lib: Library, s: string): Option<Bytes> {
    var filtered := Solid(s);
    if filtered == "" then None
    else match lib.base64(filtered)
      case Some(b) => if b != [] && b[0] == 0x30 then Some(b) else None
      case None => None
  }

  predicate OccursAt(s: string, part: string, i: nat) {
    i + |part| <= |s| && s[i..i + |part|] == part
  }

  predicate Contains(s: string, part: string) {
    exists i :: 0 <= i <= |s| && OccursAt(s, part, i)
  }

  predicate IsCrlTag(tag: string) {
    tag == "X509 CRL" || tag == "CRL"
  }

  function FirstCrl(blocks: seq<(string, Bytes)>): Option<Bytes> {
    if blocks == [] then None
    else if IsCrlTag(blocks[0].0) then Some(blocks[0].1)
    else FirstCrl(blocks[1..])
  }

  function DecodePemCrl(lib: Library, s: string): Option<Bytes> {
    if !Contains(s, "BEGIN") then None
    else match lib.pem(s)
      case Some(blocks) => FirstCrl(blocks)
      case None => None
  }

  function DecodeText(lib: Library, s: string): Option<Bytes> {
    var p := DecodePemCrl(lib, s);
    if p.Some? then p
    else
      var h := DecodeHexString(s);
      if h.Some? then h else DecodeBase64String(lib, s)
  }

  function DecodeNumbers(items: seq<Json>): Option<Bytes> {
    if items == [] then Some([])
    else
      var n := |items| - 1;
      match DecodeNumbers(items[..n])
      case None => None
      case Some(before) =>
        if items[n].Num? && 0 <= items[n].number <= 255 then Some(before + [items[n].number]) else None
  }

  function DecodeBytesValue(lib: Library, v: Json): Option<Bytes> {
    match v
    case Str(s) => DecodeText(lib, s)
    case Arr(items) => DecodeNumbers(items)
    case _ => None
  }

  method FindCrl(blocks: seq<(string, Bytes)>) returns (r: Option<Bytes>)
    ensures r == FirstCrl(blocks)
  {
    for i := 0 to |blocks|
      invariant FirstCrl(blocks) == FirstCrl(blocks[i..])
    {
      var tag := blocks[i].0;
      if IsCrlTag(tag) {
        return Some(blocks[i].1);
      }
    }
    return None;
  }

  method ReadNumbers(items: seq<Json>) returns (r: Option<Bytes>)
    ensures r == DecodeNumbers(items)
  {
    var out: Bytes := [];
    for i := 0 to |items|
      invariant DecodeNumbers(items[..i]) == Some(out)
    {
      var v := items[i];
      assert items[..i + 1][..i] == items[..i];
      if !v.Num? || v.number < 0 || v.number > 255 {
        NoNumbers(items, i + 1);
        return None;
      }
      out := out + [v.number];
    }
    assert items[..|items|] == items;
    return Some(out);
  }

  lemma {:induction false} NoNumbers(items: seq<Json>, i: nat)
    requires i <= |items| && DecodeNumbers(items[..i]).None?
    ensures DecodeNumbers(items).None?
    decreases |items|
  {
    if i == |items| {
      assert items[..i] == items;
    } else {
      assert items[..|items| - 1][..i] == items[..i];
      NoNumbers(items[..|items| - 1], i);
    }
  }

  // ---- Normal form ----

  function DecodeCrlBytes(lib: Library, b: Bytes): Option<Bytes> {
    match FromUtf8(b)
    case Some(s) => DecodeText(lib, s)
    case None => None
  }

  function Normalized(lib: Library, b: Bytes): Bytes {
    match DecodeCrlBytes(lib, b)
    case Some(decoded) => decoded
    case None => b
  }

  function NormalizedAndTrimmed(lib: Library, b: Bytes): Bytes {
    Trimmed(Normalized(lib, b))
  }

  /** A byte vector changed in place. */
  class ByteVec {
    var bytes: Bytes

    constructor (b: Bytes)
      ensures bytes == b
    {
      bytes := b;
    }

    method NormalizeCrlBytes(lib: Library)
      modifies this
      ensures bytes == Normalized(lib, old(bytes))
    {
      var decoded := DecodeCrlBytes(lib, bytes);
      if decoded.Some? {
        bytes := decoded.value;
      }
    }

    method TrimDerTrailing()
      modifies this
      ensures bytes == Trimmed(old(bytes))
    {
      var total := DerTotalLen(bytes);
      if total.Some? && total.value <= |bytes| && total.value > 0 {
        bytes := bytes[..total.value];
      }
    }
  }

  /** The stored form that starts with a long length: no UTF-8 text starts like this. */
  predicate LongForm(b: Bytes) {
    |b| >= 2 && b[0] == 0x30 && (b[1] == 0x81 || b[1] == 0x82)
  }

  lemma LongFormIsNoText(lib: Library, b: Bytes)
    requires LongForm(b)
    ensures DecodeCrlBytes(lib, b).None? && Normalized(lib, b) == b
  {
    assert FirstChar(b) == Some(('0', 1));
    assert FirstChar(b[1..]).None?;
    assert FromUtf8(b[1..]).None?;
  }

  /** For everything that decodes to the long form, normalising and trimming is idempotent, and what
      it gives is whole exactly if the declared length fits. */
  lemma NormalFormIsStable(lib: Library, b: Bytes)
    requires LongForm(Normalized(lib, b))
    ensures var r := NormalizedAndTrimmed(lib, b);
      && NormalizedAndTrimmed(lib, r) == r
      && LongForm(r)
      && (LooksLikeDer(r) <==> DeclaredFits(Normalized(lib, b)))
  {
    var n := Normalized(lib, b);
    TrimmedIsWhole(n);
    assert LongForm(Trimmed(n));
    LongFormIsNoText(lib, Trimmed(n));
  }

  // ---- When normalising is stable ----

  /** Base64 is that of section 4 of RFC 4648, or stricter; what PEM blocks hold is shorter than the text. */
  ghost predicate Standard(lib: Library) {
    && (forall s :: lib.base64(s).Some? ==> Base64.Decode(s) == Ok(lib.base64(s).value))
    && (forall s :: lib.pem(s).Some? ==>
          forall i :: 0 <= i < |lib.pem(s).value| ==> |lib.pem(s).value[i].1| < |s|)
  }

  /** The first block with one of the two tags, by position. */
  lemma {:induction false} FirstCrlIs(blocks: seq<(string, Bytes)>) returns (i: nat)
    ensures FirstCrl(blocks).None? <==> i == |blocks|
    ensures i < |blocks| ==>
      (blocks[i].0 == "X509 CRL" || blocks[i].0 == "CRL") && FirstCrl(blocks) == Some(blocks[i].1)
    ensures i <= |blocks|
    ensures forall j :: 0 <= j < i ==> blocks[j].0 != "X509 CRL" && blocks[j].0 != "CRL"
  {
    if blocks == [] || IsCrlTag(blocks[0].0) {
      i := 0;
    } else {
      i := FirstCrlIs(blocks[1..]);
      i := i + 1;
      assert forall j :: 1 <= j < i ==> blocks[j] == blocks[1..][j - 1];
    }
  }

  lemma HexShrinks(s: string)
    requires DecodeHexString(s).Some?
    ensures |DecodeHexString(s).value| < |s|
  {
    SolidIsNoLonger(s);
    UnhexHalves(Solid(s));
  }

  /** Text decodes to fewer bytes than it has characters. */
  lemma TextShrinks(lib: Library, s: string)
    requires Standard(lib) && DecodeText(lib, s).Some?
    ensures |DecodeText(lib, s).value| < |s|
  {
    if DecodePemCrl(lib, s).Some? {
      var i := FirstCrlIs(lib.pem(s).value);
    } else if DecodeHexString(s).Some? {
      HexShrinks(s);
    } else {
      SolidIsNoLonger(s);
      Base64.DecodeShrinks(Solid(s));
    }
  }

  /** Normalising leaves bytes alone exactly if they are not text that decodes, and otherwise makes
      them fewer. */
  lemma NormalizedShrinks(lib: Library, b: Bytes)
    requires Standard(lib)
    ensures DecodeCrlBytes(lib, b).None? ==> Normalized(lib, b) == b
    ensures DecodeCrlBytes(lib, b).Some? ==> |NormalizedAndTrimmed(lib, b)| < |b|
  {
    if DecodeCrlBytes(lib, b).Some? {
      TextIsNoLonger(b);
      TextShrinks(lib, FromUtf8(b).value);
    }
  }

  /** A result of normalise-then-trim is stable exactly if it is not text that decodes once more. */
  lemma StableIff(lib: Library, b: Bytes)
    requires Standard(lib)
    ensures var r := NormalizedAndTrimmed(lib, b);
      NormalizedAndTrimmed(lib, r) == r <==> DecodeCrlBytes(lib, r).None?
  {
    TrimmedIsWhole(Normalized(lib, b));
    NormalizedShrinks(lib, NormalizedAndTrimmed(lib, b));
  }

  /** Hexadecimal text decodes to its bytes, unless there are none. */
  lemma HexText(lib: Library, b: Bytes)
    ensures DecodeText(lib, Hex(b)) == if b == [] then None else Some(b)
  {
    NoBegin(Hex(b));
    SolidStays(Hex(b));
    UnhexInvertsHex(b);
  }

  lemma NoBegin(t: string)
    requires forall i :: 0 <= i < |t| ==> t[i] != 'B'
    ensures !Contains(t, "BEGIN")
  {
    forall i | 0 <= i <= |t| ensures !OccursAt(t, "BEGIN", i) {
      if i + 5 <= |t| {
        assert t[i..i + 5][0] == t[i];
      }
    }
  }

  /** A list stored as hexadecimal text is normalised to its bytes. */
  lemma HexFileIsNormalized(lib: Library, b: Bytes)
    requires b != []
    ensures IsAscii(Hex(b)) && Normalized(lib, AsciiBytes(Hex(b))) == b
  {
    AsciiIsUtf8(Hex(b));
    HexText(lib, b);
  }

  lemma HexOf30()
    ensures Hex([0x30, 0x30]) == "3030" && Hex([0]) == "00"
  {
    assert HexDigit(3) == '3' && HexDigit(0) == '0';
    assert [0x30, 0x30][1..] == [0x30] && [0x30][1..] == [];
    assert Hex([0x30]) == "30";
  }

  /** The short form can be text: the two bytes 30 30 are the digits 00 and decode once more. */
  lemma ShortFormIsNotStable(lib: Library)
    ensures var b: Bytes := [0x33, 0x30, 0x33, 0x30];
      NormalizedAndTrimmed(lib, b) == [0x30, 0x30] && NormalizedAndTrimmed(lib, [0x30, 0x30]) == [0]
  {
    HexOf30();
    HexFileIsNormalized(lib, [0x30, 0x30]);
    HexFileIsNormalized(lib, [0]);
    assert AsciiBytes(Hex([0x30, 0x30])) == [0x33, 0x30, 0x33, 0x30];
    assert AsciiBytes(Hex([0])) == [0x30, 0x30];
  }

  lemma {:induction false} HexOfZeros(zeros: Bytes, digits: string)
    requires digits == Hex(zeros) && forall i :: 0 <= i < |zeros| ==> zeros[i] == 0
    ensures forall i :: 0 <= i < |digits| ==> digits[i] == '0'
  {
    if zeros != [] {
      var rest := Hex(zeros[1..]);
      HexOfZeros(zeros[1..], rest);
      assert HexDigit(0) == '0' && digits == ['0', '0'] + rest;
    }
  }

  /** Even a whole element of the short form can be text: fifty bytes 30 declare their own length, and
      normalising takes them for the digits of twenty-five zeros. */
  lemma WholeShortFormCanBeText(lib: Library)
    ensures var b: Bytes := seq(50, _ => 0x30);
      LooksLikeDer(b) && Normalized(lib, b) == seq(25, _ => 0) && !LooksLikeDer(NormalizedAndTrimmed(lib, b))
  {
    var zeros: Bytes := seq(25, _ => 0);
    HexOfZeros(zeros, Hex(zeros));
    HexFileIsNormalized(lib, zeros);
    var b: Bytes := seq(50, _ => 0x30);
    assert AsciiBytes(Hex(zeros)) == b;
  }

  // ---- Which form a text is taken for ----

  /** A text contains another one exactly if it is that one with something before and after it. */
  lemma ContainsIff(s: string, part: string)
    ensures Contains(s, part) <==> exists a: string, b: string :: s == a + part + b
  {
    if Contains(s, part) {
      var i :| 0 <= i <= |s| && OccursAt(s, part, i);
      Around(s, part, i);
    }
    if a: string, b: string :| s == a + part + b {
      assert s[|a|..|a| + |part|] == part;
      assert OccursAt(s, part, |a|);
    }
  }

  lemma Around(s: string, part: string, i: nat)
    requires OccursAt(s, part, i)
    ensures exists a: string, b: string :: s == a + part + b
  {
    assert s == s[..i] + part + s[i + |part|..];
  }

  /** PEM goes first: the first list among the blocks, if there is one. */
  lemma PemText(lib: Library, s: string, i: nat)
    requires Contains(s, "BEGIN") && lib.pem(s).Some? && i < |lib.pem(s).value|
    requires lib.pem(s).value[i].0 == "X509 CRL" || lib.pem(s).value[i].0 == "CRL"
    requires forall j :: 0 <= j < i ==> lib.pem(s).value[j].0 != "X509 CRL" && lib.pem(s).value[j].0 != "CRL"
    ensures DecodeText(lib, s) == Some(lib.pem(s).value[i].1)
  {
    var k := FirstCrlIs(lib.pem(s).value);
    assert k == i;
  }

  /** Then hexadecimal digits, an even number of them and at least two; then Base64 of something that
      starts like a sequence. White space does not count. */
  lemma OtherText(lib: Library, s: string)
    requires !Contains(s, "BEGIN")
    ensures var solid := Solid(s);
      var hex := solid != "" && |solid| % 2 == 0 && forall i :: 0 <= i < |solid| ==> IsHexDigit(solid[i]);
      && (hex ==> DecodeText(lib, s).Some? && |DecodeText(lib, s).value| == |solid| / 2)
      && (hex ==> forall i :: 0 <= i < |solid| / 2 ==>
            DecodeText(lib, s).value[i] as int == 16 * HexValue(solid[2 * i]) + HexValue(solid[2 * i + 1]))
      && (!hex ==> forall b ::
            DecodeText(lib, s) == Some(b) <==> solid != "" && lib.base64(solid) == Some(b) && b != [] && b[0] == 0x30)
  {
    var solid := Solid(s);
    if solid != "" && |solid| % 2 == 0 && forall i :: 0 <= i < |solid| ==> IsHexDigit(solid[i]) {
      UnhexHalves(solid);
      forall i | 0 <= i < |solid| / 2
        ensures Unhex(solid)[i] as int == 16 * HexValue(solid[2 * i]) + HexValue(solid[2 * i + 1])
      {
        UnhexAt(solid, i);
      }
    }
  }

  /** An array of numbers is the bytes with these values, and nothing else is. */
  lemma {:induction false} NumbersIff(items: seq<Json>, b: Bytes)
    ensures DecodeNumbers(items) == Some(b) <==>
      |items| == |b| && forall i :: 0 <= i < |items| ==> items[i] == Num(b[i])
    decreases |items|
  {
    if items != [] && b != [] {
      var n, m := |items| - 1, |b| - 1;
      NumbersIff(items[..n], b[..m]);
      if DecodeNumbers(items) == Some(b) {
        var before := DecodeNumbers(items[..n]).value;
        Split(before, [items[n].number]);
        assert b[..m] == before;
      }
      if |items| == |b| && forall i :: 0 <= i < |items| ==> items[i] == Num(b[i]) {
        assert b == b[..m] + [b[m]];
      }
    }
  }
}
