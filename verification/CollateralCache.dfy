/** Reading collateral back from its cache file. */
module CollateralCache {
  import opened Common
  import opened Json
  import opened Text
  import opened Collateral

  datatype QuoteCollateral = QuoteCollateral(
    pckCrlIssuerChain: string, rootCaCrl: Bytes, pckCrl: Bytes,
    tcbInfoIssuerChain: string, tcbInfo: string, tcbInfoSignature: Bytes,
    qeIdentityIssuerChain: string, qeIdentity: string, qeIdentitySignature: Bytes,
    pckCertificateChain: Option<string>)

  function TextAt(v: Json, name: string): Option<string> {
    match Field(v, name)
    case Some(Str(s)) => Some(s)
    case _ => None
  }

  function BytesAt(lib: Library, v: Json, name: string): Option<Bytes> {
    match Field(v, name)
    case Some(f) => DecodeBytesValue(lib, f)
    case None => None
  }

  /** A stored list is the element at the front of its decoded bytes. */
  function CrlIn(lib: Library, stored: Option<Bytes>): Option<Bytes> {
    if stored.Some? && DeclaredFits(Normalized(lib, stored.value))
    then Some(NormalizedAndTrimmed(lib, stored.value)) else None
  }

  function CrlAt(lib: Library, v: Json, name: string): Option<Bytes> {
    CrlIn(lib, BytesAt(lib, v, name))
  }

  /** Collateral of which every part but the last was there. */
  function Assembled(a: Option<string>, b: Option<Bytes>, c: Option<Bytes>, d: Option<string>, e: Option<string>,
                     f: Option<Bytes>, g: Option<string>, h: Option<string>, i: Option<Bytes>, j: Option<string>)
    : Option<QuoteCollateral>
  {
    if a.Some? && b.Some? && c.Some? && d.Some? && e.Some? && f.Some? && g.Some? && h.Some? && i.Some?
    then Some(QuoteCollateral(a.value, b.value, c.value, d.value, e.value, f.value, g.value, h.value, i.value, j))
    else None
  }

  /** What the contents of a cache file mean. */
  function Cached(lib: Library, v: Json): Option<QuoteCollateral> {
    Assembled(
      TextAt(v, "pck_crl_issuer_chain"), CrlAt(lib, v, "root_ca_crl"), CrlAt(lib, v, "pck_crl"),
      TextAt(v, "tcb_info_issuer_chain"), TextAt(v, "tcb_info"), BytesAt(lib, v, "tcb_info_signature"),
      TextAt(v, "qe_identity_issuer_chain"), TextAt(v, "qe_identity"), BytesAt(lib, v, "qe_identity_signature"),
      TextAt(v, "pck_certificate_chain"))
  }

  /** Normalises a list in place, trims it if it does not look whole, and looks again. */
  method RepairCrl(lib: Library, crl: ByteVec) returns (ok: bool)
    modifies crl
    ensures ok <==> CrlIn(lib, Some(old(crl.bytes))).Some?
    ensures ok ==> crl.bytes == CrlIn(lib, Some(old(crl.bytes))).value
  {
    crl.NormalizeCrlBytes(lib);
    TrimmedIsWhole(crl.bytes);
    if !LooksLikeDer(crl.bytes) {
      crl.TrimDerTrailing();
    }
    ok := LooksLikeDer(crl.bytes);
  }

  /** Reads a cache file, given the JSON value in it if there is one. */
  method ReadCache(lib: Library, file: Option<Json>) returns (r: Option<QuoteCollateral>)
    ensures r == match file case Some(v) => Cached(lib, v) case None => None
  {
    if file.None? || !file.value.Obj? { return None; }
    var v := file.value;
    var pckCrlIssuerChain := TextAt(v, "pck_crl_issuer_chain");
    var storedRoot, storedPck := BytesAt(lib, v, "root_ca_crl"), BytesAt(lib, v, "pck_crl");
    var tcbInfoIssuerChain, tcbInfo := TextAt(v, "tcb_info_issuer_chain"), TextAt(v, "tcb_info");
    var tcbInfoSignature := BytesAt(lib, v, "tcb_info_signature");
    var qeIdentityIssuerChain, qeIdentity := TextAt(v, "qe_identity_issuer_chain"), TextAt(v, "qe_identity");
    var qeIdentitySignature := BytesAt(lib, v, "qe_identity_signature");
    if pckCrlIssuerChain.None? || storedRoot.None? || storedPck.None? || tcbInfoIssuerChain.None?
       || tcbInfo.None? || tcbInfoSignature.None? || qeIdentityIssuerChain.None? || qeIdentity.None?
       || qeIdentitySignature.None? {
      return None;
    }
    var rootCaCrl := new ByteVec(storedRoot.value);
    var pckCrl := new ByteVec(storedPck.value);
    var rootOk := RepairCrl(lib, rootCaCrl);
    var pckOk := RepairCrl(lib, pckCrl);
    if !rootOk || !pckOk { return None; }
    return Some(QuoteCollateral(
      pckCrlIssuerChain.value, rootCaCrl.bytes, pckCrl.bytes, tcbInfoIssuerChain.value, tcbInfo.value,
      tcbInfoSignature.value, qeIdentityIssuerChain.value, qeIdentity.value, qeIdentitySignature.value,
      TextAt(v, "pck_certificate_chain")));
  }

  /** Every list that is read is exactly one DER element. */
  lemma CachedListsAreElements(lib: Library, v: Json)
    requires Cached(lib, v).Some?
    ensures IsElement(Cached(lib, v).value.rootCaCrl) && IsElement(Cached(lib, v).value.pckCrl)
  {
    var root, pck := BytesAt(lib, v, "root_ca_crl").value, BytesAt(lib, v, "pck_crl").value;
    TrimmedIsWhole(Normalized(lib, root));
    TrimmedIsWhole(Normalized(lib, pck));
    LooksIffElement(NormalizedAndTrimmed(lib, root));
    LooksIffElement(NormalizedAndTrimmed(lib, pck));
  }

  /** A stored list is read as the element at the front of what it decodes to, whatever follows it
      there; and only if there is one. */
  lemma CrlInIff(lib: Library, stored: Bytes, crl: Bytes)
    ensures CrlIn(lib, Some(stored)) == Some(crl) <==>
      IsElement(crl) && exists rest: Bytes :: Normalized(lib, stored) == crl + rest
  {
    var n := Normalized(lib, stored);
    if CrlIn(lib, Some(stored)) == Some(crl) {
      TrimmedIsWhole(n);
      LooksIffElement(crl);
      Rejoin(n, |crl|);
    }
    if IsElement(crl) && exists rest: Bytes :: n == crl + rest {
      var form, contents :| Fits(form, |contents|) && crl == Element(form, contents);
      var rest: Bytes :| n == crl + rest;
      ElementTotal(form, contents, rest);
      Split(crl, rest);
    }
  }

  // ---- Writing ----

  /** Bytes are written as hexadecimal text or as an array of numbers. */
  datatype Encoding = AsHex | AsNumbers

  function NumberItems(b: Bytes): seq<Json> {
    seq(|b|, i requires 0 <= i < |b| => Num(b[i]))
  }

  function BytesJson(e: Encoding, b: Bytes): Json {
    match e
    case AsHex => Str(Hex(b))
    case AsNumbers => Arr(NumberItems(b))
  }

  lemma {:induction false} NumbersDecode(b: Bytes)
    ensures DecodeNumbers(NumberItems(b)) == Some(b)
  {
    if b != [] {
      var n := |b| - 1;
      NumbersDecode(b[..n]);
      assert NumberItems(b)[..n] == NumberItems(b[..n]) && NumberItems(b)[n] == Num(b[n]);
      assert b == b[..n] + [b[n]];
    }
  }

  /** Written bytes decode back; only empty hexadecimal text does not. */
  lemma BytesDecodeBack(lib: Library, e: Encoding, b: Bytes)
    ensures DecodeBytesValue(lib, BytesJson(e, b)) == if e.AsHex? && b == [] then None else Some(b)
  {
    match e
    case AsHex => HexText(lib, b);
    case AsNumbers => NumbersDecode(b);
  }

  function Written(e: Encoding, c: QuoteCollateral): Json {
    Obj(map[
      "pck_crl_issuer_chain" := Str(c.pckCrlIssuerChain),
      "root_ca_crl" := BytesJson(e, c.rootCaCrl),
      "pck_crl" := BytesJson(e, c.pckCrl),
      "tcb_info_issuer_chain" := Str(c.tcbInfoIssuerChain),
      "tcb_info" := Str(c.tcbInfo),
      "tcb_info_signature" := BytesJson(e, c.tcbInfoSignature),
      "qe_identity_issuer_chain" := Str(c.qeIdentityIssuerChain),
      "qe_identity" := Str(c.qeIdentity),
      "qe_identity_signature" := BytesJson(e, c.qeIdentitySignature),
      "pck_certificate_chain" := if c.pckCertificateChain.Some? then Str(c.pckCertificateChain.value) else Null])
  }

  /** A whole element that is not taken for text. */
  predicate StableCrl(lib: Library, b: Bytes) {
    LooksLikeDer(b) && DecodeCrlBytes(lib, b).None?
  }

  /** A list reads back as it was written exactly if it is whole and not text for another list; the
      whole long forms always do. */
  lemma CrlReadsBack(lib: Library, b: Bytes)
    requires Standard(lib)
    ensures CrlIn(lib, Some(b)) == Some(b) <==> StableCrl(lib, b)
    ensures LongForm(b) && LooksLikeDer(b) ==> StableCrl(lib, b)
  {
    TrimmedIsWhole(Normalized(lib, b));
    NormalizedShrinks(lib, b);
    assert b[..|b|] == b;
    if LongForm(b) {
      LongFormIsNoText(lib, b);
    }
  }

  predicate HoldsTexts(v: Json, c: QuoteCollateral) {
    && Field(v, "pck_crl_issuer_chain") == Some(Str(c.pckCrlIssuerChain))
    && Field(v, "tcb_info_issuer_chain") == Some(Str(c.tcbInfoIssuerChain))
    && Field(v, "tcb_info") == Some(Str(c.tcbInfo))
    && Field(v, "qe_identity_issuer_chain") == Some(Str(c.qeIdentityIssuerChain))
    && Field(v, "qe_identity") == Some(Str(c.qeIdentity))
    && TextAt(v, "pck_certificate_chain") == c.pckCertificateChain
  }

  predicate HoldsBytes(v: Json, e: Encoding, c: QuoteCollateral) {
    && Field(v, "root_ca_crl") == Some(BytesJson(e, c.rootCaCrl))
    && Field(v, "pck_crl") == Some(BytesJson(e, c.pckCrl))
    && Field(v, "tcb_info_signature") == Some(BytesJson(e, c.tcbInfoSignature))
    && Field(v, "qe_identity_signature") == Some(BytesJson(e, c.qeIdentitySignature))
  }

  lemma WrittenHoldsTexts(e: Encoding, c: QuoteCollateral)
    ensures HoldsTexts(Written(e, c), c)
  {
  }

  lemma WrittenHoldsBytes(e: Encoding, c: QuoteCollateral)
    ensures HoldsBytes(Written(e, c), e, c)
  {
  }

  lemma CrlAtReadsBack(lib: Library, e: Encoding, v: Json, name: string, b: Bytes)
    requires Standard(lib) && Field(v, name) == Some(BytesJson(e, b))
    ensures CrlAt(lib, v, name) == Some(b) <==> StableCrl(lib, b)
  {
    BytesDecodeBack(lib, e, b);
    CrlReadsBack(lib, b);
  }

  lemma BytesAtReadBack(lib: Library, e: Encoding, v: Json, name: string, b: Bytes)
    requires Field(v, name) == Some(BytesJson(e, b))
    ensures BytesAt(lib, v, name) == Some(b) <==> (e.AsHex? ==> b != [])
  {
    BytesDecodeBack(lib, e, b);
  }

  /** Round trip: reading what was written gives the collateral back exactly if hexadecimal
      signatures are not empty and both lists are whole and not text for other ones. */
  lemma CacheRoundTrip(lib: Library, e: Encoding, c: QuoteCollateral)
    requires Standard(lib)
    ensures Cached(lib, Written(e, c)) == Some(c) <==>
      && (e.AsHex? ==> c.tcbInfoSignature != [] && c.qeIdentitySignature != [])
      && StableCrl(lib, c.rootCaCrl) && StableCrl(lib, c.pckCrl)
  {
    WrittenHoldsTexts(e, c);
    WrittenHoldsBytes(e, c);
    HeldReadsBack(lib, Written(e, c), e, c);
  }

  lemma HeldReadsBack(lib: Library, v: Json, e: Encoding, c: QuoteCollateral)
    requires Standard(lib) && HoldsTexts(v, c) && HoldsBytes(v, e, c)
    ensures Cached(lib, v) == Some(c) <==>
      && (e.AsHex? ==> c.tcbInfoSignature != [] && c.qeIdentitySignature != [])
      && StableCrl(lib, c.rootCaCrl) && StableCrl(lib, c.pckCrl)
  {
    CrlAtReadsBack(lib, e, v, "root_ca_crl", c.rootCaCrl);
    CrlAtReadsBack(lib, e, v, "pck_crl", c.pckCrl);
    BytesAtReadBack(lib, e, v, "tcb_info_signature", c.tcbInfoSignature);
    BytesAtReadBack(lib, e, v, "qe_identity_signature", c.qeIdentitySignature);
  }
}
