/** Key binding with the SNP component as hosted verifier: from the signed report to the key. */
module SnpKeyBinding {
  import opened Common
  import opened Json
  import EarToken
  import Sessions
  import Snp
  import Tees
  import opened Evaluation
  import opened KeyBinding
  import opened TokenVerifier

  /** Reads evidence in JSON form. */
  type Decoder = Json -> Result<Snp.Evidence>

  /** What the component writes: claims, or an object that reports an error. */
  function ComponentReply(snp: Snp.Kit, decode: Decoder, evidence: Json,
                          reportData: Option<Bytes>, initHash: Option<Bytes>): Json
  {
    var decoded := decode(evidence);
    if decoded.Ok? && Snp.Accepts(snp, decoded.value, reportData, initHash)
    then Snp.ReportClaims(decoded.value.report)
    else Obj(map["status" := Str("failed"), "error" := Str("")])
  }

  /** What the host makes of a reply. */
  function HostAnswer(reply: Json): Result<Json> {
    if Field(reply, "error").Some? then Err else Ok(reply)
  }

  /** The attestation service hosts the SNP component. */
  ghost predicate HostsSnp(kit: Kit, snp: Snp.Kit, decode: Decoder) {
    && kit.verifiers.Hosted?
    && forall id, component, evidence, reportData, initHash ::
         kit.verifiers.run(id, component, evidence, reportData, initHash)
         == HostAnswer(ComponentReply(snp, decode, evidence, reportData, initHash))
  }

  lemma HostAccepts(snp: Snp.Kit, decode: Decoder, evidence: Json, reportData: Option<Bytes>, initHash: Option<Bytes>)
    ensures HostAnswer(ComponentReply(snp, decode, evidence, reportData, initHash))
         == if decode(evidence).Ok? && Snp.Accepts(snp, decode(evidence).value, reportData, initHash)
            then Ok(Snp.ReportClaims(decode(evidence).value.report)) else Err
  {
  }

  lemma ReportIsClaimed(report: Snp.Report)
    ensures Field(Snp.ReportClaims(report), "report_data").Some?
  {
  }

  /** What the verifier was to find in the primary evidence of a message. */
  function PrimaryDigest(kit: Kit, nonce: string, att: Sessions.Attestation): Result<Bytes> {
    var material :- kit.canonical(Sessions.PrimaryRuntimeData(nonce, att));
    Ok(kit.digest(Sha384, material))
  }

  /** From report to key: when a token is issued for a message, the key extracted from it is the
      client's, and an accepted report carries the digest of the runtime data with this key. */
  lemma ReportToKey<K>(kit: Kit, snp: Snp.Kit, decode: Decoder, policy: EarToken.Policy, stamp: EarToken.Stamp,
                       parse: Sessions.AdditionalParser, tee: Tees.Tee, nonce: string,
                       att: Sessions.Attestation, evs: seq<Evidence>, body: Json, deserialize: Json -> Result<K>)
    requires HostsSnp(kit, snp, decode)
    requires Sessions.IsEvidenceFor(parse, tee, nonce, att, evs)
    requires VerifiedEvidence(kit, policy, stamp, evs) == Ok(body)
    ensures ExtractedKey(BUILT_IN, body, deserialize) == deserialize(att.teePubkey)
    ensures PrimaryDigest(kit, nonce, att).Ok? && decode(att.primary).Ok?
    ensures exists initHash ::
      Snp.Accepts(snp, decode(att.primary).value, Some(PrimaryDigest(kit, nonce, att).value), initHash)
    ensures decode(att.primary).value.report.reportData
         == Snp.Regularized(PrimaryDigest(kit, nonce, att).value, 64)
  {
    HostedMessageBinding(kit, policy, stamp, parse, tee, nonce, att, evs, body, deserialize);
    PrimaryIsFirst(kit, parse, tee, nonce, att, evs);
    AnswerAccepts(kit, snp, decode, evs[0]);
    ReportIsClaimed(decode(att.primary).value.report);
    var initHash :|
      Snp.Accepts(snp, decode(att.primary).value, Some(PrimaryDigest(kit, nonce, att).value), initHash);
    AcceptedCarries(snp, decode(att.primary).value, PrimaryDigest(kit, nonce, att).value, initHash);
  }

  lemma PrimaryIsFirst(kit: Kit, parse: Sessions.AdditionalParser, tee: Tees.Tee, nonce: string,
                       att: Sessions.Attestation, evs: seq<Evidence>)
    requires Sessions.IsEvidenceFor(parse, tee, nonce, att, evs)
    ensures evs[0].teeEvidence == att.primary && ExpectedReportData(kit, evs[0]) == PrimaryDigest(kit, nonce, att)
  {
  }

  /** An accepted report carries the expected data, padded. */
  lemma AcceptedCarries(snp: Snp.Kit, ev: Snp.Evidence, expected: Bytes, initHash: Option<Bytes>)
    requires Snp.Accepts(snp, ev, Some(expected), initHash)
    ensures ev.report.reportData == Snp.Regularized(expected, 64)
  {
  }

  lemma AnswerAccepts(kit: Kit, snp: Snp.Kit, decode: Decoder, ev: Evidence)
    requires HostsSnp(kit, snp, decode) && Answer(kit, ev).Ok?
    ensures decode(ev.teeEvidence).Ok? && ExpectedReportData(kit, ev).Ok?
    ensures Answer(kit, ev).value == [(Snp.ReportClaims(decode(ev.teeEvidence).value.report), "cpu")]
    ensures exists initHash ::
      Snp.Accepts(snp, decode(ev.teeEvidence).value, Some(ExpectedReportData(kit, ev).value), initHash)
  {
    var init := ExpectedInitDigest(kit, ev).value;
    HostAccepts(snp, decode, ev.teeEvidence, Some(ExpectedReportData(kit, ev).value), init);
  }

  /** SHA-384 gives one digest for two different inputs. */
  predicate Collides(kit: Kit, a: Bytes, b: Bytes) {
    a != b && kit.digest(Sha384, a) == kit.digest(Sha384, b)
  }

  /** The canonical form tells two values apart. */
  predicate Separates(kit: Kit, a: Json, b: Json) {
    kit.canonical(a) == kit.canonical(b) ==> a == b
  }

  /** One report serves one key: if tokens are issued for two messages with the same primary
      evidence, both runtime data have one canonical form, or SHA-384 collides on the two forms. With
      a canonical form that tells them apart, nonce, client key, additional evidence and extracted key are the same. */
  lemma OneReportOneKey<K>(kit: Kit, snp: Snp.Kit, decode: Decoder, policy: EarToken.Policy,
                           stamp: EarToken.Stamp, stamp': EarToken.Stamp, parse: Sessions.AdditionalParser,
                           tee: Tees.Tee, tee': Tees.Tee, nonce: string, nonce': string,
                           att: Sessions.Attestation, att': Sessions.Attestation,
                           evs: seq<Evidence>, evs': seq<Evidence>, body: Json, body': Json,
                           deserialize: Json -> Result<K>)
    requires HostsSnp(kit, snp, decode)
    requires forall x :: |kit.digest(Sha384, x)| == 48
    requires Sessions.IsEvidenceFor(parse, tee, nonce, att, evs)
    requires Sessions.IsEvidenceFor(parse, tee', nonce', att', evs')
    requires VerifiedEvidence(kit, policy, stamp, evs) == Ok(body)
    requires VerifiedEvidence(kit, policy, stamp', evs') == Ok(body')
    requires att.primary == att'.primary
    ensures kit.canonical(Sessions.PrimaryRuntimeData(nonce, att)).Ok?
    ensures kit.canonical(Sessions.PrimaryRuntimeData(nonce', att')).Ok?
    ensures var data, data' := Sessions.PrimaryRuntimeData(nonce, att), Sessions.PrimaryRuntimeData(nonce', att');
      var m, m' := kit.canonical(data).value, kit.canonical(data').value;
      && (m == m' || Collides(kit, m, m'))
      && (!Collides(kit, m, m') && Separates(kit, data, data') ==>
            && nonce == nonce' && att.teePubkey == att'.teePubkey && att.additional == att'.additional
            && ExtractedKey(BUILT_IN, body, deserialize) == ExtractedKey(BUILT_IN, body', deserialize))
  {
    ReportToKey(kit, snp, decode, policy, stamp, parse, tee, nonce, att, evs, body, deserialize);
    ReportToKey(kit, snp, decode, policy, stamp', parse, tee', nonce', att', evs', body', deserialize);
    Snp.RegularizedInjective(PrimaryDigest(kit, nonce, att).value, PrimaryDigest(kit, nonce', att').value, 64);
    SameRuntimeDataSameKey(nonce, nonce', att, att');
  }

  lemma SameRuntimeDataSameKey(nonce: string, nonce': string, att: Sessions.Attestation, att': Sessions.Attestation)
    ensures Sessions.PrimaryRuntimeData(nonce, att) == Sessions.PrimaryRuntimeData(nonce', att') ==>
      nonce == nonce' && att.teePubkey == att'.teePubkey && att.additional == att'.additional
  {
    assert Field(Sessions.PrimaryRuntimeData(nonce, att), "tee-pubkey") == Some(att.teePubkey);
    assert Field(Sessions.PrimaryRuntimeData(nonce', att'), "tee-pubkey") == Some(att'.teePubkey);
    assert Field(Sessions.PrimaryRuntimeData(nonce, att), "nonce") == Some(Str(nonce));
    assert Field(Sessions.PrimaryRuntimeData(nonce', att'), "nonce") == Some(Str(nonce'));
    assert Field(Sessions.PrimaryRuntimeData(nonce, att), "additional-evidence") == Some(Str(att.additional));
    assert Field(Sessions.PrimaryRuntimeData(nonce', att'), "additional-evidence") == Some(Str(att'.additional));
  }
}
