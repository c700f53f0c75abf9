/** The attestation service: from verification requests to the claims of one token. */
module Evaluation {
  import opened Common
  import opened Json
  import opened EarToken
  import opened Tees

  datatype HashAlgorithm = Sha256 | Sha384 | Sha512

  datatype RuntimeData = Raw(data: Bytes) | Structured(value: Json)

  datatype InitDataInput = Digest(data: Bytes) | Toml(text: string)

  datatype Request = Request(
    tee: Tee, evidence: Json,
    runtimeData: Option<RuntimeData>, algorithm: HashAlgorithm, initData: Option<InitDataInput>,
    component: Option<Bytes>, componentId: Option<string>)

  /** The verifiers: native ones give claims with their class, a hosted component one claim. The last
      two arguments are the expected report data and init data digest. */
  datatype Verifiers =
    | Native(evaluate: (Tee, Json, Option<Bytes>, Option<Bytes>) -> Result<seq<(Json, string)>>)
    | Hosted(defaultId: Option<string>,
             run: (Option<string>, Option<Bytes>, Json, Option<Bytes>, Option<Bytes>) -> Result<Json>)

  /** What the service calls but does not define. `toml` gives a digest and the claims. */
  datatype Kit = Kit(
    digest: (HashAlgorithm, Bytes) -> Bytes,
    canonical: Json -> Result<Bytes>,
    toml: string -> Result<(Bytes, Json)>,
    verifiers: Verifiers)

  /** Expected report data and the claims it stands for. */
  function ParseRuntimeData(kit: Kit, data: Option<RuntimeData>, algorithm: HashAlgorithm)
    : Result<(Option<Bytes>, Json)>
  {
    match data
    case Some(Raw(raw)) => Ok((Some(raw), Null))
    case Some(Structured(value)) =>
      var material :- kit.canonical(value);
      Ok((Some(kit.digest(algorithm, material)), value))
    case None => Ok((None, Null))
  }

  function ParseInitData(kit: Kit, data: Option<InitDataInput>): Result<(Option<Bytes>, Json)> {
    match data
    case Some(Digest(raw)) => Ok((Some(raw), Null))
    case Some(Toml(text)) =>
      var parsed :- kit.toml(text);
      Ok((Some(parsed.0), parsed.1))
    case None => Ok((None, Null))
  }

  /** The verdict on one piece of evidence. A hosted component speaks for class "cpu". */
  function Verified(kit: Kit, r: Request, reportData: Option<Bytes>, initDigest: Option<Bytes>)
    : Result<seq<(Json, string)>>
  {
    match kit.verifiers
    case Native(evaluate) => evaluate(r.tee, r.evidence, reportData, initDigest)
    case Hosted(defaultId, run) =>
      var id := if r.componentId.Some? then r.componentId else defaultId;
      if id.None? && r.component.None? then Err
      else
        var claims :- run(id, r.component, r.evidence, reportData, initDigest);
        Ok([(claims, "cpu")])
  }

  function Label(r: Request, verdict: (Json, string), initClaims: Json, runtimeClaims: Json): TeeClaims {
    TeeClaims(r.tee, verdict.1, verdict.0, initClaims, runtimeClaims)
  }

  function LabelAll(r: Request, verdicts: seq<(Json, string)>, initClaims: Json, runtimeClaims: Json): seq<TeeClaims> {
    seq(|verdicts|, i requires 0 <= i < |verdicts| => Label(r, verdicts[i], initClaims, runtimeClaims))
  }

  function ClaimsOf(kit: Kit, r: Request): Result<seq<TeeClaims>> {
    var runtime :- ParseRuntimeData(kit, r.runtimeData, r.algorithm);
    var init :- ParseInitData(kit, r.initData);
    var verdicts :- Verified(kit, r, runtime.0, init.0);
    Ok(LabelAll(r, verdicts, init.1, runtime.1))
  }

  /** The claims of all requests in order. */
  function AllClaims(kit: Kit, requests: seq<Request>): Result<seq<TeeClaims>> {
    if requests == [] then Ok([])
    else
      var first :- ClaimsOf(kit, requests[0]);
      var rest :- AllClaims(kit, requests[1..]);
      Ok(first + rest)
  }

  function Evaluated(kit: Kit, policy: Policy, stamp: Stamp, requests: seq<Request>, policyIds: seq<string>)
    : Result<Json>
  {
    if requests == [] || policyIds == [] || stamp.expires.None? then Err
    else
      var claims :- AllClaims(kit, requests);
      var submods :- Submods(policy, policyIds[0], claims);
      Ok(TokenBody(stamp, stamp.expires.value, submods))
  }

  /** One round of the loop over the requests. */
  method EvaluateOne(kit: Kit, request: Request, teeClaims: seq<TeeClaims>) returns (r: Result<seq<TeeClaims>>)
    ensures r == Prepended(teeClaims, ClaimsOf(kit, request))
  {
    var runtime :- ParseRuntimeData(kit, request.runtimeData, request.algorithm);
    var init :- ParseInitData(kit, request.initData);
    var verdicts :- Verified(kit, request, runtime.0, init.0);
    var all := teeClaims;
    ghost var labels := LabelAll(request, verdicts, init.1, runtime.1);
    for k := 0 to |verdicts|
      invariant all == teeClaims + labels[..k]
    {
      assert labels[..k + 1] == labels[..k] + [labels[k]];
      all := all + [Label(request, verdicts[k], init.1, runtime.1)];
    }
    assert labels[..|verdicts|] == labels;
    return Ok(all);
  }

  method CollectClaims(kit: Kit, requests: seq<Request>) returns (r: Result<seq<TeeClaims>>)
    ensures r == AllClaims(kit, requests)
  {
    var teeClaims: seq<TeeClaims> := [];
    NothingPrepended(AllClaims(kit, requests));
    assert requests[0..] == requests;
    for i := 0 to |requests|
      invariant AllClaims(kit, requests) == Prepended(teeClaims, AllClaims(kit, requests[i..]))
    {
      AllClaimsStep(kit, requests, i, teeClaims);
      teeClaims :- EvaluateOne(kit, requests[i], teeClaims);
    }
    assert teeClaims + [] == teeClaims;
    return Ok(teeClaims);
  }

  method Evaluate(kit: Kit, policy: Policy, stamp: Stamp, requests: seq<Request>, policyIds: seq<string>)
    returns (r: Result<Json>)
    ensures r == Evaluated(kit, policy, stamp, requests, policyIds)
  {
    if requests == [] { return Err; }
    var teeClaims :- CollectClaims(kit, requests);
    var submods :- Issue(policy, policyIds, teeClaims);
    if stamp.expires.None? { return Err; }
    return Ok(TokenBody(stamp, stamp.expires.value, submods));
  }

  lemma AllClaimsStep(kit: Kit, requests: seq<Request>, i: nat, before: seq<TeeClaims>)
    requires i < |requests|
    ensures Prepended(before, AllClaims(kit, requests[i..]))
         == var more :- Prepended(before, ClaimsOf(kit, requests[i]));
            Prepended(more, AllClaims(kit, requests[i + 1..]))
  {
    assert requests[i..][1..] == requests[i + 1..] && requests[i..][0] == requests[i];
    if ClaimsOf(kit, requests[i]).Ok? {
      PrependedTwice(before, ClaimsOf(kit, requests[i]).value, AllClaims(kit, requests[i + 1..]));
    }
  }

  lemma NothingPrepended(r: Result<seq<TeeClaims>>)
    ensures Prepended([], r) == r
  {
    if r.Ok? {
      assert [] + r.value == r.value;
    }
  }

  ghost function Prepended(before: seq<TeeClaims>, rest: Result<seq<TeeClaims>>): Result<seq<TeeClaims>> {
    if rest.Ok? then Ok(before + rest.value) else Err
  }

  lemma PrependedTwice(a: seq<TeeClaims>, b: seq<TeeClaims>, rest: Result<seq<TeeClaims>>)
    ensures Prepended(a, Prepended(b, rest)) == Prepended(a + b, rest)
  {
    if rest.Ok? {
      Assoc(a, b, rest.value);
    }
  }

  /** Every claim comes from one of the requests. */
  lemma {:induction false} ClaimHasRequest(kit: Kit, requests: seq<Request>, i: nat) returns (k: nat, j: nat)
    requires AllClaims(kit, requests).Ok? && i < |AllClaims(kit, requests).value|
    ensures k < |requests| && ClaimsOf(kit, requests[k]).Ok? && j < |ClaimsOf(kit, requests[k]).value|
    ensures AllClaims(kit, requests).value[i] == ClaimsOf(kit, requests[k]).value[j]
  {
    var first := ClaimsOf(kit, requests[0]).value;
    if i < |first| {
      k, j := 0, i;
    } else {
      k, j := ClaimHasRequest(kit, requests[1..], i - |first|);
      k := k + 1;
    }
  }

  /** Every claim on a request is among the claims of the token. */
  lemma {:induction false} ClaimIsCollected(kit: Kit, requests: seq<Request>, k: nat, j: nat) returns (i: nat)
    requires AllClaims(kit, requests).Ok? && k < |requests|
    requires ClaimsOf(kit, requests[k]).Ok? && j < |ClaimsOf(kit, requests[k]).value|
    ensures i < |AllClaims(kit, requests).value|
    ensures AllClaims(kit, requests).value[i] == ClaimsOf(kit, requests[k]).value[j]
  {
    if k == 0 {
      i := j;
    } else {
      i := ClaimIsCollected(kit, requests[1..], k - 1, j);
      i := i + |ClaimsOf(kit, requests[0]).value|;
    }
  }

  lemma {:induction false} AllClaimsOkIff(kit: Kit, requests: seq<Request>)
    ensures AllClaims(kit, requests).Ok? <==> forall k :: 0 <= k < |requests| ==> ClaimsOf(kit, requests[k]).Ok?
  {
    if requests != [] {
      AllClaimsOkIff(kit, requests[1..]);
      assert forall k :: 1 <= k < |requests| ==> requests[k] == requests[1..][k - 1];
    }
  }

  /** What a verifier is called with: raw runtime data as it is, structured runtime data as the digest
      of its canonical form, nothing if there is none; and so for init data. */
  ghost predicate IsExpected(kit: Kit, r: Request, reportData: Option<Bytes>, initDigest: Option<Bytes>) {
    && (match r.runtimeData
        case None => reportData == None
        case Some(Raw(data)) => reportData == Some(data)
        case Some(Structured(value)) =>
          kit.canonical(value).Ok? && reportData == Some(kit.digest(r.algorithm, kit.canonical(value).value)))
    && (match r.initData
        case None => initDigest == None
        case Some(Digest(data)) => initDigest == Some(data)
        case Some(Toml(text)) => kit.toml(text).Ok? && initDigest == Some(kit.toml(text).value.0))
  }

  /** The claims of a request are the verdicts of one call of its verifier with what is expected of the
      evidence. Of hosted components the requested one is called, or else the default one, or else the
      one that came with the request. */
  lemma ClaimsAreVerdicts(kit: Kit, r: Request) returns (reportData: Option<Bytes>, initDigest: Option<Bytes>)
    requires ClaimsOf(kit, r).Ok?
    ensures IsExpected(kit, r, reportData, initDigest)
    ensures kit.verifiers.Native? ==>
      var verdicts := kit.verifiers.evaluate(r.tee, r.evidence, reportData, initDigest);
      && verdicts.Ok? && |ClaimsOf(kit, r).value| == |verdicts.value|
      && forall j :: 0 <= j < |verdicts.value| ==>
           var c := ClaimsOf(kit, r).value[j]; c.tee == r.tee && (c.claims, c.teeClass) == verdicts.value[j]
    ensures kit.verifiers.Hosted? ==>
      var id := if r.componentId.Some? then r.componentId else kit.verifiers.defaultId;
      var claims := kit.verifiers.run(id, r.component, r.evidence, reportData, initDigest);
      && (id.Some? || r.component.Some?) && claims.Ok? && |ClaimsOf(kit, r).value| == 1
      && var c := ClaimsOf(kit, r).value[0]; c.tee == r.tee && c.claims == claims.value && c.teeClass == "cpu"
  {
    reportData := ParseRuntimeData(kit, r.runtimeData, r.algorithm).value.0;
    initDigest := ParseInitData(kit, r.initData).value.0;
  }

  /** Only structured runtime data and TOML init data have claims of their own. */
  lemma ClaimsOfData(kit: Kit, r: Request, j: nat)
    requires ClaimsOf(kit, r).Ok? && j < |ClaimsOf(kit, r).value|
    ensures ClaimsOf(kit, r).value[j].runtimeDataClaims
         == match r.runtimeData case Some(Structured(value)) => value case _ => Null
    ensures match r.initData
            case Some(Toml(text)) =>
              kit.toml(text).Ok? && ClaimsOf(kit, r).value[j].initDataClaims == kit.toml(text).value.1
            case _ => ClaimsOf(kit, r).value[j].initDataClaims == Null
  {
  }

  /** Of several policies only the first one matters, and there must be one. */
  lemma FirstPolicyCounts(kit: Kit, policy: Policy, stamp: Stamp, requests: seq<Request>, id: string, more: seq<string>)
    ensures Evaluated(kit, policy, stamp, requests, []).Err?
    ensures Evaluated(kit, policy, stamp, requests, [id] + more) == Evaluated(kit, policy, stamp, requests, [id])
    ensures Evaluated(kit, policy, stamp, requests, [id]).Ok? ==>
      && stamp.expires.Some? && AllClaims(kit, requests).Ok?
      && Submods(policy, id, AllClaims(kit, requests).value).Ok?
      && Evaluated(kit, policy, stamp, requests, [id]).value
         == TokenBody(stamp, stamp.expires.value, Submods(policy, id, AllClaims(kit, requests).value).value)
  {
    assert ([id] + more)[0] == id;
  }
}
