/** Which key the key broker ends up encrypting to: from evidence through token to extracted key. */
module KeyBinding {
  import opened Common
  import opened Json
  import EarToken
  import Decimals
  import opened Evaluation
  import opened TokenVerifier
  import Sessions
  import Tees
  import SessionProofs

  type Evidence = Sessions.IndependentEvidence

  // ---- From the broker to the attestation service ----

  /** Evidence as a request with structured runtime data; init data must be TOML. */
  function RequestFor(ev: Evidence): Result<Request> {
    var r := Request(ev.tee, ev.teeEvidence, Some(Structured(ev.runtimeData)), Sha384, None, None, None);
    match ev.initData
    case None => Ok(r)
    case Some(init) => if init.format != "toml" then Err else Ok(r.(initData := Some(Toml(init.body))))
  }

  function RequestsFor(evs: seq<Evidence>): (r: Result<seq<Request>>)
    ensures r.Ok? ==> |r.value| == |evs|
  {
    if evs == [] then Ok([])
    else
      var before :- RequestsFor(evs[..|evs| - 1]);
      var last :- RequestFor(evs[|evs| - 1]);
      Ok(before + [last])
  }

  function VerifiedEvidence(kit: Kit, policy: EarToken.Policy, stamp: EarToken.Stamp, evs: seq<Evidence>)
    : Result<Json>
  {
    var requests :- RequestsFor(evs);
    Evaluated(kit, policy, stamp, requests, ["default"])
  }

  method VerifyEvidence(kit: Kit, policy: EarToken.Policy, stamp: EarToken.Stamp, evs: seq<Evidence>)
    returns (r: Result<Json>)
    ensures r == VerifiedEvidence(kit, policy, stamp, evs)
  {
    var requests: seq<Request> := [];
    for i := 0 to |evs|
      invariant RequestsFor(evs[..i]) == Ok(requests)
    {
      assert evs[..i + 1][..i] == evs[..i];
      var request := RequestFor(evs[i]);
      if request.Err? {
        RequestsErr(evs, i + 1);
        return Err;
      }
      requests := requests + [request.value];
    }
    assert evs[..|evs|] == evs;
    r := Evaluate(kit, policy, stamp, requests, ["default"]);
  }

  lemma {:induction false} RequestsErr(evs: seq<Evidence>, i: nat)
    requires i <= |evs| && RequestsFor(evs[..i]).Err?
    ensures RequestsFor(evs).Err?
    decreases |evs|
  {
    if i == |evs| {
      assert evs[..i] == evs;
    } else {
      assert evs[..|evs| - 1][..i] == evs[..i];
      RequestsErr(evs[..|evs| - 1], i);
    }
  }

  lemma {:induction false} RequestAt(evs: seq<Evidence>, i: nat)
    requires RequestsFor(evs).Ok? && i < |evs|
    ensures RequestFor(evs[i]) == Ok(RequestsFor(evs).value[i])
  {
    if i < |evs| - 1 {
      RequestAt(evs[..|evs| - 1], i);
    }
  }

  lemma {:induction false} RequestsOkIff(evs: seq<Evidence>)
    ensures RequestsFor(evs).Ok? <==> forall i :: 0 <= i < |evs| ==> RequestFor(evs[i]).Ok?
  {
    if evs != [] {
      RequestsOkIff(evs[..|evs| - 1]);
    }
  }

  /** A piece of evidence whose every claim passes the policy. */
  ghost predicate Verifiable(kit: Kit, policy: EarToken.Policy, ev: Evidence) {
    && RequestFor(ev).Ok?
    && var claims := ClaimsOf(kit, RequestFor(ev).value);
    && claims.Ok?
    && forall j :: 0 <= j < |claims.value| ==> EarToken.Appraise(policy, "default", claims.value[j]).Ok?
  }

  /** A token is issued exactly if there is evidence, all of it verifies, and the time does not overflow. */
  lemma TokenIssuedIff(kit: Kit, policy: EarToken.Policy, stamp: EarToken.Stamp, evs: seq<Evidence>)
    ensures VerifiedEvidence(kit, policy, stamp, evs).Ok?
        <==> evs != [] && stamp.expires.Some? && forall i :: 0 <= i < |evs| ==> Verifiable(kit, policy, evs[i])
  {
    RequestsOkIff(evs);
    if RequestsFor(evs).Ok? {
      var requests := RequestsFor(evs).value;
      forall i | 0 <= i < |evs| ensures RequestFor(evs[i]) == Ok(requests[i]) {
        RequestAt(evs, i);
      }
      AllClaimsOkIff(kit, requests);
      if AllClaims(kit, requests).Ok? {
        var claims := AllClaims(kit, requests).value;
        EarToken.AppraisalsOkIff(policy, "default", claims);
        AppraisedEverywhere(kit, policy, "default", requests);
      }
    }
  }

  /** All claims pass together exactly if those of each request do. */
  lemma AppraisedEverywhere(kit: Kit, policy: EarToken.Policy, id: string, requests: seq<Request>)
    requires AllClaims(kit, requests).Ok? && forall k :: 0 <= k < |requests| ==> ClaimsOf(kit, requests[k]).Ok?
    ensures (forall i :: 0 <= i < |AllClaims(kit, requests).value| ==>
               EarToken.Appraise(policy, id, AllClaims(kit, requests).value[i]).Ok?)
        <==> (forall k, j :: 0 <= k < |requests| && 0 <= j < |ClaimsOf(kit, requests[k]).value| ==>
               EarToken.Appraise(policy, id, ClaimsOf(kit, requests[k]).value[j]).Ok?)
  {
    forall i | 0 <= i < |AllClaims(kit, requests).value|
      ensures exists k, j :: 0 <= k < |requests| && 0 <= j < |ClaimsOf(kit, requests[k]).value|
                             && ClaimsOf(kit, requests[k]).value[j] == AllClaims(kit, requests).value[i]
    {
      var k, j := ClaimHasRequest(kit, requests, i);
    }
    forall k, j | 0 <= k < |requests| && 0 <= j < |ClaimsOf(kit, requests[k]).value|
      ensures exists i :: 0 <= i < |AllClaims(kit, requests).value|
                          && AllClaims(kit, requests).value[i] == ClaimsOf(kit, requests[k]).value[j]
    {
      var i := ClaimIsCollected(kit, requests, k, j);
    }
  }

  // ---- The submodule the key is read from ----

  /** Only the claim numbered 0 of class "cpu" is named "cpu0". */
  lemma NamedCpu0(c: string, n: nat)
    ensures c + Decimals.Decimal(n) == "cpu0" <==> c == "cpu" && n == 0
  {
    var d := Decimals.Decimal(n);
    assert Decimals.Decimal(0) == "0" && "cpu" + "0" == "cpu0";
    if c + d == "cpu0" {
      Split(c, d);
      assert |c| + |d| == 4;
      assert EarToken.PlainClass(c);
      EarToken.NamesSeparate(c, n, "cpu", 0);
    }
  }

  lemma {:induction false} LastOf(names: seq<string>, name: string) returns (i: nat)
    requires name in names
    ensures EarToken.IsLast(names, i) && names[i] == name
  {
    var n := |names| - 1;
    if names[n] == name {
      i := n;
    } else {
      assert names == names[..n] + [names[n]];
      i := LastOf(names[..n], name);
      assert names[i] == names[..n][i];
    }
  }

  /** The submodule "cpu0" is the appraisal of some claim of class "cpu"; of the first claim, if that
      is of class "cpu" and the class stays within the byte counter. */
  lemma Cpu0Submod(policy: EarToken.Policy, id: string, claims: seq<EarToken.TeeClaims>) returns (i: nat)
    requires EarToken.Submods(policy, id, claims).Ok? && "cpu0" in EarToken.Submods(policy, id, claims).value
    ensures i < |claims| && claims[i].teeClass == "cpu"
    ensures EarToken.Appraise(policy, id, claims[i]) == Ok(EarToken.Submods(policy, id, claims).value["cpu0"])
    ensures EarToken.Count(claims[..i], "cpu") % 256 == 0
  {
    var names, appraisals := EarToken.Names(claims), EarToken.Appraisals(policy, id, claims).value;
    EarToken.CollectedContents(names, appraisals);
    i := LastOf(names, "cpu0");
    EarToken.AppraisalsAt(policy, id, claims, i);
    NamedCpu0(claims[i].teeClass, EarToken.Count(claims[..i], claims[i].teeClass) % 256);
  }

  lemma Cpu0IsFirst(policy: EarToken.Policy, id: string, claims: seq<EarToken.TeeClaims>)
    requires EarToken.Submods(policy, id, claims).Ok?
    requires claims != [] && claims[0].teeClass == "cpu" && EarToken.Count(claims, "cpu") <= 256
    ensures "cpu0" in EarToken.Submods(policy, id, claims).value
    ensures EarToken.Appraise(policy, id, claims[0]) == Ok(EarToken.Submods(policy, id, claims).value["cpu0"])
  {
    EarToken.CollectedContents(EarToken.Names(claims), EarToken.Appraisals(policy, id, claims).value);
    FirstIsCpu0(claims);
    var i := Cpu0Submod(policy, id, claims);
    EarToken.OnlyFirstIsZero(claims, i, "cpu");
  }

  lemma FirstIsCpu0(claims: seq<EarToken.TeeClaims>)
    requires claims != [] && claims[0].teeClass == "cpu"
    ensures EarToken.Names(claims)[0] == "cpu0" && "cpu0" in EarToken.Names(claims)
  {
    NamedCpu0("cpu", 0);
    assert EarToken.Names(claims)[0] == EarToken.NameOf(claims, 0);
  }

  /** What the EAR path leads to in an issued token. */
  function KeyIn(submods: map<string, EarToken.Appraisal>): Option<Json> {
    if "cpu0" !in submods then None
    else match Fetch(submods["cpu0"].evidence, "runtime_data_claims")
      case Some(runtime) => Child(runtime, "tee-pubkey")
      case None => None
  }

  lemma EarSteps(stamp: EarToken.Stamp, expires: int, submods: map<string, EarToken.Appraisal>)
    ensures Walk(EarToken.TokenBody(stamp, expires, submods), EAR) == KeyIn(submods)
  {
    WalkFive(EarToken.TokenBody(stamp, expires, submods), EAR);
  }

  lemma BodyMembers(stamp: EarToken.Stamp, expires: int, submods: map<string, EarToken.Appraisal>)
    ensures var body := EarToken.TokenBody(stamp, expires, submods);
      && body.Obj? && "tdx" !in body.fields && "customized_claims" !in body.fields
      && "tee-pubkey" !in body.fields
  {
  }

  /** The key that is read from the submodules of a token. */
  function KeyFrom<K>(submods: map<string, EarToken.Appraisal>, deserialize: Json -> Result<K>): Result<K> {
    match KeyIn(submods)
    case Some(v) => deserialize(v)
    case None => Err
  }

  lemma KeyOfBody<K>(stamp: EarToken.Stamp, expires: int, submods: map<string, EarToken.Appraisal>,
                     body: Json, deserialize: Json -> Result<K>)
    requires body == EarToken.TokenBody(stamp, expires, submods)
    ensures ExtractedKey(BUILT_IN, body, deserialize) == KeyFrom(submods, deserialize)
  {
    BodyMembers(stamp, expires, submods);
    OnlyEarPath(body);
    EarSteps(stamp, expires, submods);
  }

  lemma WalkFive(v: Json, t: seq<string>)
    requires |t| == 5
    ensures Walk(v, t) == Then(Then(Then(Then(Child(v, t[0]), t[1]), t[2]), t[3]), t[4])
  {
    WalkThen(Some(v), t, 0);
    WalkThen(Child(v, t[0]), t, 1);
    WalkThen(Then(Child(v, t[0]), t[1]), t, 2);
    WalkThen(Then(Then(Child(v, t[0]), t[1]), t[2]), t, 3);
    WalkThen(Then(Then(Then(Child(v, t[0]), t[1]), t[2]), t[3]), t, 4);
    assert t[0..] == t && t[5..] == [];
  }

  function WalkFrom(v: Option<Json>, tokens: seq<string>): Option<Json> {
    match v
    case Some(x) => Walk(x, tokens)
    case None => None
  }

  lemma WalkThen(v: Option<Json>, t: seq<string>, i: nat)
    requires i < |t|
    ensures WalkFrom(v, t[i..]) == WalkFrom(Then(v, t[i]), t[i + 1..])
  {
    assert t[i..][1..] == t[i + 1..] && t[i..][0] == t[i];
  }

  function Then(v: Option<Json>, token: string): Option<Json> {
    match v
    case Some(x) => Child(x, token)
    case None => None
  }

  // ---- Key binding ----

  /** The report data the verifier is to find in a piece of evidence. */
  function ExpectedReportData(kit: Kit, ev: Evidence): Result<Bytes> {
    var material :- kit.canonical(ev.runtimeData);
    Ok(kit.digest(Sha384, material))
  }

  /** The digest of its init data that the verifier is to find, if it comes with any. */
  function ExpectedInitDigest(kit: Kit, ev: Evidence): Result<Option<Bytes>> {
    match ev.initData
    case None => Ok(None)
    case Some(init) =>
      if init.format != "toml" then Err
      else
        var parsed :- kit.toml(init.body);
        Ok(Some(parsed.0))
  }

  /** What the verifier answers when it is called with the evidence, the expected report data and the
      expected init data digest. A hosted component is the default one and speaks for class "cpu". */
  function Answer(kit: Kit, ev: Evidence): Result<seq<(Json, string)>> {
    var expected :- ExpectedReportData(kit, ev);
    var init :- ExpectedInitDigest(kit, ev);
    match kit.verifiers
    case Native(evaluate) => evaluate(ev.tee, ev.teeEvidence, Some(expected), init)
    case Hosted(defaultId, run) =>
      if defaultId.None? then Err
      else
        var claims :- run(defaultId, None, ev.teeEvidence, Some(expected), init);
        Ok([(claims, "cpu")])
  }

  /** A verdict that the report data was found. */
  predicate Vouches(verdict: (Json, string)) {
    verdict.1 == "cpu" && Field(verdict.0, "report_data").Some?
  }

  ghost predicate SomeVouches(r: Result<seq<(Json, string)>>) {
    r.Ok? && exists k :: 0 <= k < |r.value| && Vouches(r.value[k])
  }

  /** The verifier, called with this evidence and the SHA-384 digest of its canonical runtime data as
      expected report data, vouched that the evidence carries it. */
  ghost predicate VouchedFor(kit: Kit, ev: Evidence) {
    && kit.canonical(ev.runtimeData).Ok? && ExpectedInitDigest(kit, ev).Ok?
    && var expected := Some(kit.digest(Sha384, kit.canonical(ev.runtimeData).value));
    && var init := ExpectedInitDigest(kit, ev).value;
    && match kit.verifiers
       case Native(evaluate) => SomeVouches(evaluate(ev.tee, ev.teeEvidence, expected, init))
       case Hosted(defaultId, run) =>
         && defaultId.Some?
         && run(defaultId, None, ev.teeEvidence, expected, init).Ok?
         && Field(run(defaultId, None, ev.teeEvidence, expected, init).value, "report_data").Some?
  }

  /** The claims of a piece of evidence are the verifier's answer beside its own runtime data and the
      claims of its own init data. */
  lemma ClaimsOfEvidence(kit: Kit, ev: Evidence, j: nat)
    ensures RequestFor(ev).Ok? && ClaimsOf(kit, RequestFor(ev).value).Ok? <==> Answer(kit, ev).Ok?
    ensures Answer(kit, ev).Ok? ==> |ClaimsOf(kit, RequestFor(ev).value).value| == |Answer(kit, ev).value|
    ensures Answer(kit, ev).Ok? && j < |Answer(kit, ev).value| ==>
      var c := ClaimsOf(kit, RequestFor(ev).value).value[j];
      && c.tee == ev.tee && (c.claims, c.teeClass) == Answer(kit, ev).value[j]
      && c.runtimeDataClaims == ev.runtimeData
      && c.initDataClaims == if ev.initData.None? then Null else kit.toml(ev.initData.value.body).value.1
  {
  }

  lemma AnswerVouches(kit: Kit, ev: Evidence)
    ensures SomeVouches(Answer(kit, ev)) <==> VouchedFor(kit, ev)
  {
    if VouchedFor(kit, ev) && kit.verifiers.Hosted? {
      assert Vouches(Answer(kit, ev).value[0]);
    }
  }

  /** A token means that for every piece of evidence the verifier was called with the digest of its
      runtime data, and that its verdicts are the claims, in order. */
  lemma TokenMeansVerified(kit: Kit, policy: EarToken.Policy, stamp: EarToken.Stamp, evs: seq<Evidence>, i: nat)
    requires VerifiedEvidence(kit, policy, stamp, evs).Ok? && i < |evs|
    ensures kit.canonical(evs[i].runtimeData).Ok? && ExpectedInitDigest(kit, evs[i]).Ok?
    ensures kit.verifiers.Native? ==>
      var r := kit.verifiers.evaluate(evs[i].tee, evs[i].teeEvidence,
                                      Some(kit.digest(Sha384, kit.canonical(evs[i].runtimeData).value)),
                                      ExpectedInitDigest(kit, evs[i]).value);
      && r.Ok? && ClaimsOf(kit, RequestsFor(evs).value[i]).Ok?
      && |ClaimsOf(kit, RequestsFor(evs).value[i]).value| == |r.value|
      && forall j :: 0 <= j < |r.value| ==>
           var c := ClaimsOf(kit, RequestsFor(evs).value[i]).value[j]; (c.claims, c.teeClass) == r.value[j]
    ensures kit.verifiers.Hosted? ==>
      && kit.verifiers.defaultId.Some?
      && kit.verifiers.run(kit.verifiers.defaultId, None, evs[i].teeEvidence,
                           Some(kit.digest(Sha384, kit.canonical(evs[i].runtimeData).value)),
                           ExpectedInitDigest(kit, evs[i]).value).Ok?
  {
    RequestAt(evs, i);
    AllClaimsOkIff(kit, RequestsFor(evs).value);
    ClaimsOfEvidence(kit, evs[i], 0);
    forall j: nat | j < |Answer(kit, evs[i]).value|
      ensures var c := ClaimsOf(kit, RequestsFor(evs).value[i]).value[j];
        (c.claims, c.teeClass) == Answer(kit, evs[i]).value[j]
    {
      ClaimsOfEvidence(kit, evs[i], j);
    }
  }

  /** The key found in an appraisal is in the runtime data of its claim, which was vouched for. */
  lemma KeyOfAppraisal(policy: EarToken.Policy, id: string, t: EarToken.TeeClaims)
    requires EarToken.Appraise(policy, id, t).Ok?
    ensures Fetch(EarToken.Appraise(policy, id, t).value.evidence, "runtime_data_claims")
         == if Field(t.claims, "report_data").Some? then Some(t.runtimeDataClaims) else None
  {
    EarToken.ClaimsPartition(t);
  }

  /** The submodules of the token that is issued for evidence. */
  lemma IssuedSubmods<K>(kit: Kit, policy: EarToken.Policy, stamp: EarToken.Stamp, evs: seq<Evidence>,
                         body: Json, deserialize: Json -> Result<K>)
    returns (submods: map<string, EarToken.Appraisal>)
    requires VerifiedEvidence(kit, policy, stamp, evs) == Ok(body)
    ensures evs != [] && RequestsFor(evs).Ok? && AllClaims(kit, RequestsFor(evs).value).Ok?
    ensures EarToken.Submods(policy, "default", AllClaims(kit, RequestsFor(evs).value).value) == Ok(submods)
    ensures ExtractedKey(BUILT_IN, body, deserialize) == KeyFrom(submods, deserialize)
  {
    submods := EarToken.Submods(policy, "default", AllClaims(kit, RequestsFor(evs).value).value).value;
    KeyOfBody(stamp, stamp.expires.value, submods, body, deserialize);
  }

  lemma SubmodKeyIsBound<K>(kit: Kit, policy: EarToken.Policy, evs: seq<Evidence>,
                            submods: map<string, EarToken.Appraisal>, deserialize: Json -> Result<K>)
    returns (i: nat)
    requires RequestsFor(evs).Ok? && AllClaims(kit, RequestsFor(evs).value).Ok?
    requires EarToken.Submods(policy, "default", AllClaims(kit, RequestsFor(evs).value).value) == Ok(submods)
    requires forall i :: 0 <= i < |evs| ==> evs[i].runtimeData.Obj?
    requires KeyFrom(submods, deserialize).Ok?
    ensures i < |evs| && VouchedFor(kit, evs[i]) && Field(evs[i].runtimeData, "tee-pubkey").Some?
    ensures KeyFrom(submods, deserialize) == deserialize(Field(evs[i].runtimeData, "tee-pubkey").value)
  {
    var requests := RequestsFor(evs).value;
    var claims := AllClaims(kit, requests).value;
    var c := Cpu0Submod(policy, "default", claims);
    var j;
    i, j := ClaimHasRequest(kit, requests, c);
    RequestAt(evs, i);
    ClaimsOfEvidence(kit, evs[i], j);
    KeyOfAppraisal(policy, "default", claims[c]);
    assert Vouches(Answer(kit, evs[i]).value[j]);
    AnswerVouches(kit, evs[i]);
  }

  /** Safety: whatever the verifiers claim, a key extracted from an issued token is the key of the
      evidence, and it was read from runtime data whose digest the verifier vouched for. */
  lemma ExtractedKeyIsBound<K>(kit: Kit, policy: EarToken.Policy, stamp: EarToken.Stamp, evs: seq<Evidence>,
                               body: Json, deserialize: Json -> Result<K>)
    returns (i: nat)
    requires VerifiedEvidence(kit, policy, stamp, evs) == Ok(body)
    requires forall i :: 0 <= i < |evs| ==> evs[i].runtimeData.Obj?
    requires ExtractedKey(BUILT_IN, body, deserialize).Ok?
    ensures i < |evs| && VouchedFor(kit, evs[i]) && Field(evs[i].runtimeData, "tee-pubkey").Some?
    ensures ExtractedKey(BUILT_IN, body, deserialize) == deserialize(Field(evs[i].runtimeData, "tee-pubkey").value)
  {
    var submods := IssuedSubmods(kit, policy, stamp, evs, body, deserialize);
    i := SubmodKeyIsBound(kit, policy, evs, submods, deserialize);
  }

  lemma FirstClaim(kit: Kit, evs: seq<Evidence>)
    requires evs != [] && RequestsFor(evs).Ok? && AllClaims(kit, RequestsFor(evs).value).Ok?
    requires Answer(kit, evs[0]).Ok? && Answer(kit, evs[0]).value != []
    ensures var claims := AllClaims(kit, RequestsFor(evs).value).value;
      && claims != []
      && claims[0].tee == evs[0].tee && claims[0].runtimeDataClaims == evs[0].runtimeData
      && (claims[0].claims, claims[0].teeClass) == Answer(kit, evs[0]).value[0]
  {
    RequestAt(evs, 0);
    ClaimsOfEvidence(kit, evs[0], 0);
  }

  lemma PrimarySubmodKey<K>(kit: Kit, policy: EarToken.Policy, evs: seq<Evidence>,
                            submods: map<string, EarToken.Appraisal>, deserialize: Json -> Result<K>)
    requires evs != [] && RequestsFor(evs).Ok? && AllClaims(kit, RequestsFor(evs).value).Ok?
    requires EarToken.Submods(policy, "default", AllClaims(kit, RequestsFor(evs).value).value) == Ok(submods)
    requires evs[0].runtimeData.Obj?
    requires Answer(kit, evs[0]).Ok? && Answer(kit, evs[0]).value != []
    requires Answer(kit, evs[0]).value[0].1 == "cpu"
    requires EarToken.Count(AllClaims(kit, RequestsFor(evs).value).value, "cpu") <= 256
    ensures KeyFrom(submods, deserialize)
         == var key := Field(evs[0].runtimeData, "tee-pubkey");
            if Vouches(Answer(kit, evs[0]).value[0]) && key.Some? then deserialize(key.value) else Err
  {
    var claims := AllClaims(kit, RequestsFor(evs).value).value;
    FirstClaim(kit, evs);
    Cpu0IsFirst(policy, "default", claims);
    KeyOfAppraisal(policy, "default", claims[0]);
  }

  /** Key binding: if the verifier of the primary evidence gives a "cpu" claim first, and there are
      at most 256 of them, the extracted key is the one in the primary runtime data exactly when
      the verifier vouched for that data; otherwise there is none. */
  lemma PrimaryKeyBinding<K>(kit: Kit, policy: EarToken.Policy, stamp: EarToken.Stamp, evs: seq<Evidence>,
                             body: Json, deserialize: Json -> Result<K>)
    requires VerifiedEvidence(kit, policy, stamp, evs) == Ok(body)
    requires evs != [] && evs[0].runtimeData.Obj?
    requires Answer(kit, evs[0]).Ok? && Answer(kit, evs[0]).value != []
    requires Answer(kit, evs[0]).value[0].1 == "cpu"
    requires EarToken.Count(AllClaims(kit, RequestsFor(evs).value).value, "cpu") <= 256
    ensures ExtractedKey(BUILT_IN, body, deserialize)
         == var key := Field(evs[0].runtimeData, "tee-pubkey");
            if Vouches(Answer(kit, evs[0]).value[0]) && key.Some? then deserialize(key.value) else Err
  {
    var submods := IssuedSubmods(kit, policy, stamp, evs, body, deserialize);
    PrimarySubmodKey(kit, policy, evs, submods, deserialize);
  }

  /** Key binding of a message: the key is that of the client, and what was looked for in the primary
      evidence is the digest of the runtime data with this key, the nonce and the additional evidence. */
  lemma MessageKeyBinding<K>(kit: Kit, policy: EarToken.Policy, stamp: EarToken.Stamp,
                             parse: Sessions.AdditionalParser, tee: Tees.Tee, nonce: string,
                             att: Sessions.Attestation, evs: seq<Evidence>, body: Json, deserialize: Json -> Result<K>)
    requires Sessions.IsEvidenceFor(parse, tee, nonce, att, evs)
    requires VerifiedEvidence(kit, policy, stamp, evs) == Ok(body)
    requires Answer(kit, evs[0]).Ok? && Answer(kit, evs[0]).value != []
    requires Answer(kit, evs[0]).value[0].1 == "cpu"
    requires EarToken.Count(AllClaims(kit, RequestsFor(evs).value).value, "cpu") <= 256
    ensures ExtractedKey(BUILT_IN, body, deserialize)
         == if Vouches(Answer(kit, evs[0]).value[0]) then deserialize(att.teePubkey) else Err
    ensures kit.canonical(Sessions.PrimaryRuntimeData(nonce, att)).Ok?
    ensures ExpectedReportData(kit, evs[0])
         == Ok(kit.digest(Sha384, kit.canonical(Sessions.PrimaryRuntimeData(nonce, att)).value))
  {
    PrimaryIsBound(parse, tee, nonce, att, evs);
    PrimaryKeyBinding(kit, policy, stamp, evs, body, deserialize);
  }

  lemma PrimaryIsBound(parse: Sessions.AdditionalParser, tee: Tees.Tee, nonce: string,
                       att: Sessions.Attestation, evs: seq<Evidence>)
    requires Sessions.IsEvidenceFor(parse, tee, nonce, att, evs)
    ensures evs != [] && evs[0].runtimeData == Sessions.PrimaryRuntimeData(nonce, att)
    ensures evs[0].runtimeData.Obj? && Field(evs[0].runtimeData, "tee-pubkey") == Some(att.teePubkey)
  {
    SessionProofs.EvidenceIsBound(parse, tee, nonce, att, evs);
  }

  lemma {:induction false} CountAtMost(claims: seq<EarToken.TeeClaims>, c: string)
    ensures EarToken.Count(claims, c) <= |claims|
  {
    if claims != [] {
      CountAtMost(claims[..|claims| - 1], c);
    }
  }

  lemma {:induction false} HostedClaims(kit: Kit, requests: seq<Request>)
    requires kit.verifiers.Hosted? && AllClaims(kit, requests).Ok?
    ensures |AllClaims(kit, requests).value| == |requests|
  {
    if requests != [] {
      HostedClaims(kit, requests[1..]);
    }
  }

  /** With hosted verifier components the primary claim is always a "cpu" claim, so that up to 256
      pieces of evidence the binding depends on the component's answer alone. */
  lemma HostedKeyBinding<K>(kit: Kit, policy: EarToken.Policy, stamp: EarToken.Stamp, evs: seq<Evidence>,
                            body: Json, deserialize: Json -> Result<K>)
    requires kit.verifiers.Hosted? && 1 <= |evs| <= 256
    requires VerifiedEvidence(kit, policy, stamp, evs) == Ok(body)
    requires evs[0].runtimeData.Obj?
    ensures Answer(kit, evs[0]).Ok? && |Answer(kit, evs[0]).value| == 1
    ensures ExtractedKey(BUILT_IN, body, deserialize)
         == var key := Field(evs[0].runtimeData, "tee-pubkey");
            if Vouches(Answer(kit, evs[0]).value[0]) && key.Some? then deserialize(key.value) else Err
  {
    HostedAnswer(kit, policy, stamp, evs, body);
    PrimaryKeyBinding(kit, policy, stamp, evs, body, deserialize);
  }

  lemma HostedAnswer(kit: Kit, policy: EarToken.Policy, stamp: EarToken.Stamp, evs: seq<Evidence>, body: Json)
    requires kit.verifiers.Hosted? && 1 <= |evs| <= 256
    requires VerifiedEvidence(kit, policy, stamp, evs) == Ok(body)
    ensures Answer(kit, evs[0]).Ok? && |Answer(kit, evs[0]).value| == 1 && Answer(kit, evs[0]).value[0].1 == "cpu"
    ensures RequestsFor(evs).Ok? && AllClaims(kit, RequestsFor(evs).value).Ok?
    ensures EarToken.Count(AllClaims(kit, RequestsFor(evs).value).value, "cpu") <= 256
  {
    var requests := RequestsFor(evs).value;
    HostedClaims(kit, requests);
    CountAtMost(AllClaims(kit, requests).value, "cpu");
    RequestAt(evs, 0);
    ClaimsOfEvidence(kit, evs[0], 0);
  }

  /** The same for a client message: its few kinds of devices stay within the counter. */
  lemma HostedMessageBinding<K>(kit: Kit, policy: EarToken.Policy, stamp: EarToken.Stamp,
                                parse: Sessions.AdditionalParser, tee: Tees.Tee, nonce: string,
                                att: Sessions.Attestation, evs: seq<Evidence>, body: Json,
                                deserialize: Json -> Result<K>)
    requires kit.verifiers.Hosted? && Sessions.IsEvidenceFor(parse, tee, nonce, att, evs)
    requires VerifiedEvidence(kit, policy, stamp, evs) == Ok(body)
    ensures Answer(kit, evs[0]).Ok? && |Answer(kit, evs[0]).value| == 1
    ensures ExtractedKey(BUILT_IN, body, deserialize)
         == if Vouches(Answer(kit, evs[0]).value[0]) then deserialize(att.teePubkey) else Err
  {
    Tees.AtMostAllKinds(Sessions.Additional(parse, att).value);
    PrimaryIsBound(parse, tee, nonce, att, evs);
    HostedKeyBinding(kit, policy, stamp, evs, body, deserialize);
  }

  // ---- End to end ----

  /** With this kit and policy the token of a call opens to the claims issued for its evidence. Both
      may change from call to call. */
  ghost predicate IssuedWith(kit: Kit, policy: EarToken.Policy, open: string -> Json, call: Sessions.VerifyCall) {
    exists stamp :: VerifiedEvidence(kit, policy, stamp, call.evs) == Ok(open(call.token))
  }

  ghost predicate Issued(open: string -> Json, call: Sessions.VerifyCall) {
    exists kit, policy :: IssuedWith(kit, policy, open, call)
  }

  /** In every interleaving of requests, the key extracted from the token of an attested session is
      the one key common to all evidence of one genuine attestation of this session, and a verifier of
      that call vouched for runtime data that holds this key and the session's nonce. */
  lemma SessionKeyIsBound<K>(parse: Sessions.AdditionalParser, s: Sessions.State, sid: Sessions.SessionId,
                             open: string -> Json, deserialize: Json -> Result<K>)
    returns (kit: Kit, evs: seq<Evidence>, i: nat)
    requires Sessions.Reachable(parse, s) && sid in s.sessions && s.sessions[sid].Attested?
    requires forall call :: call in s.calls ==> Issued(open, call)
    requires ExtractedKey(BUILT_IN, open(s.sessions[sid].token), deserialize).Ok?
    ensures Sessions.VerifyCall(evs, s.sessions[sid].token) in s.calls
    ensures exists policy :: IssuedWith(kit, policy, open, Sessions.VerifyCall(evs, s.sessions[sid].token))
    ensures sid in s.openings && SessionProofs.Genuine(s.openings[sid], evs)
    ensures i < |evs| && VouchedFor(kit, evs[i])
    ensures Field(evs[i].runtimeData, "nonce") == Some(Str(s.openings[sid].nonce))
    ensures Field(evs[i].runtimeData, "tee-pubkey") == Field(evs[0].runtimeData, "tee-pubkey")
    ensures ExtractedKey(BUILT_IN, open(s.sessions[sid].token), deserialize)
         == deserialize(Field(evs[0].runtimeData, "tee-pubkey").value)
  {
    var call := CallOfSession(parse, s, sid);
    evs := call.evs;
    kit, i := CallKeyIsBound(s.openings[sid], open, call, open(call.token), deserialize);
  }

  lemma CallOfSession(parse: Sessions.AdditionalParser, s: Sessions.State, sid: Sessions.SessionId)
    returns (call: Sessions.VerifyCall)
    requires Sessions.Reachable(parse, s) && sid in s.sessions && s.sessions[sid].Attested?
    ensures call in s.calls && call == Sessions.VerifyCall(call.evs, s.sessions[sid].token)
    ensures sid in s.openings && SessionProofs.Genuine(s.openings[sid], call.evs)
  {
    SessionProofs.TokenProvenance(parse, s);
    call :| call in s.calls && call.token == s.sessions[sid].token
            && SessionProofs.Genuine(s.openings[sid], call.evs);
  }

  lemma CallKeyIsBound<K>(o: Sessions.Opening, open: string -> Json, call: Sessions.VerifyCall, body: Json,
                          deserialize: Json -> Result<K>)
    returns (kit: Kit, i: nat)
    requires Issued(open, call) && SessionProofs.Genuine(o, call.evs) && body == open(call.token)
    requires ExtractedKey(BUILT_IN, body, deserialize).Ok?
    ensures exists policy :: IssuedWith(kit, policy, open, call)
    ensures i < |call.evs| && VouchedFor(kit, call.evs[i])
    ensures ExtractedKey(BUILT_IN, body, deserialize)
         == deserialize(Field(call.evs[0].runtimeData, "tee-pubkey").value)
  {
    var callKit, policy :| IssuedWith(callKit, policy, open, call);
    kit := callKit;
    i := GenuineKeyIsBound(o, kit, policy, open, call, body, deserialize);
  }

  lemma GenuineKeyIsBound<K>(o: Sessions.Opening, kit: Kit, policy: EarToken.Policy, open: string -> Json,
                             call: Sessions.VerifyCall, body: Json, deserialize: Json -> Result<K>)
    returns (i: nat)
    requires IssuedWith(kit, policy, open, call) && SessionProofs.Genuine(o, call.evs) && body == open(call.token)
    requires ExtractedKey(BUILT_IN, body, deserialize).Ok?
    ensures i < |call.evs| && VouchedFor(kit, call.evs[i])
    ensures ExtractedKey(BUILT_IN, body, deserialize)
         == deserialize(Field(call.evs[0].runtimeData, "tee-pubkey").value)
  {
    GenuineData(o, call.evs);
    var stamp :| VerifiedEvidence(kit, policy, stamp, call.evs) == Ok(open(call.token));
    i := ExtractedKeyIsBound(kit, policy, stamp, call.evs, body, deserialize);
  }

  lemma GenuineData(o: Sessions.Opening, evs: seq<Evidence>)
    requires SessionProofs.Genuine(o, evs)
    ensures forall i :: 0 <= i < |evs| ==> evs[i].runtimeData.Obj?
    ensures Field(evs[0].runtimeData, "tee-pubkey").Some?
    ensures forall i :: 0 <= i < |evs| ==>
      Field(evs[i].runtimeData, "tee-pubkey") == Field(evs[0].runtimeData, "tee-pubkey")
  {
  }
}
