/** Assembling an attestation token: partitioning the claims and naming the submodules. */
module EarToken {
  import opened Common
  import opened Json
  import Tees
  import opened Decimals

  type Claims = map<string, Json>

  datatype TeeClaims = TeeClaims(
    tee: Tees.Tee, teeClass: string, claims: Json, initDataClaims: Json, runtimeDataClaims: Json)

  /** The appraisal of one device; `verdict` holds the members the policy determines. */
  datatype Appraisal = Appraisal(evidence: Claims, verdict: Claims)

  /** The policy engine: claims and policy id to a verdict. */
  type Policy = (Claims, string) -> Result<Claims>

  // ---- Partitioning the claims ----

  /** A claim the verifier has validated, beside the data it vouches for. It must be a string. */
  function Vouched(claims: Claims, name: string, dataName: string, data: Json): Result<Claims> {
    if name !in claims then Ok(map[])
    else if claims[name].Str? then Ok(map[name := claims[name], dataName := data])
    else Err
  }

  /** Claims in token form: validated claims with their data, the others under the name of the TEE. */
  function Transformed(t: TeeClaims): Result<Claims> {
    if !t.claims.Obj? then Ok(map[Tees.NameOf(t.tee) := t.claims])
    else
      var all := t.claims.fields;
      var initData :- Vouched(all, "init_data", "init_data_claims", t.initDataClaims);
      var reportData :- Vouched(all, "report_data", "runtime_data_claims", t.runtimeDataClaims);
      Ok((initData + reportData)[Tees.NameOf(t.tee) := Obj(all - {"init_data", "report_data"})])
  }

  method TransformClaims(t: TeeClaims) returns (r: Result<Claims>)
    ensures r == Transformed(t)
  {
    var input, output: Claims := t.claims, map[];
    if input.Obj? {
      var claims := input.fields;
      if "init_data" in claims {
        var initData := claims["init_data"];
        claims := claims - {"init_data"};
        if !initData.Str? { return Err; }
        output := output["init_data" := initData];
        output := output["init_data_claims" := t.initDataClaims];
      }
      if "report_data" in claims {
        var reportData := claims["report_data"];
        claims := claims - {"report_data"};
        if !reportData.Str? { return Err; }
        output := output["report_data" := reportData];
        output := output["runtime_data_claims" := t.runtimeDataClaims];
      }
      assert claims == t.claims.fields - {"init_data", "report_data"};
      assert output == Vouched(t.claims.fields, "init_data", "init_data_claims", t.initDataClaims).value
                     + Vouched(t.claims.fields, "report_data", "runtime_data_claims", t.runtimeDataClaims).value;
      input := Obj(claims);
    }
    output := output[Tees.NameOf(t.tee) := input];
    return Ok(output);
  }

  /** The name of a TEE is none of the names beside it. */
  lemma NameIsFree(name: string)
    requires '_' !in name
    ensures name != "init_data" && name != "report_data"
    ensures name != "init_data_claims" && name != "runtime_data_claims"
  {
    assert "init_data"[4] == "init_data_claims"[4] == '_' && "report_data"[6] == '_' && "runtime_data_claims"[7] == '_';
  }

  const VOUCHED: set<string> := {"init_data", "report_data"}

  /** The claims of the verifier that stand beside the ones under the name of the TEE. */
  function Beside(out: Claims): Claims {
    map k | k in out && k in VOUCHED :: out[k]
  }

  /** The partition loses nothing and adds nothing: the verifier's claims can be put together again,
      and validated data is in the token exactly when the verifier made the claim for it. */
  lemma ClaimsPartition(t: TeeClaims)
    requires Transformed(t).Ok?
    ensures Tees.NameOf(t.tee) in Transformed(t).value
    ensures t.claims.Obj? ==> Transformed(t).value[Tees.NameOf(t.tee)].Obj?
    ensures t.claims.Obj? ==>
      t.claims.fields == Transformed(t).value[Tees.NameOf(t.tee)].fields + Beside(Transformed(t).value)
    ensures t.claims.Obj? ==> Transformed(t).value[Tees.NameOf(t.tee)].fields.Keys !! {"init_data", "report_data"}
    ensures Fetch(Transformed(t).value, "init_data_claims")
         == if Field(t.claims, "init_data").Some? then Some(t.initDataClaims) else None
    ensures Fetch(Transformed(t).value, "runtime_data_claims")
         == if Field(t.claims, "report_data").Some? then Some(t.runtimeDataClaims) else None
  {
    var out, name := Transformed(t).value, Tees.NameOf(t.tee);
    NameIsFree(name);
    if t.claims.Obj? {
      var rest, beside := out[name].fields, Beside(out);
      forall k ensures k in t.claims.fields <==> k in rest + beside {}
      assert t.claims.fields == rest + beside;
    }
  }

  // ---- Naming the submodules ----

  /** How many claims are of one class. */
  function Count(claims: seq<TeeClaims>, c: string): nat {
    if claims == [] then 0
    else Count(claims[..|claims| - 1], c) + (if claims[|claims| - 1].teeClass == c then 1 else 0)
  }

  /** The name the `i`-th claim gets: its class, and how many of the class came before it, in a byte. */
  function NameOf(claims: seq<TeeClaims>, i: nat): string
    requires i < |claims|
  {
    claims[i].teeClass + Decimal(Count(claims[..i], claims[i].teeClass) % 256)
  }

  function Appraise(policy: Policy, policyId: string, t: TeeClaims): Result<Appraisal> {
    var evidence :- Transformed(t);
    var verdict :- policy(evidence, policyId + "_" + t.teeClass);
    Ok(Appraisal(evidence, verdict))
  }

  function Appraisals(policy: Policy, policyId: string, claims: seq<TeeClaims>): (r: Result<seq<Appraisal>>)
    ensures r.Ok? ==> |r.value| == |claims|
  {
    if claims == [] then Ok([])
    else
      var n := |claims| - 1;
      var before :- Appraisals(policy, policyId, claims[..n]);
      var last :- Appraise(policy, policyId, claims[n]);
      Ok(before + [last])
  }

  function Names(claims: seq<TeeClaims>): seq<string> {
    seq(|claims|, i requires 0 <= i < |claims| => NameOf(claims, i))
  }

  /** Values inserted into a map one by one; of two with one name the later stays. */
  function Collected<V>(names: seq<string>, values: seq<V>): map<string, V>
    requires |names| == |values|
  {
    if names == [] then map[]
    else var n := |names| - 1; Collected(names[..n], values[..n])[names[n] := values[n]]
  }

  function Submods(policy: Policy, policyId: string, claims: seq<TeeClaims>): Result<map<string, Appraisal>> {
    var appraisals :- Appraisals(policy, policyId, claims);
    Ok(Collected(Names(claims), appraisals))
  }

  /** Claims are put in token form and shown to the policy of their class. */
  method AppraiseOne(policy: Policy, policyId: string, t: TeeClaims) returns (r: Result<Appraisal>)
    ensures r == Appraise(policy, policyId, t)
  {
    var evidence :- TransformClaims(t);
    var verdict :- policy(evidence, policyId + "_" + t.teeClass);
    return Ok(Appraisal(evidence, verdict));
  }

  /** The loop over all claims, with a byte counter per class. */
  method Issue(policy: Policy, policyIds: seq<string>, claims: seq<TeeClaims>)
    returns (r: Result<map<string, Appraisal>>)
    ensures r == if policyIds == [] then Err else Submods(policy, policyIds[0], claims)
  {
    if policyIds == [] { return Err; }
    var indices: map<string, nat>, submods: map<string, Appraisal> := map[], map[];
    ghost var names, done: seq<Appraisal> := Names(claims), [];
    for i := 0 to |claims|
      invariant Appraisals(policy, policyIds[0], claims[..i]) == Ok(done)
      invariant submods == Collected(names[..i], done)
      invariant CountersAre(indices, claims[..i])
    {
      var t := claims[i];
      AppraisalsStep(policy, policyIds[0], claims, i);
      var appraised := AppraiseOne(policy, policyIds[0], t);
      if appraised.Err? {
        AppraisalsErr(policy, policyIds[0], claims, i + 1);
        return Err;
      }
      CountersStep(indices, claims, i);
      indices := indices[t.teeClass := NextIndex(indices, t.teeClass)];
      ghost var before := done;
      var appraisal := appraised.value;
      submods := submods[t.teeClass + Decimal(indices[t.teeClass]) := appraisal];
      done := done + [appraisal];
      CollectedStep(names, before, i, appraisal);
    }
    assert claims[..|claims|] == claims && names[..|claims|] == names;
    return Ok(submods);
  }

  /** The counter of each class met so far holds the number its last claim was given. */
  ghost predicate CountersAre(indices: map<string, nat>, claims: seq<TeeClaims>) {
    && (forall c :: c in indices <==> Count(claims, c) > 0)
    && (forall c :: c in indices ==> indices[c] == (Count(claims, c) - 1) % 256)
  }

  /** The number the next claim of class `c` is given. */
  function NextIndex(indices: map<string, nat>, c: string): nat {
    if c in indices then (indices[c] + 1) % 256 else 0
  }

  lemma CountStep(claims: seq<TeeClaims>, i: nat, c: string)
    requires i < |claims|
    ensures Count(claims[..i + 1], c) == Count(claims[..i], c) + (if claims[i].teeClass == c then 1 else 0)
  {
    assert claims[..i + 1][..i] == claims[..i];
  }

  lemma ByteCounts(k: int)
    ensures ((k - 1) % 256 + 1) % 256 == k % 256
  {}

  lemma CountersStep(indices: map<string, nat>, claims: seq<TeeClaims>, i: nat)
    requires i < |claims| && CountersAre(indices, claims[..i])
    ensures var c := claims[i].teeClass;
      CountersAre(indices[c := NextIndex(indices, c)], claims[..i + 1])
    ensures Names(claims)[i] == claims[i].teeClass + Decimal(NextIndex(indices, claims[i].teeClass))
  {
    var c, before, now := claims[i].teeClass, claims[..i], claims[..i + 1];
    ByteCounts(Count(before, c));
    assert NextIndex(indices, c) == Count(before, c) % 256;
    var indices' := indices[c := NextIndex(indices, c)];
    forall d ensures d in indices' <==> Count(now, d) > 0
             ensures d in indices' ==> indices'[d] == (Count(now, d) - 1) % 256
    {
      CountStep(claims, i, d);
    }
  }

  lemma CollectedStep<V>(names: seq<string>, values: seq<V>, i: nat, value: V)
    requires |values| == i < |names|
    ensures Collected(names[..i + 1], values + [value]) == Collected(names[..i], values)[names[i] := value]
  {
    assert names[..i + 1][..i] == names[..i];
    Split(values, [value]);
  }

  lemma AppraisalsStep(policy: Policy, policyId: string, claims: seq<TeeClaims>, i: nat)
    requires i < |claims| && Appraisals(policy, policyId, claims[..i]).Ok?
    ensures Appraisals(policy, policyId, claims[..i + 1])
         == var last :- Appraise(policy, policyId, claims[i]);
            Ok(Appraisals(policy, policyId, claims[..i]).value + [last])
  {
    assert claims[..i + 1][..i] == claims[..i];
  }

  lemma {:induction false} AppraisalsErr(policy: Policy, policyId: string, claims: seq<TeeClaims>, i: nat)
    requires i <= |claims| && Appraisals(policy, policyId, claims[..i]).Err?
    ensures Appraisals(policy, policyId, claims).Err?
    decreases |claims|
  {
    if i == |claims| {
      assert claims[..i] == claims;
    } else {
      var shorter := claims[..|claims| - 1];
      assert shorter[..i] == claims[..i];
      AppraisalsErr(policy, policyId, shorter, i);
    }
  }

  /** Who issued the token and when; `expires` is missing when the time would overflow. */
  datatype Stamp = Stamp(profile: string, issuedAt: int, verifier: Json, expires: Option<int>)

  function AppraisalJson(a: Appraisal): Json {
    Obj(a.verdict["ear.veraison.annotated-evidence" := Obj(a.evidence)])
  }

  function SubmodsJson(m: map<string, Appraisal>): Json {
    Obj(map name | name in m :: AppraisalJson(m[name]))
  }

  /** The claims of the token that is signed. */
  function TokenBody(stamp: Stamp, expires: int, submods: map<string, Appraisal>): Json {
    Obj(map["eat_profile" := Str(stamp.profile),
            "iat" := Num(stamp.issuedAt),
            "ear.verifier-id" := stamp.verifier,
            "exp" := Num(expires),
            "submods" := SubmodsJson(submods)])
  }

  lemma {:induction false} AppraisalsAt(policy: Policy, policyId: string, claims: seq<TeeClaims>, i: nat)
    requires Appraisals(policy, policyId, claims).Ok? && i < |claims|
    ensures Appraise(policy, policyId, claims[i]) == Ok(Appraisals(policy, policyId, claims).value[i])
  {
    if i < |claims| - 1 {
      AppraisalsAt(policy, policyId, claims[..|claims| - 1], i);
    }
  }

  lemma {:induction false} AppraisalsOkIff(policy: Policy, policyId: string, claims: seq<TeeClaims>)
    ensures Appraisals(policy, policyId, claims).Ok?
        <==> forall i :: 0 <= i < |claims| ==> Appraise(policy, policyId, claims[i]).Ok?
  {
    if claims != [] {
      AppraisalsOkIff(policy, policyId, claims[..|claims| - 1]);
    }
  }

  // ---- What inserting one by one keeps ----

  predicate Distinct(names: seq<string>) {
    forall i, j :: 0 <= i < j < |names| ==> names[i] != names[j]
  }

  /** Position `i` is the last one with its name. */
  predicate IsLast(names: seq<string>, i: int) {
    0 <= i < |names| && forall j :: i < j < |names| ==> names[j] != names[i]
  }

  lemma {:induction false} CollectedKeys<V>(names: seq<string>, values: seq<V>)
    requires |names| == |values|
    ensures forall name :: name in Collected(names, values) <==> name in names
  {
    if names != [] {
      var n := |names| - 1;
      CollectedKeys(names[..n], values[..n]);
      assert names == names[..n] + [names[n]];
    }
  }

  lemma {:induction false} CollectedAt<V>(names: seq<string>, values: seq<V>, i: nat)
    requires |names| == |values| && IsLast(names, i)
    ensures names[i] in Collected(names, values) && Collected(names, values)[names[i]] == values[i]
  {
    var n := |names| - 1;
    if i < n {
      assert IsLast(names[..n], i) && names[i] == names[..n][i] && names[i] != names[n];
      CollectedAt(names[..n], values[..n], i);
    }
  }

  /** The keys are the names, and each holds the value of its last position. */
  lemma CollectedContents<V>(names: seq<string>, values: seq<V>)
    requires |names| == |values|
    ensures forall name :: name in Collected(names, values) <==> name in names
    ensures forall i :: IsLast(names, i) ==>
      names[i] in Collected(names, values) && Collected(names, values)[names[i]] == values[i]
  {
    CollectedKeys(names, values);
    forall i | IsLast(names, i)
      ensures names[i] in Collected(names, values) && Collected(names, values)[names[i]] == values[i]
    {
      CollectedAt(names, values, i);
    }
  }

  lemma {:induction false} CollectedSize<V>(names: seq<string>, values: seq<V>)
    requires |names| == |values|
    ensures |Collected(names, values)| <= |names|
    ensures |Collected(names, values)| == |names| <==> Distinct(names)
  {
    if names != [] {
      var n := |names| - 1;
      var m := Collected(names[..n], values[..n]);
      CollectedSize(names[..n], values[..n]);
      CollectedKeys(names[..n], values[..n]);
      InsertSize(m, names[n], values[n]);
      DistinctStep(names);
    }
  }

  lemma DistinctStep(names: seq<string>)
    requires names != []
    ensures var n := |names| - 1;
      Distinct(names) <==> Distinct(names[..n]) && names[n] !in names[..n]
  {
    var n := |names| - 1;
    if Distinct(names[..n]) && names[n] !in names[..n] {
      forall i, j | 0 <= i < j < |names| ensures names[i] != names[j] {
        assert names[..n][i] == names[i];
        if j < n {
          assert names[..n][j] == names[j];
        }
      }
    }
  }

  lemma InsertSize<V>(m: map<string, V>, k: string, v: V)
    ensures |m[k := v]| == |m| + (if k in m then 0 else 1)
  {
    assert m[k := v].Keys == m.Keys + {k};
    assert |m[k := v].Keys| == |m[k := v]| && |m.Keys| == |m|;
  }

  // ---- Which names differ ----

  /** A class name that does not end in a digit can be told from the number after it. */
  predicate PlainClass(c: string) {
    c == "" || !IsDigit(c[|c| - 1])
  }

  /** If a class name reaches into the number after another one, it ends in a digit. */
  lemma LongerEndsInDigit(c: string, number: string, d: string, rest: string)
    requires c + number == d + rest && |c| < |d|
    requires forall i :: 0 <= i < |number| ==> IsDigit(number[i])
    ensures |d| <= |c| + |number| ==> !PlainClass(d)
  {
    if |d| <= |c| + |number| {
      assert (d + rest)[|d| - 1] == d[|d| - 1];
      assert (c + number)[|d| - 1] == number[|d| - 1 - |c|];
    }
  }

  lemma NamesSeparate(c: string, m: nat, d: string, n: nat)
    requires PlainClass(c) && PlainClass(d) && c + Decimal(m) == d + Decimal(n)
    ensures c == d && m == n
  {
    assert |c + Decimal(m)| == |c| + |Decimal(m)| && |d + Decimal(n)| == |d| + |Decimal(n)|;
    if |c| < |d| {
      LongerEndsInDigit(c, Decimal(m), d, Decimal(n));
    } else if |d| < |c| {
      LongerEndsInDigit(d, Decimal(n), c, Decimal(m));
    }
    Split(c, Decimal(m));
    Split(d, Decimal(n));
    DecimalInjective(m, n);
  }

  lemma {:induction false} CountGrows(claims: seq<TeeClaims>, i: nat, j: nat, c: string)
    requires i <= j <= |claims|
    ensures Count(claims[..i], c) <= Count(claims[..j], c)
    ensures i < j && claims[i].teeClass == c ==> Count(claims[..i], c) < Count(claims[..j], c)
    decreases j
  {
    if i < j {
      assert claims[..j][..j - 1] == claims[..j - 1];
      CountGrows(claims, i, j - 1, c);
    }
  }

  lemma OnlyFirstIsZero(claims: seq<TeeClaims>, i: nat, c: string)
    requires i < |claims| && claims[0].teeClass == claims[i].teeClass == c
    requires Count(claims, c) <= 256 && Count(claims[..i], c) % 256 == 0
    ensures i == 0
  {
    if i > 0 {
      assert claims[..|claims|] == claims;
      CountGrows(claims, 0, i, c);
      CountGrows(claims, i, |claims|, c);
    }
  }

  predicate FitByteCounter(claims: seq<TeeClaims>) {
    forall i :: 0 <= i < |claims| ==> Count(claims, claims[i].teeClass) <= 256
  }

  lemma NumberBelowCount(claims: seq<TeeClaims>, i: nat)
    requires i < |claims|
    ensures Count(claims[..i], claims[i].teeClass) < Count(claims, claims[i].teeClass)
  {
    assert claims[..|claims|] == claims;
    CountGrows(claims, i, |claims|, claims[i].teeClass);
  }

  lemma SmallNumber(claims: seq<TeeClaims>, i: nat, n: nat)
    requires i < |claims| && n == Count(claims[..i], claims[i].teeClass) && n < 256
    ensures Names(claims)[i] == claims[i].teeClass + Decimal(n)
  {
    assert n % 256 == n;
  }

  /** Within the byte counter, a claim is numbered by how many of its class came before it. */
  lemma NumberedInOrder(claims: seq<TeeClaims>, i: nat)
    requires FitByteCounter(claims) && i < |claims|
    ensures Count(claims[..i], claims[i].teeClass) < 256
    ensures Names(claims)[i] == claims[i].teeClass + Decimal(Count(claims[..i], claims[i].teeClass))
  {
    NumberBelowCount(claims, i);
    assert Count(claims, claims[i].teeClass) <= 256;
    SmallNumber(claims, i, Count(claims[..i], claims[i].teeClass));
  }

  /** Within the byte counter, two claims of one class never share a name. */
  lemma OneClassNamesDiffer(claims: seq<TeeClaims>, i: nat, j: nat)
    requires FitByteCounter(claims) && i < j < |claims| && claims[i].teeClass == claims[j].teeClass
    ensures Names(claims)[i] != Names(claims)[j]
  {
    var c := claims[i].teeClass;
    NumberedInOrder(claims, i);
    NumberedInOrder(claims, j);
    CountGrows(claims, i, j, c);
    NumbersTell(c, Count(claims[..i], c), Count(claims[..j], c));
  }

  lemma NumbersTell(c: string, m: nat, n: nat)
    requires m != n
    ensures c + Decimal(m) != c + Decimal(n)
  {
    if c + Decimal(m) == c + Decimal(n) {
      Split(c, Decimal(m));
      Split(c, Decimal(n));
      DecimalInjective(m, n);
    }
  }

  lemma PlainNamesDiffer(claims: seq<TeeClaims>, i: nat, j: nat)
    requires i < j < |claims| && claims[i].teeClass != claims[j].teeClass
    requires PlainClass(claims[i].teeClass) && PlainClass(claims[j].teeClass)
    ensures Names(claims)[i] != Names(claims)[j]
  {
    var c, d := claims[i].teeClass, claims[j].teeClass;
    var m, n := Count(claims[..i], c) % 256, Count(claims[..j], d) % 256;
    if c + Decimal(m) == d + Decimal(n) {
      NamesSeparate(c, m, d, n);
    }
  }

  // ---- Conservation ----

  /** Submodule conservation: with class names that do not end in a digit and at most 256 claims of
      each class, every claim has its own submodule, under its class and its number in the class. */
  lemma SubmoduleConservation(policy: Policy, policyId: string, claims: seq<TeeClaims>)
    requires Submods(policy, policyId, claims).Ok?
    requires forall i :: 0 <= i < |claims| ==> PlainClass(claims[i].teeClass)
    requires FitByteCounter(claims)
    ensures |Submods(policy, policyId, claims).value| == |claims|
    ensures forall i :: 0 <= i < |claims| ==>
      HasSubmod(Submods(policy, policyId, claims).value, policy, policyId, claims[i],
                Count(claims[..i], claims[i].teeClass))
  {
    var names, appraisals := Names(claims), Appraisals(policy, policyId, claims).value;
    forall i, j | 0 <= i < j < |names| ensures names[i] != names[j] {
      if claims[i].teeClass == claims[j].teeClass {
        OneClassNamesDiffer(claims, i, j);
      } else {
        PlainNamesDiffer(claims, i, j);
      }
    }
    CollectedSize(names, appraisals);
    CollectedContents(names, appraisals);
    forall i | 0 <= i < |claims|
      ensures HasSubmod(Submods(policy, policyId, claims).value, policy, policyId, claims[i],
                        Count(claims[..i], claims[i].teeClass))
    {
      assert IsLast(names, i);
      AppraisalsAt(policy, policyId, claims, i);
      NumberedInOrder(claims, i);
    }
  }

  predicate HasSubmod(m: map<string, Appraisal>, policy: Policy, policyId: string, t: TeeClaims, number: nat) {
    var name := t.teeClass + Decimal(number);
    name in m && Appraise(policy, policyId, t) == Ok(m[name])
  }

  /** The submodule of a claim holds its token form, and what the policy of its class said of it. */
  lemma SubmodIsVerdict(m: map<string, Appraisal>, policy: Policy, policyId: string, t: TeeClaims, number: nat)
    requires HasSubmod(m, policy, policyId, t, number)
    ensures Transformed(t).Ok? && policy(Transformed(t).value, policyId + "_" + t.teeClass).Ok?
    ensures var a := m[t.teeClass + Decimal(number)];
      && a.evidence == Transformed(t).value
      && a.verdict == policy(Transformed(t).value, policyId + "_" + t.teeClass).value
  {
  }

  /** The token tells its issuer and its times. */
  lemma TokenTells(stamp: Stamp, expires: int, m: map<string, Appraisal>)
    ensures var body := TokenBody(stamp, expires, m);
      && Field(body, "iat") == Some(Num(stamp.issuedAt)) && Field(body, "exp") == Some(Num(expires))
      && Field(body, "eat_profile") == Some(Str(stamp.profile))
      && Field(body, "ear.verifier-id") == Some(stamp.verifier)
  {
  }

  lemma SubmodsMember(stamp: Stamp, expires: int, m: map<string, Appraisal>)
    ensures Child(TokenBody(stamp, expires, m), "submods") == Some(SubmodsJson(m))
  {
  }

  /** It has every submodule by name, with the verdict of the policy beside the evidence. */
  lemma TokenHolds(stamp: Stamp, expires: int, m: map<string, Appraisal>, name: string, member: string)
    requires name in m
    ensures var body := TokenBody(stamp, expires, m);
      && Walk(body, ["submods", name, "ear.veraison.annotated-evidence"]) == Some(Obj(m[name].evidence))
      && (member in m[name].verdict && member != "ear.veraison.annotated-evidence" ==>
            Walk(body, ["submods", name, member]) == Some(m[name].verdict[member]))
  {
    var body := TokenBody(stamp, expires, m);
    SubmodsMember(stamp, expires, m);
    assert Child(SubmodsJson(m), name) == Some(AppraisalJson(m[name]));
    WalkThree(body, "submods", name, "ear.veraison.annotated-evidence");
    WalkThree(body, "submods", name, member);
  }

  lemma WalkThree(v: Json, a: string, b: string, c: string)
    ensures Walk(v, [a, b, c])
         == match Child(v, a)
            case None => None
            case Some(x) => match Child(x, b)
              case None => None
              case Some(y) => Child(y, c)
  {
    assert [a, b, c][1..] == [b, c] && [b, c][1..] == [c] && [c][1..] == [];
    var x := Child(v, a);
    if x.Some? {
      assert Walk(v, [a, b, c]) == Walk(x.value, [b, c]);
      var y := Child(x.value, b);
      if y.Some? {
        assert Walk(x.value, [b, c]) == Walk(y.value, [c]);
        var z := Child(y.value, c);
        if z.Some? {
          assert Walk(y.value, [c]) == Walk(z.value, []) == z;
        } else {
          assert Walk(y.value, [c]) == None;
        }
      }
    }
  }

  /** Claims have a token form exactly if validated data is text. Claims that are no object stand alone. */
  lemma TransformedIff(t: TeeClaims)
    ensures Transformed(t).Ok? <==>
      && (Field(t.claims, "init_data").Some? ==> Field(t.claims, "init_data").value.Str?)
      && (Field(t.claims, "report_data").Some? ==> Field(t.claims, "report_data").value.Str?)
    ensures !t.claims.Obj? ==> Transformed(t) == Ok(map[Tees.NameOf(t.tee) := t.claims])
  {
  }

  /** The count of a class passes through every value up to its total. */
  lemma {:induction false} CountHits(claims: seq<TeeClaims>, c: string, k: nat) returns (i: nat)
    requires k < Count(claims, c)
    ensures i < |claims| && claims[i].teeClass == c && Count(claims[..i], c) == k
  {
    var n := |claims| - 1;
    if claims[n].teeClass == c && Count(claims[..n], c) == k {
      i := n;
    } else {
      i := CountHits(claims[..n], c, k);
      assert claims[..n][..i] == claims[..i];
    }
  }

  lemma SameRemainder(claims: seq<TeeClaims>, i: nat, j: nat)
    requires i < |claims| && j < |claims| && claims[i].teeClass == claims[j].teeClass
    requires Count(claims[..i], claims[i].teeClass) % 256 == Count(claims[..j], claims[j].teeClass) % 256
    ensures Names(claims)[i] == Names(claims)[j]
  {
  }

  /** More than 256 claims of one class always lose one: the byte counter starts over. */
  lemma CounterWraps(policy: Policy, policyId: string, claims: seq<TeeClaims>, c: string)
    requires Submods(policy, policyId, claims).Ok? && Count(claims, c) > 256
    ensures |Submods(policy, policyId, claims).value| < |claims|
  {
    var i := CountHits(claims, c, 0);
    var j := CountHits(claims, c, 256);
    var names := Names(claims);
    SameRemainder(claims, i, j);
    assert !Distinct(names);
    CollectedSize(names, Appraisals(policy, policyId, claims).value);
  }

  // ---- When two classes meet ----

  /** What stands before the last digits of a number is the decimal form of a number of its own, at
      most a tenth as large. */
  lemma {:induction false} DecimalPrefix(m: nat, k: nat) returns (v: nat)
    requires 1 <= k < |Decimal(m)|
    ensures v >= 1 && Decimal(m)[..k] == Decimal(v) && 10 * v <= m
  {
    DecimalParts(m);
    if k == |Decimal(m)| - 1 {
      v := m / 10;
    } else {
      v := DecimalPrefix(m / 10, k);
      assert Decimal(m)[..k] == Decimal(m / 10)[..k];
    }
  }

  /** If two different classes give one name, the longer is the shorter with digits of its number. */
  lemma MeetingNames(c: string, m: nat, d: string, n: nat) returns (v: nat)
    requires c + Decimal(m) == d + Decimal(n) && |c| < |d|
    ensures v >= 1 && d == c + Decimal(v) && 10 * v <= m
  {
    var k := |d| - |c|;
    assert |c + Decimal(m)| == |c| + |Decimal(m)| && |d + Decimal(n)| == |d| + |Decimal(n)|;
    v := DecimalPrefix(m, k);
    Split(d, Decimal(n));
    assert (c + Decimal(m))[..|d|] == c + Decimal(m)[..k];
  }

  /** Ten times a number has its digits and a zero. */
  lemma TenTimes(c: string, v: nat)
    requires v >= 1
    ensures c + Decimal(10 * v) == (c + Decimal(v)) + Decimal(0)
  {
    assert Decimal(10 * v) == Decimal(v) + ['0'] && Decimal(0) == ['0'];
    Assoc(c, Decimal(v), ['0']);
  }

  /** Class `d` is class `c` with the number `v`, and claims of `d` come with more than `10 * v` of `c`. */
  predicate Meet(claims: seq<TeeClaims>, c: string, d: string, v: nat) {
    v >= 1 && d == c + Decimal(v) && Count(claims, d) > 0 && Count(claims, c) > 10 * v
  }

  ghost predicate ClassesMeet(claims: seq<TeeClaims>) {
    exists c, d, v :: Meet(claims, c, d, v)
  }

  /** Claims of two classes with one name make the classes meet. */
  lemma OneNameMeets(claims: seq<TeeClaims>, i: nat, j: nat)
    requires FitByteCounter(claims) && i < |claims| && j < |claims|
    requires claims[i].teeClass != claims[j].teeClass && Names(claims)[i] == Names(claims)[j]
    requires |claims[i].teeClass| <= |claims[j].teeClass|
    ensures ClassesMeet(claims)
  {
    var c, d := claims[i].teeClass, claims[j].teeClass;
    var m, n := Count(claims[..i], c), Count(claims[..j], d);
    NumberedInOrder(claims, i);
    NumberedInOrder(claims, j);
    if |c| == |d| {
      Split(c, Decimal(m));
      Split(d, Decimal(n));
      assert false;
    }
    var v := MeetingNames(c, m, d, n);
    NumberBelowCount(claims, i);
    NumberBelowCount(claims, j);
    assert Meet(claims, c, d, v);
  }

  /** If two classes meet, a claim of one is named like the first claim of the other. */
  lemma MeetingSharesName(claims: seq<TeeClaims>, c: string, d: string, v: nat)
    requires FitByteCounter(claims) && Meet(claims, c, d, v)
    ensures !Distinct(Names(claims))
  {
    var i := CountHits(claims, c, 10 * v);
    var j := CountHits(claims, d, 0);
    NumberedInOrder(claims, i);
    NumberedInOrder(claims, j);
    TenTimes(c, v);
    assert |d| > |c|;
    assert Names(claims)[i] == Names(claims)[j] && i != j;
  }

  /** Within the byte counter names clash exactly if two classes meet. */
  lemma DistinctIff(claims: seq<TeeClaims>)
    requires FitByteCounter(claims)
    ensures Distinct(Names(claims)) <==> !ClassesMeet(claims)
  {
    if c, d, v :| Meet(claims, c, d, v) {
      MeetingSharesName(claims, c, d, v);
    } else {
      var names := Names(claims);
      forall i, j | 0 <= i < j < |names| ensures names[i] != names[j] {
        if claims[i].teeClass == claims[j].teeClass {
          OneClassNamesDiffer(claims, i, j);
        } else if names[i] == names[j] {
          if |claims[i].teeClass| <= |claims[j].teeClass| {
            OneNameMeets(claims, i, j);
          } else {
            OneNameMeets(claims, j, i);
          }
        }
      }
    }
  }

  /** Conservation holds exactly when no class outgrows the byte counter and no two classes meet, that
      is, no class is another one with a number `v` behind it and more than `10 * v` claims. */
  lemma ConservedIff(policy: Policy, policyId: string, claims: seq<TeeClaims>)
    requires Submods(policy, policyId, claims).Ok?
    ensures |Submods(policy, policyId, claims).value| == |claims|
        <==> FitByteCounter(claims) && !ClassesMeet(claims)
  {
    CollectedSize(Names(claims), Appraisals(policy, policyId, claims).value);
    if FitByteCounter(claims) {
      DistinctIff(claims);
    } else {
      var i :| 0 <= i < |claims| && Count(claims, claims[i].teeClass) > 256;
      CounterWraps(policy, policyId, claims, claims[i].teeClass);
    }
  }

  /** Two classes can meet in a name if one ends in a digit. */
  lemma DigitClassCollides()
    ensures "gpu1" + Decimal(0) == "gpu" + Decimal(10)
    ensures PlainClass("gpu") && !PlainClass("gpu1")
  {
    assert Decimal(10) == Decimal(1) + [DigitOf(0)] == "10";
    assert Decimal(0) == "0";
  }
}
