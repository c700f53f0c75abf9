/** Finding the public key of a TEE in the claims of an attestation token. */
module TokenVerifier {
  import opened Common
  import opened Json

  // The built-in JSON pointers, each given by its tokens.
  const ITA: seq<string> := ["tdx", "attester_runtime_data", "tee-pubkey"]
  const ITA_VTPM: seq<string> := ["tdx", "attester_user_data", "tee-pubkey"]
  const COCO: seq<string> := ["customized_claims", "runtime_data", "tee-pubkey"]
  const EAR: seq<string> :=
    ["submods", "cpu0", "ear.veraison.annotated-evidence", "runtime_data_claims", "tee-pubkey"]
  const VALUE: seq<string> := ["tee-pubkey"]

  const BUILT_IN_TOKENS: seq<seq<string>> := [ITA, ITA_VTPM, COCO, EAR, VALUE]

  const BUILT_IN: seq<string> := AllJoined(BUILT_IN_TOKENS)

  function AllJoined(tokens: seq<seq<string>>): seq<string> {
    seq(|tokens|, i requires 0 <= i < |tokens| => Joined(tokens[i]))
  }

  method PushAll(before: seq<string>, more: seq<string>) returns (paths: seq<string>)
    ensures paths == before + more
  {
    paths := before;
    for i := 0 to |more|
      invariant paths == before + more[..i]
    {
      assert more[..i + 1] == more[..i] + [more[i]];
      paths := paths + [more[i]];
    }
    assert more[..|more|] == more;
  }

  /** The configured paths come before the built-in ones, which are pushed one by one. */
  method FromConfig(extraPaths: seq<string>) returns (paths: seq<string>)
    ensures paths == extraPaths + BUILT_IN
  {
    paths := PushAll(extraPaths, BUILT_IN);
  }

  /** What the first path that leads somewhere leads to. */
  function FirstHit(paths: seq<string>, claim: Json): Option<Json> {
    if paths == [] then None
    else if Pointer(claim, paths[0]).Some? then Pointer(claim, paths[0])
    else FirstHit(paths[1..], claim)
  }

  function ExtractedKey<K>(paths: seq<string>, claim: Json, deserialize: Json -> Result<K>): Result<K> {
    match FirstHit(paths, claim)
    case Some(v) => deserialize(v)
    case None => Err
  }

  method ExtractTeePublicKey<K>(paths: seq<string>, claim: Json, deserialize: Json -> Result<K>)
    returns (r: Result<K>)
    ensures r == ExtractedKey(paths, claim, deserialize)
  {
    for i := 0 to |paths|
      invariant FirstHit(paths, claim) == FirstHit(paths[i..], claim)
    {
      var value := Pointer(claim, paths[i]);
      if value.Some? {
        return deserialize(value.value);
      }
    }
    return Err;
  }

  lemma {:induction false} FirstHitIs(paths: seq<string>, claim: Json, i: nat)
    requires i < |paths| && Pointer(claim, paths[i]).Some?
    requires forall j :: 0 <= j < i ==> Pointer(claim, paths[j]).None?
    ensures FirstHit(paths, claim) == Pointer(claim, paths[i])
  {
    if i > 0 {
      FirstHitIs(paths[1..], claim, i - 1);
    }
  }

  /** The first path that leads somewhere decides, even if no key can be read there. */
  lemma FirstPathDecides<K>(paths: seq<string>, claim: Json, i: nat, deserialize: Json -> Result<K>)
    requires i < |paths| && Pointer(claim, paths[i]).Some?
    requires forall j :: 0 <= j < i ==> Pointer(claim, paths[j]).None?
    ensures ExtractedKey(paths, claim, deserialize) == deserialize(Pointer(claim, paths[i]).value)
  {
    FirstHitIs(paths, claim, i);
  }

  lemma {:induction false} NoHit(paths: seq<string>, claim: Json)
    requires forall j :: 0 <= j < |paths| ==> Pointer(claim, paths[j]).None?
    ensures FirstHit(paths, claim).None?
  {
    if paths != [] {
      NoHit(paths[1..], claim);
    }
  }

  // ---- The built-in paths on an EAR token ----

  /** A pointer whose first token is missing leads nowhere. */
  lemma DeadEnd(claim: Json, tokens: seq<string>, path: string)
    requires claim.Obj? && tokens != [] && tokens[0] !in claim.fields
    requires path == Joined(tokens)
    ensures Pointer(claim, path).None?
  {
    PointerWalks(claim, tokens);
  }

  lemma FirstOfFive(claim: Json, paths: seq<string>)
    requires |paths| == 5 && Pointer(claim, paths[0]).None? && Pointer(claim, paths[1]).None?
    requires Pointer(claim, paths[2]).None? && Pointer(claim, paths[4]).None?
    ensures FirstHit(paths, claim) == Pointer(claim, paths[3])
  {
    if Pointer(claim, paths[3]).Some? {
      FirstHitIs(paths, claim, 3);
    } else {
      NoHit(paths, claim);
    }
  }

  lemma FourthOnly(claim: Json, tokens: seq<seq<string>>, paths: seq<string>)
    requires claim.Obj? && |tokens| == |paths| == 5
    requires forall i :: 0 <= i < 5 ==> paths[i] == Joined(tokens[i])
    requires forall i :: 0 <= i < 5 && i != 3 ==> tokens[i] != [] && tokens[i][0] !in claim.fields
    ensures FirstHit(paths, claim) == Walk(claim, tokens[3])
  {
    forall i | 0 <= i < 5 && i != 3 ensures Pointer(claim, paths[i]).None? {
      DeadEnd(claim, tokens[i], paths[i]);
    }
    FirstOfFive(claim, paths);
    PointerWalks(claim, tokens[3]);
  }

  /** On claims without the top-level members other tokens use, only the EAR path can lead anywhere. */
  lemma OnlyEarPath(claim: Json)
    requires claim.Obj? && "tdx" !in claim.fields && "customized_claims" !in claim.fields
    requires "tee-pubkey" !in claim.fields
    ensures FirstHit(BUILT_IN, claim) == Walk(claim, EAR)
  {
    FourthOnly(claim, BUILT_IN_TOKENS, BUILT_IN);
  }

  /** What each walk leads to, one after the other. */
  function FirstWalk(claim: Json, tokens: seq<seq<string>>): Option<Json> {
    if tokens == [] then None
    else if Walk(claim, tokens[0]).Some? then Walk(claim, tokens[0])
    else FirstWalk(claim, tokens[1..])
  }

  lemma {:induction false} FirstHitWalks(claim: Json, tokens: seq<seq<string>>)
    ensures FirstHit(AllJoined(tokens), claim) == FirstWalk(claim, tokens)
  {
    if tokens != [] {
      PointerWalks(claim, tokens[0]);
      FirstHitWalks(claim, tokens[1..]);
      assert AllJoined(tokens)[1..] == AllJoined(tokens[1..]);
    }
  }

  /** Where the key is looked for, in this order: two places of ITA tokens, one of CoCo tokens, the
      first CPU of EAR tokens, and the top. */
  lemma BuiltInPlaces(claim: Json)
    ensures FirstHit(BUILT_IN, claim) == FirstWalk(claim, [
      ["tdx", "attester_runtime_data", "tee-pubkey"],
      ["tdx", "attester_user_data", "tee-pubkey"],
      ["customized_claims", "runtime_data", "tee-pubkey"],
      ["submods", "cpu0", "ear.veraison.annotated-evidence", "runtime_data_claims", "tee-pubkey"],
      ["tee-pubkey"]])
  {
    FirstHitWalks(claim, BUILT_IN_TOKENS);
  }
}
