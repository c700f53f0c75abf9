/** The session map and the attestation service of the key broker, updated in place. */
module SessionService {
  import opened Common
  import opened Json
  import opened Tees
  import opened Sessions
  import opened SessionProofs

  /** Collects the evidence of an attestation message, the primary one first. */
  method BuildEvidence(parse: AdditionalParser, tee: Tee, nonce: string, att: Attestation)
    returns (r: Result<seq<IndependentEvidence>>)
    ensures r.Ok? <==> Additional(parse, att).Ok?
    ensures r.Ok? ==> IsEvidenceFor(parse, tee, nonce, att, r.value)
  {
    var evs := [PrimaryEvidence(tee, nonce, att)];
    if att.additional == "" { return Ok(evs); }
    var devices :- parse(att.additional);
    var rest := devices.Keys;
    while rest != {}
      invariant rest <= devices.Keys && |evs| == 1 + |devices.Keys| - |rest| && |evs| >= 1
      invariant evs[0] == PrimaryEvidence(tee, nonce, att)
      invariant forall i :: 1 <= i < |evs| ==>
        evs[i].tee in devices.Keys - rest && evs[i] == DeviceEvidence(evs[i].tee, devices[evs[i].tee], nonce, att)
      invariant forall i, j :: 1 <= i < j < |evs| ==> evs[i].tee != evs[j].tee
      decreases rest
    {
      var device :| device in rest;
      rest := rest - {device};
      evs := evs + [DeviceEvidence(device, devices[device], nonce, att)];
    }
    assert |devices.Keys| == |devices|;
    return Ok(evs);
  }

  class SessionMap {
    var sessions: SessionTable

    constructor ()
      ensures sessions == map[]
    {
      sessions := map[];
    }

    /** An id that is already there keeps its session. */
    method Insert(session: SessionStatus)
      modifies this
      ensures sessions == if session.id in old(sessions) then old(sessions) else old(sessions)[session.id := session]
    {
      if session.id !in sessions {
        sessions := sessions[session.id := session];
      }
    }

    /** Drops the expired sessions, visiting them in any order. */
    method Retain(now: Time)
      modifies this
      ensures sessions == Unexpired(old(sessions), now)
      ensures forall sid :: sid in sessions <==> sid in old(sessions) && now <= old(sessions)[sid].timeout
      ensures forall sid :: sid in sessions ==> sessions[sid] == old(sessions)[sid]
    {
      var rest := sessions.Keys;
      while rest != {}
        invariant rest <= old(sessions).Keys
        invariant forall sid :: sid in sessions <==>
          sid in old(sessions) && (sid in rest || !old(sessions)[sid].IsExpired(now))
        invariant forall sid :: sid in sessions ==> sessions[sid] == old(sessions)[sid]
        decreases rest
      {
        var sid :| sid in rest;
        rest := rest - {sid};
        if sessions[sid].IsExpired(now) {
          sessions := sessions - {sid};
        }
      }
    }
  }

  class AttestationService {
    const parse: AdditionalParser
    const lifetime: Time
    const sessionMap: SessionMap

    constructor (parse: AdditionalParser, lifetime: Time)
      ensures this.parse == parse && this.lifetime == lifetime
      ensures fresh(sessionMap) && sessionMap.sessions == map[]
    {
      this.parse, this.lifetime := parse, lifetime;
      sessionMap := new SessionMap();
    }

    /** Opens a session under the fresh id `sid`, if the protocol version is accepted and there is a
        challenge for the TEE. `challenge` gives its nonce. */
    method Auth(sid: SessionId, version: string, tee: Tee, now: Time,
                accepts: string -> bool, challenge: Tee -> Result<string>)
      returns (r: Result<SessionStatus>)
      requires sid !in sessionMap.sessions
      modifies sessionMap
      ensures r.Ok? <==> accepts(version) && challenge(tee).Ok?
      ensures r.Err? ==> sessionMap.sessions == old(sessionMap.sessions)
      ensures r.Ok? ==>
        && r.value == Authed(tee, challenge(tee).value, sid, now + lifetime)
        && sessionMap.sessions == old(sessionMap.sessions)[sid := r.value]
        && FirstLook(sessionMap.sessions, sid, now)
           == if lifetime < 0 then Reject else Proceed(tee, challenge(tee).value)
    {
      if !accepts(version) { return Err; }
      var nonce :- challenge(tee);
      var session := Authed(tee, nonce, sid, now + lifetime);
      sessionMap.Insert(session);
      return Ok(session);
    }

    /** An attest request that is not interleaved with others; `verify` is the attestation service. */
    method Attest(sid: SessionId, att: Attestation, now: Time,
                  verify: seq<IndependentEvidence> -> Result<Token>)
      returns (r: Result<Token>, ghost evs: seq<IndependentEvidence>)
      modifies sessionMap
      ensures r.Ok? ==> TokenOf(sessionMap.sessions, sid, now) == r
      ensures sid !in old(sessionMap.sessions) || old(sessionMap.sessions)[sid].timeout < now ==> r.Err?
      ensures sid in old(sessionMap.sessions) && now <= old(sessionMap.sessions)[sid].timeout ==>
        match old(sessionMap.sessions)[sid]
        case Attested(token, _, _) => r == Ok(token)
        case Authed(tee, nonce, _, _) =>
          if nonce != att.nonce || (att.additional != "" && parse(att.additional).Err?) then r.Err?
          else IsEvidenceFor(parse, tee, nonce, att, evs) && r == verify(evs)
      ensures r.Err? || FirstLook(old(sessionMap.sessions), sid, now).Already? ==>
        sessionMap.sessions == old(sessionMap.sessions)
      ensures r.Ok? && !FirstLook(old(sessionMap.sessions), sid, now).Already? ==>
        && sid in old(sessionMap.sessions) && old(sessionMap.sessions)[sid].Authed?
        && old(sessionMap.sessions)[sid].nonce == att.nonce && !old(sessionMap.sessions)[sid].IsExpired(now)
        && verify(evs) == r
        && Genuine(Opening(old(sessionMap.sessions)[sid].tee, att.nonce, old(sessionMap.sessions)[sid].timeout), evs)
        && sessionMap.sessions == old(sessionMap.sessions)[sid := Attested(r.value, old(sessionMap.sessions)[sid].id,
                                                              old(sessionMap.sessions)[sid].timeout)]
    {
      evs := [];
      match FirstLook(sessionMap.sessions, sid, now) {
        case Reject => r := Err;
        case Already(token) => r := Ok(token);
        case Proceed(tee, nonce) =>
          if nonce != att.nonce { return Err, evs; }
          var built := BuildEvidence(parse, tee, nonce, att);
          if built.Err? { return Err, evs; }
          evs := built.value;
          BuiltEvidenceIsGenuine(parse, Opening(tee, nonce, sessionMap.sessions[sid].timeout), att, evs);
          r := verify(built.value);
          if r.Ok? {
            sessionMap.sessions := sessionMap.sessions[sid := sessionMap.sessions[sid].Attest(r.value)];
          }
      }
    }

    /** The token that authorises resource requests. */
    method GetAttestTokenFromSession(sid: SessionId, now: Time) returns (r: Result<Token>)
      ensures r == TokenOf(sessionMap.sessions, sid, now)
      ensures forall token :: r == Ok(token) <==>
        && sid in sessionMap.sessions && sessionMap.sessions[sid].Attested?
        && sessionMap.sessions[sid].token == token && now <= sessionMap.sessions[sid].timeout
      ensures r.Ok? ==> FirstLook(sessionMap.sessions, sid, now) == Already(r.value)
    {
      if sid !in sessionMap.sessions || sessionMap.sessions[sid].IsExpired(now) { return Err; }
      if !sessionMap.sessions[sid].Attested? { return Err; }
      return Ok(sessionMap.sessions[sid].token);
    }
  }
}
