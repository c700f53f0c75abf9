/** The request-challenge-attestation-response handshake: the session map of the key broker service
    and every interleaving of requests, token lookups, evictions and clock ticks on it. */
module Sessions {
  import opened Common
  import opened Json
  import opened Tees

  type SessionId = string
  type Token = string
  type Time = int

  datatype InitData = InitData(format: string, body: string)

  datatype IndependentEvidence = IndependentEvidence(
    tee: Tee, teeEvidence: Json, runtimeData: Json, initData: Option<InitData>)

  /** A client's attestation message; `additional` is JSON text. */
  datatype Attestation = Attestation(
    nonce: string, teePubkey: Json, primary: Json, additional: string, initData: Option<InitData>)

  /** Reads the text of additional evidence, keyed by TEE. */
  type AdditionalParser = string -> Result<map<Tee, Json>>

  /** A session is opened by `Authed` and, once verified, stays `Attested`. */
  datatype SessionStatus =
    | Authed(tee: Tee, nonce: string, id: SessionId, timeout: Time)
    | Attested(token: Token, id: SessionId, timeout: Time)
  {
    predicate IsExpired(now: Time) {
      timeout < now
    }

    function Attest(newToken: Token): SessionStatus {
      match this
      case Authed(_, _, id, timeout) => Attested(newToken, id, timeout)
      case Attested(_, _, _) => this
    }
  }

  type SessionTable = map<SessionId, SessionStatus>

  // ---- Evidence ----

  /** What the primary evidence must be bound to. */
  function PrimaryRuntimeData(nonce: string, att: Attestation): Json {
    Obj(map["tee-pubkey" := att.teePubkey, "nonce" := Str(nonce), "additional-evidence" := Str(att.additional)])
  }

  /** What evidence of additional devices must be bound to. */
  function DeviceRuntimeData(nonce: string, att: Attestation): Json {
    Obj(map["tee-pubkey" := att.teePubkey, "nonce" := Str(nonce)])
  }

  function PrimaryEvidence(tee: Tee, nonce: string, att: Attestation): IndependentEvidence {
    IndependentEvidence(tee, att.primary, PrimaryRuntimeData(nonce, att), att.initData)
  }

  function DeviceEvidence(tee: Tee, evidence: Json, nonce: string, att: Attestation): IndependentEvidence {
    IndependentEvidence(tee, evidence, DeviceRuntimeData(nonce, att), None)
  }

  function Additional(parse: AdditionalParser, att: Attestation): Result<map<Tee, Json>> {
    if att.additional == "" then Ok(map[]) else parse(att.additional)
  }

  /** The evidence to verify: the primary one first, then one item per additional TEE in any order. */
  ghost predicate IsEvidenceFor(parse: AdditionalParser, tee: Tee, nonce: string, att: Attestation,
                                evs: seq<IndependentEvidence>)
  {
    && Additional(parse, att).Ok?
    && var devices := Additional(parse, att).value;
    && |evs| == 1 + |devices|
    && evs[0] == PrimaryEvidence(tee, nonce, att)
    && (forall i :: 1 <= i < |evs| ==>
          evs[i].tee in devices && evs[i] == DeviceEvidence(evs[i].tee, devices[evs[i].tee], nonce, att))
    && (forall i, j :: 1 <= i < j < |evs| ==> evs[i].tee != evs[j].tee)
  }

  // ---- The lookups ----

  datatype Look = Reject | Already(token: Token) | Proceed(tee: Tee, nonce: string)

  /** The first lookup of an attest request. */
  function FirstLook(sessions: SessionTable, sid: SessionId, now: Time): Look {
    if sid !in sessions || sessions[sid].IsExpired(now) then Reject
    else match sessions[sid]
      case Attested(token, _, _) => Already(token)
      case Authed(tee, nonce, _, _) => Proceed(tee, nonce)
  }

  /** The token of an attested session that has not expired. */
  function TokenOf(sessions: SessionTable, sid: SessionId, now: Time): Result<Token> {
    if sid in sessions && !sessions[sid].IsExpired(now) && sessions[sid].Attested?
    then Ok(sessions[sid].token) else Err
  }

  function Unexpired(sessions: SessionTable, now: Time): SessionTable {
    map sid | sid in sessions && !sessions[sid].IsExpired(now) :: sessions[sid]
  }

  // ---- Interleavings ----

  /** A request; `started` is when it arrived. A verifying request holds the entry of its session,
      so that no other request, lookup or eviction gets at it. */
  datatype Task =
    | Arrived(sid: SessionId, att: Attestation, started: Time)
    | Asking(sid: SessionId, started: Time)
    | Waiting(sid: SessionId, evs: seq<IndependentEvidence>, started: Time)
    | Verifying(sid: SessionId, evs: seq<IndependentEvidence>, started: Time)
    | Done(sid: SessionId, outcome: Result<Token>, started: Time)

  /** What a session was opened with. */
  datatype Opening = Opening(tee: Tee, nonce: string, timeout: Time)

  /** A call of the attestation service that returned a token. */
  datatype VerifyCall = VerifyCall(evs: seq<IndependentEvidence>, token: Token)

  /** `openings` and `calls` are history. */
  datatype State = State(
    sessions: SessionTable,
    holder: map<SessionId, nat>,
    tasks: map<nat, Task>,
    now: Time,
    openings: map<SessionId, Opening>,
    calls: set<VerifyCall>)

  datatype Action =
    | Auth(sid: SessionId, tee: Tee, nonce: string, lifetime: Time)
    | Post(t: nat, sid: SessionId, att: Attestation)
    | Ask(t: nat, sid: SessionId)
    | Step(t: nat, evs: seq<IndependentEvidence>)
    | Answer(t: nat, result: Result<Token>)
    | Cancel(t: nat)
    | Evict(sid: SessionId)
    | Tick(elapsed: nat)

  function Initial(now: Time): State {
    State(map[], map[], map[], now, map[], {})
  }

  function Finish(s: State, t: nat, outcome: Result<Token>): State
    requires t in s.tasks
  {
    s.(tasks := s.tasks[t := Done(s.tasks[t].sid, outcome, s.tasks[t].started)])
  }

  /** The next step of a request that does not hold its session. `evs` is the order in which the
      additional evidence comes out of its hash map. */
  ghost function StepTask(parse: AdditionalParser, s: State, t: nat, evs: seq<IndependentEvidence>): State
    requires t in s.tasks
  {
    var sid := s.tasks[t].sid;
    if sid in s.holder then s
    else match s.tasks[t]
      case Arrived(_, att, started) =>
        (match FirstLook(s.sessions, sid, s.now)
         case Reject => Finish(s, t, Err)
         case Already(token) => Finish(s, t, Ok(token))
         case Proceed(tee, nonce) =>
           if nonce != att.nonce || Additional(parse, att).Err? then Finish(s, t, Err)
           else if IsEvidenceFor(parse, tee, nonce, att, evs) then
             s.(tasks := s.tasks[t := Waiting(sid, evs, started)])
           else s)
      case Asking(_, _) => Finish(s, t, TokenOf(s.sessions, sid, s.now))
      case Waiting(_, evs, started) =>
        // The second lookup does not look at the clock, and aborts on a session that is attested.
        if sid !in s.sessions || s.sessions[sid].Attested? then Finish(s, t, Err)
        else s.(holder := s.holder[sid := t], tasks := s.tasks[t := Verifying(sid, evs, started)])
      case _ => s
  }

  /** The attestation service answers a verifying request. */
  function AnswerTask(s: State, t: nat, result: Result<Token>): State {
    if t in s.tasks && s.tasks[t].Verifying? then
      var sid := s.tasks[t].sid;
      var released := s.(holder := s.holder - {sid});
      if result.Ok? && sid in s.sessions then
        Finish(released.(sessions := s.sessions[sid := s.sessions[sid].Attest(result.value)],
                         calls := s.calls + {VerifyCall(s.tasks[t].evs, result.value)}), t, result)
      else Finish(released, t, Err)
    else s
  }

  /** One step. An action that cannot happen in `s` changes nothing; session ids are fresh UUIDs. */
  ghost function Apply(parse: AdditionalParser, s: State, a: Action): State {
    match a
    case Auth(sid, tee, nonce, lifetime) =>
      if sid in s.openings then s
      else s.(sessions := s.sessions[sid := Authed(tee, nonce, sid, s.now + lifetime)],
              openings := s.openings[sid := Opening(tee, nonce, s.now + lifetime)])
    case Post(t, sid, att) => if t in s.tasks then s else s.(tasks := s.tasks[t := Arrived(sid, att, s.now)])
    case Ask(t, sid) => if t in s.tasks then s else s.(tasks := s.tasks[t := Asking(sid, s.now)])
    case Step(t, evs) => if t in s.tasks then StepTask(parse, s, t, evs) else s
    case Answer(t, result) => AnswerTask(s, t, result)
    case Cancel(t) =>
      if t !in s.tasks then s
      else s.(tasks := s.tasks - {t},
              holder := if s.tasks[t].Verifying? then s.holder - {s.tasks[t].sid} else s.holder)
    case Evict(sid) =>
      if sid in s.sessions && sid !in s.holder && s.sessions[sid].IsExpired(s.now)
      then s.(sessions := s.sessions - {sid}) else s
    case Tick(elapsed) => s.(now := s.now + elapsed)
  }

  ghost function Run(parse: AdditionalParser, s: State, actions: seq<Action>): State {
    if actions == [] then s else Apply(parse, Run(parse, s, actions[..|actions| - 1]), actions[|actions| - 1])
  }

  ghost predicate Reachable(parse: AdditionalParser, s: State) {
    exists start, actions :: s == Run(parse, Initial(start), actions)
  }
}
