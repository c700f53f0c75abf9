/** Resource requests: plugins behind admin tokens or behind attestation tokens and a policy. */
module Plugins {
  import opened Common
  import opened Json
  import opened TokenVerifier
  import Evaluation
  import KeyBinding
  import Sessions
  import SessionProofs

  datatype Call = Call(plugin: string, body: Bytes, query: map<string, string>, path: seq<string>, verb: string)

  datatype Plugin = Plugin(
    validateAuth: Call -> Result<bool>, handle: Call -> Result<Bytes>, encrypted: Call -> Result<bool>)

  datatype Reply<J> = Plain(data: Bytes) | Sealed(jwe: J)

  /** What the server is set up with. `seal` encrypts to a key. */
  datatype Setup<!K, J> = Setup(
    plugins: map<string, Plugin>, admin: Call -> bool, verify: string -> Result<Json>,
    policy: (Call, Json) -> Result<bool>, keyPaths: seq<string>, deserialize: Json -> Result<K>,
    seal: (K, Bytes) -> Result<J>)

  /** How far a call gets with the policy. */
  datatype Decision = Undecided | Broken | Denied | Approved

  /** The plugin asks for the admin token. */
  predicate WantsAdmin<K, J>(s: Setup<K, J>, call: Call) {
    call.plugin in s.plugins && s.plugins[call.plugin].validateAuth(call) == Ok(true)
  }

  predicate WantsToken<K, J>(s: Setup<K, J>, call: Call) {
    call.plugin in s.plugins && s.plugins[call.plugin].validateAuth(call) == Ok(false)
  }

  /** The claims of the token that came with a call. */
  function ClaimsOf<K, J>(s: Setup<K, J>, token: Option<string>): Result<Json> {
    if token.Some? then s.verify(token.value) else Err
  }

  function Decide<K, J>(s: Setup<K, J>, call: Call, token: Option<string>): Decision {
    if !WantsToken(s, call) || ClaimsOf(s, token).Err? then Undecided
    else match s.policy(call, ClaimsOf(s, token).value)
      case Err => Broken
      case Ok(allowed) => if allowed then Approved else Denied
  }

  /** A call may reach its plugin with the admin token, or with a token the policy approves. */
  predicate Authorized<K, J>(s: Setup<K, J>, call: Call, token: Option<string>) {
    (WantsAdmin(s, call) && s.admin(call)) || Decide(s, call, token).Approved?
  }

  /** A reply that may leave the server: in the clear to admins and for what the plugin does not want
      encrypted, otherwise sealed to the key in the claims of the token. */
  ghost predicate Proper<K, J>(s: Setup<K, J>, call: Call, token: Option<string>, reply: Reply<J>) {
    && Authorized(s, call, token)
    && var plugin := s.plugins[call.plugin];
    && plugin.handle(call).Ok?
    && match reply
       case Plain(data) =>
         data == plugin.handle(call).value && (WantsAdmin(s, call) || plugin.encrypted(call) == Ok(false))
       case Sealed(jwe) =>
         && WantsToken(s, call) && plugin.encrypted(call) == Ok(true)
         && var key := ExtractedKey(s.keyPaths, ClaimsOf(s, token).value, s.deserialize);
         && key.Ok? && s.seal(key.value, plugin.handle(call).value) == Ok(jwe)
  }

  // ---- What the setup decides ----

  /** The admin token opens a plugin that asks for it; otherwise the policy must say yes to the claims
      of a token that verifies. Nothing else opens a plugin. */
  lemma AuthorizedIff<K, J>(s: Setup<K, J>, call: Call, token: Option<string>)
    ensures Authorized(s, call, token) <==>
      && call.plugin in s.plugins
      && var auth := s.plugins[call.plugin].validateAuth(call);
      || (auth == Ok(true) && s.admin(call))
      || (auth == Ok(false) && token.Some? && s.verify(token.value).Ok?
          && s.policy(call, s.verify(token.value).value) == Ok(true))
  {
  }

  /** Which answer of the policy counts as what. */
  lemma DecisionIs<K, J>(s: Setup<K, J>, call: Call, token: Option<string>)
    requires call.plugin in s.plugins && s.plugins[call.plugin].validateAuth(call) == Ok(false)
    requires token.Some? && s.verify(token.value).Ok?
    ensures var answer := s.policy(call, s.verify(token.value).value);
      && (answer == Ok(true) <==> Decide(s, call, token) == Approved)
      && (answer == Ok(false) <==> Decide(s, call, token) == Denied)
      && (answer.Err? <==> Decide(s, call, token) == Broken)
  {
  }

  /** What the plugin wants encrypted leaves the server sealed to the key of the token, or to an admin;
      in the clear goes what the plugin gave, to an admin or when it need not be encrypted. */
  lemma ReplyIs<K, J>(s: Setup<K, J>, call: Call, token: Option<string>, reply: Reply<J>)
    ensures Proper(s, call, token, reply) ==> call.plugin in s.plugins && s.plugins[call.plugin].handle(call).Ok?
    ensures Proper(s, call, token, reply) && s.plugins[call.plugin].validateAuth(call) == Ok(true) ==>
      s.admin(call) && reply == Plain(s.plugins[call.plugin].handle(call).value)
    ensures Proper(s, call, token, reply) && s.plugins[call.plugin].validateAuth(call) != Ok(true) ==>
      var plugin := s.plugins[call.plugin];
      && token.Some? && s.verify(token.value).Ok?
      && s.policy(call, s.verify(token.value).value) == Ok(true)
      && plugin.encrypted(call).Ok?
      && if !plugin.encrypted(call).value then reply == Plain(plugin.handle(call).value)
         else
           var key := ExtractedKey(s.keyPaths, s.verify(token.value).value, s.deserialize);
           key.Ok? && reply.Sealed? && s.seal(key.value, plugin.handle(call).value) == Ok(reply.jwe)
  {
  }

  /** The other way round: an authorised call whose plugin answers gets its reply. */
  lemma ReplyExists<K, J>(s: Setup<K, J>, call: Call, token: Option<string>)
    requires Authorized(s, call, token) && s.plugins[call.plugin].handle(call).Ok?
    ensures var plugin := s.plugins[call.plugin];
      && (plugin.validateAuth(call) == Ok(true) || plugin.encrypted(call) == Ok(false) ==>
            Proper(s, call, token, Plain(plugin.handle(call).value)))
      && (plugin.validateAuth(call) == Ok(false) && plugin.encrypted(call) == Ok(true) ==>
            var key := ExtractedKey(s.keyPaths, s.verify(token.value).value, s.deserialize);
            key.Ok? && s.seal(key.value, plugin.handle(call).value).Ok? ==>
              Proper(s, call, token, Sealed(s.seal(key.value, plugin.handle(call).value).value)))
  {
  }

  // ---- The counters under concurrency ----

  /** A call with the token that came with it. */
  type Asked = (Call, Option<string>)

  /** The counters, the calls that reached their plugin, the calls whose policy decision is awaited,
      and how many of those were dropped meanwhile. */
  datatype Counting = Counting(
    evals: nat, errors: nat, violations: nat, approvals: nat, handled: seq<Asked>,
    waiting: map<nat, Asked>, dropped: nat)

  const NOTHING := Counting(0, 0, 0, 0, [], map[], 0)

  datatype Event = Begin(t: nat, call: Call, token: Option<string>) | Decided(t: nat) | Drop(t: nat)

  /** The decision on an awaited call. */
  function Settled(c: Counting, t: nat, d: Decision): Counting
    requires t in c.waiting
  {
    var asked, c' := c.waiting[t], c.(waiting := c.waiting - {t});
    match d
    case Undecided => c'
    case Broken => c'.(errors := c.errors + 1)
    case Denied => c'.(violations := c.violations + 1)
    case Approved => c'.(approvals := c.approvals + 1, handled := c.handled + [asked])
  }

  /** A call that needs the policy waits between its two counter updates; others count meanwhile. */
  function Count<K, J>(s: Setup<K, J>, c: Counting, e: Event): Counting {
    match e
    case Begin(t, call, token) =>
      if t in c.waiting then c
      else if !Decide(s, call, token).Undecided? then
        c.(evals := c.evals + 1, waiting := c.waiting[t := (call, token)])
      else if Authorized(s, call, token) then c.(handled := c.handled + [(call, token)])
      else c
    case Decided(t) =>
      if t !in c.waiting then c
      else
        Settled(c, t, Decide(s, c.waiting[t].0, c.waiting[t].1))
    case Drop(t) => if t !in c.waiting then c else c.(waiting := c.waiting - {t}, dropped := c.dropped + 1)
  }

  function CountAll<K, J>(s: Setup<K, J>, events: seq<Event>): Counting {
    if events == [] then NOTHING
    else Count(s, CountAll(s, events[..|events| - 1]), events[|events| - 1])
  }

  /** Every call is authorised by the token it came with. */
  predicate AllAuthorized<K, J>(s: Setup<K, J>, handled: seq<Asked>) {
    forall k :: 0 <= k < |handled| ==> Authorized(s, handled[k].0, handled[k].1)
  }

  predicate Sums(c: Counting) {
    c.evals == c.errors + c.violations + c.approvals + |c.waiting| + c.dropped && c.approvals <= |c.handled|
  }

  predicate AllNeedPolicy<K, J>(s: Setup<K, J>, waiting: map<nat, Asked>) {
    forall t :: t in waiting ==> !Decide(s, waiting[t].0, waiting[t].1).Undecided?
  }

  predicate Balanced<K, J>(s: Setup<K, J>, c: Counting) {
    Sums(c) && AllAuthorized(s, c.handled) && AllNeedPolicy(s, c.waiting)
  }

  lemma RemovedSize<V>(m: map<nat, V>, t: nat)
    requires t in m
    ensures |m - {t}| == |m| - 1
  {
    assert (m - {t}).Keys == m.Keys - {t};
    assert |m.Keys| == |m| && |(m - {t}).Keys| == |m - {t}|;
  }

  lemma AddedSize<V>(m: map<nat, V>, t: nat, v: V)
    requires t !in m
    ensures |m[t := v]| == |m| + 1
  {
    assert m[t := v].Keys == m.Keys + {t};
    assert |m.Keys| == |m| && |m[t := v].Keys| == |m[t := v]|;
  }

  lemma BeginKeepsBalance<K, J>(s: Setup<K, J>, c: Counting, t: nat, call: Call, token: Option<string>)
    requires Balanced(s, c)
    ensures Balanced(s, Count(s, c, Begin(t, call, token)))
  {
    if t !in c.waiting {
      AddedSize(c.waiting, t, (call, token));
    }
  }

  lemma SettledSums(c: Counting, t: nat, d: Decision)
    requires Sums(c) && t in c.waiting && !d.Undecided?
    ensures Sums(Settled(c, t, d))
  {
    RemovedSize(c.waiting, t);
  }

  lemma DecidedKeepsBalance<K, J>(s: Setup<K, J>, c: Counting, t: nat)
    requires Balanced(s, c)
    ensures Balanced(s, Count(s, c, Decided(t)))
  {
    if t in c.waiting {
      SettledSums(c, t, Decide(s, c.waiting[t].0, c.waiting[t].1));
      ApprovedIsAuthorized(s, c.handled, c.waiting[t]);
    }
  }

  lemma ApprovedIsAuthorized<K, J>(s: Setup<K, J>, handled: seq<Asked>, asked: Asked)
    requires AllAuthorized(s, handled)
    ensures Decide(s, asked.0, asked.1).Approved? ==> AllAuthorized(s, handled + [asked])
  {
  }

  lemma StepKeepsBalance<K, J>(s: Setup<K, J>, c: Counting, e: Event)
    requires Balanced(s, c)
    ensures Balanced(s, Count(s, c, e))
  {
    match e
    case Begin(t, call, token) => BeginKeepsBalance(s, c, t, call, token);
    case Decided(t) => DecidedKeepsBalance(s, c, t);
    case Drop(t) =>
      if t in c.waiting { RemovedSize(c.waiting, t); }
  }

  /** In every interleaving, every evaluation counted is decided one way, awaited, or dropped; and
      every call that has reached a plugin came with the admin token or with an approved token. */
  lemma {:induction false} CountersBalance<K, J>(s: Setup<K, J>, events: seq<Event>)
    ensures Balanced(s, CountAll(s, events))
  {
    if events != [] {
      CountersBalance(s, events[..|events| - 1]);
      StepKeepsBalance(s, CountAll(s, events[..|events| - 1]), events[|events| - 1]);
    }
  }

  /** One of the counters, as a number to add. */
  function One(b: bool): nat {
    if b then 1 else 0
  }

  class ApiServer {
    var evals: nat
    var errors: nat
    var violations: nat
    var approvals: nat
    /** The calls that reached their plugin, with their tokens. */
    var handled: seq<Asked>

    constructor ()
      ensures evals == errors == violations == approvals == 0 && handled == []
    {
      evals, errors, violations, approvals, handled := 0, 0, 0, 0, [];
    }

    /** The state of the counters with no call under way. */
    ghost function Counters(): Counting
      reads this
    {
      Counting(evals, errors, violations, approvals, handled, map[], 0)
    }

    /** The branch of the API for plugins; `token` is what the session or the header of the call gave. */
    method Api<K, J>(s: Setup<K, J>, call: Call, token: Option<string>) returns (r: Result<Reply<J>>)
      modifies this
      ensures r.Ok? ==> Proper(s, call, token, r.value)
      ensures r.Err? ==> !exists reply :: Proper(s, call, token, reply)
      ensures handled == if Authorized(s, call, token) then old(handled) + [(call, token)] else old(handled)
      ensures var d := Decide(s, call, token);
        && evals == old(evals) + One(!d.Undecided?) && errors == old(errors) + One(d.Broken?)
        && violations == old(violations) + One(d.Denied?) && approvals == old(approvals) + One(d.Approved?)
      ensures Counters() == Count(s, Count(s, old(Counters()), Begin(0, call, token)), Decided(0))
    {
      assert map[][0 := (call, token)] - {0} == map[];
      if call.plugin !in s.plugins { return Err; }
      var plugin := s.plugins[call.plugin];
      var admin :- plugin.validateAuth(call);
      if admin {
        if !s.admin(call) { return Err; }
        handled := handled + [(call, token)];
        var response :- plugin.handle(call);
        return Ok(Plain(response));
      }
      if token.None? { return Err; }
      var claims :- s.verify(token.value);
      evals := evals + 1;
      var allowed := s.policy(call, claims);
      if allowed.Err? {
        errors := errors + 1;
        return Err;
      }
      if !allowed.value {
        violations := violations + 1;
        return Err;
      }
      approvals := approvals + 1;
      handled := handled + [(call, token)];
      var response :- plugin.handle(call);
      var encrypted :- plugin.encrypted(call);
      if encrypted {
        var key :- ExtractedKey(s.keyPaths, claims, s.deserialize);
        var jwe :- s.seal(key, response);
        return Ok(Sealed(jwe));
      }
      return Ok(Plain(response));
    }
  }

  /** There is at most one proper reply, so that the method's answer is determined. */
  lemma ProperIsUnique<K, J>(s: Setup<K, J>, call: Call, token: Option<string>, a: Reply<J>, b: Reply<J>)
    requires Proper(s, call, token, a) && Proper(s, call, token, b)
    ensures a == b
  {
  }

  /** From evidence to secret: what leaves the server sealed, for a call that carries the token of an
      attested session, is sealed to the one key common to all evidence of a genuine attestation of
      this session, and a verifier vouched for runtime data with this key and the session's nonce. */
  lemma SealedToBoundKey<K, J>(parse: Sessions.AdditionalParser, state: Sessions.State, sid: Sessions.SessionId,
                               open: string -> Json, s: Setup<K, J>, call: Call, jwe: J)
    returns (kit: Evaluation.Kit, evs: seq<KeyBinding.Evidence>, i: nat)
    requires Sessions.Reachable(parse, state) && sid in state.sessions && state.sessions[sid].Attested?
    requires forall c :: c in state.calls ==> KeyBinding.Issued(open, c)
    requires s.keyPaths == BUILT_IN && s.verify(state.sessions[sid].token) == Ok(open(state.sessions[sid].token))
    requires Proper(s, call, Some(state.sessions[sid].token), Sealed(jwe))
    ensures exists policy ::
      KeyBinding.IssuedWith(kit, policy, open, Sessions.VerifyCall(evs, state.sessions[sid].token))
    ensures sid in state.openings && SessionProofs.Genuine(state.openings[sid], evs)
    ensures i < |evs| && KeyBinding.VouchedFor(kit, evs[i])
    ensures Field(evs[i].runtimeData, "nonce") == Some(Str(state.openings[sid].nonce))
    ensures Field(evs[i].runtimeData, "tee-pubkey") == Field(evs[0].runtimeData, "tee-pubkey")
    ensures var key := s.deserialize(Field(evs[0].runtimeData, "tee-pubkey").value);
      key.Ok? && s.plugins[call.plugin].handle(call).Ok?
      && s.seal(key.value, s.plugins[call.plugin].handle(call).value) == Ok(jwe)
  {
    kit, evs, i := KeyBinding.SessionKeyIsBound(parse, state, sid, open, s.deserialize);
  }
}
