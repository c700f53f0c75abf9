/** What every interleaving of handshake requests keeps: where tokens come from, that sessions are
    stable, and that expired ones are dead. */
module SessionProofs {
  import opened Common
  import opened Json
  import opened Tees
  import opened Sessions

  /** Evidence of the session's own TEE first, every item with the session's nonce and one key. */
  predicate Genuine(o: Opening, evs: seq<IndependentEvidence>) {
    && |evs| > 0
    && evs[0].tee == o.tee
    && Field(evs[0].runtimeData, "tee-pubkey").Some?
    && forall i :: 0 <= i < |evs| ==>
         && Field(evs[i].runtimeData, "nonce") == Some(Str(o.nonce))
         && Field(evs[i].runtimeData, "tee-pubkey") == Field(evs[0].runtimeData, "tee-pubkey")
  }

  /** `token` was returned for genuine evidence of session `sid`. */
  ghost predicate Provenance(s: State, sid: SessionId, token: Token) {
    sid in s.openings && exists call :: call in s.calls && call.token == token && Genuine(s.openings[sid], call.evs)
  }

  ghost predicate SessionOk(s: State, sid: SessionId)
    requires sid in s.sessions
  {
    && sid in s.openings
    && s.sessions[sid].id == sid
    && s.sessions[sid].timeout == s.openings[sid].timeout
    && match s.sessions[sid]
       case Authed(tee, nonce, _, _) => tee == s.openings[sid].tee && nonce == s.openings[sid].nonce
       case Attested(token, _, _) => Provenance(s, sid, token)
  }

  ghost predicate TaskOk(s: State, t: nat)
    requires t in s.tasks
  {
    && s.tasks[t].started <= s.now
    && match s.tasks[t]
       case Arrived(_, _, _) => true
       case Asking(_, _) => true
       case Waiting(sid, evs, started) =>
         sid in s.openings && started <= s.openings[sid].timeout && Genuine(s.openings[sid], evs)
       case Verifying(sid, evs, started) =>
         && sid in s.openings && started <= s.openings[sid].timeout && Genuine(s.openings[sid], evs)
         && sid in s.holder && s.holder[sid] == t && sid in s.sessions && s.sessions[sid].Authed?
       case Done(sid, outcome, started) =>
         outcome.Ok? ==> Provenance(s, sid, outcome.value) && started <= s.openings[sid].timeout
  }

  ghost predicate HolderOk(s: State) {
    forall sid :: sid in s.holder ==>
      s.holder[sid] in s.tasks && s.tasks[s.holder[sid]].Verifying? && s.tasks[s.holder[sid]].sid == sid
  }

  ghost predicate Inv(s: State) {
    && (forall sid :: sid in s.sessions ==> SessionOk(s, sid))
    && (forall t :: t in s.tasks ==> TaskOk(s, t))
    && HolderOk(s)
  }

  lemma BuiltEvidenceIsGenuine(parse: AdditionalParser, o: Opening, att: Attestation, evs: seq<IndependentEvidence>)
    requires IsEvidenceFor(parse, o.tee, o.nonce, att, evs)
    ensures Genuine(o, evs)
  {
  }

  /** What the evidence of a message is bound to: the primary item to the client's key, the nonce and
      the additional evidence, every other item to the key and the nonce; and to nothing else. */
  lemma EvidenceIsBound(parse: AdditionalParser, tee: Tee, nonce: string, att: Attestation,
                        evs: seq<IndependentEvidence>)
    requires IsEvidenceFor(parse, tee, nonce, att, evs)
    ensures evs[0].tee == tee && evs[0].teeEvidence == att.primary && evs[0].initData == att.initData
    ensures evs[0].runtimeData.Obj?
         && evs[0].runtimeData.fields.Keys == {"tee-pubkey", "nonce", "additional-evidence"}
    ensures Field(evs[0].runtimeData, "tee-pubkey") == Some(att.teePubkey)
    ensures Field(evs[0].runtimeData, "nonce") == Some(Str(nonce))
    ensures Field(evs[0].runtimeData, "additional-evidence") == Some(Str(att.additional))
    ensures forall i :: 1 <= i < |evs| ==>
      && evs[i].initData == None && att.additional != "" && parse(att.additional).Ok?
      && evs[i].tee in parse(att.additional).value && evs[i].teeEvidence == parse(att.additional).value[evs[i].tee]
    ensures forall i :: 1 <= i < |evs| ==>
      && evs[i].runtimeData.Obj? && evs[i].runtimeData.fields.Keys == {"tee-pubkey", "nonce"}
      && Field(evs[i].runtimeData, "tee-pubkey") == Some(att.teePubkey)
      && Field(evs[i].runtimeData, "nonce") == Some(Str(nonce))
  {
  }

  lemma {:induction false} DistinctTees(evs: seq<IndependentEvidence>, n: nat) returns (tees: set<Tee>)
    requires 1 <= n <= |evs| && forall i, j :: 1 <= i < j < |evs| ==> evs[i].tee != evs[j].tee
    ensures |tees| == n - 1 && forall tee :: tee in tees <==> exists i :: 1 <= i < n && evs[i].tee == tee
  {
    if n == 1 {
      tees := {};
    } else {
      var before := DistinctTees(evs, n - 1);
      tees := before + {evs[n - 1].tee};
      forall tee ensures tee in tees <==> exists i :: 1 <= i < n && evs[i].tee == tee {
        if tee == evs[n - 1].tee {
          assert 1 <= n - 1 < n && evs[n - 1].tee == tee;
        }
      }
    }
  }

  lemma FullSubset<T>(part: set<T>, whole: set<T>)
    requires part <= whole && |part| == |whole|
    ensures part == whole
  {
    var rest := whole - part;
    assert whole == part + rest;
    assert |whole| == |part| + |rest|;
    assert rest == {};
  }

  /** No additional evidence is left out. */
  lemma EveryDeviceIsIn(parse: AdditionalParser, tee: Tee, nonce: string, att: Attestation,
                        evs: seq<IndependentEvidence>, device: Tee)
    requires IsEvidenceFor(parse, tee, nonce, att, evs)
    requires att.additional != "" && device in parse(att.additional).value
    ensures exists i :: 1 <= i < |evs| && evs[i].tee == device
  {
    var devices := parse(att.additional).value;
    var tees := DistinctTees(evs, |evs|);
    assert |devices.Keys| == |devices|;
    FullSubset(tees, devices.Keys);
  }

  // ---- Frames ----

  /** History only grows. */
  ghost predicate Later(s: State, s': State) {
    && s.now <= s'.now
    && s.calls <= s'.calls
    && (forall sid :: sid in s.openings ==> sid in s'.openings && s'.openings[sid] == s.openings[sid])
  }

  lemma SessionStaysOk(s: State, s': State, sid: SessionId)
    requires Later(s, s') && sid in s.sessions && SessionOk(s, sid)
    requires sid in s'.sessions && s'.sessions[sid] == s.sessions[sid]
    ensures SessionOk(s', sid)
  {
  }

  lemma TaskStaysOk(s: State, s': State, t: nat)
    requires Later(s, s') && t in s.tasks && TaskOk(s, t) && t in s'.tasks && s'.tasks[t] == s.tasks[t]
    requires s.tasks[t].Verifying? ==>
      var sid := s.tasks[t].sid;
      sid in s'.holder && s'.holder[sid] == t && sid in s'.sessions && s'.sessions[sid] == s.sessions[sid]
    ensures TaskOk(s', t)
  {
  }

  // ---- Steps ----

  lemma FinishKeepsInv(s: State, t: nat, outcome: Result<Token>)
    requires Inv(s) && t in s.tasks && !s.tasks[t].Verifying?
    requires outcome.Ok? ==> Provenance(s, s.tasks[t].sid, outcome.value)
                             && s.tasks[t].started <= s.openings[s.tasks[t].sid].timeout
    ensures Inv(Finish(s, t, outcome))
  {
    var s' := Finish(s, t, outcome);
    forall u | u in s'.tasks ensures TaskOk(s', u) {
      assert TaskOk(s, u);
      if u != t { TaskStaysOk(s, s', u); }
    }
    forall sid | sid in s'.sessions ensures SessionOk(s', sid) {
      SessionStaysOk(s, s', sid);
    }
  }

  lemma ArrivedKeepsInv(parse: AdditionalParser, s: State, t: nat, evs: seq<IndependentEvidence>)
    requires Inv(s) && t in s.tasks && s.tasks[t].Arrived? && s.tasks[t].sid !in s.holder
    ensures Inv(StepTask(parse, s, t, evs))
  {
    var sid, att := s.tasks[t].sid, s.tasks[t].att;
    assert TaskOk(s, t);
    match FirstLook(s.sessions, sid, s.now) {
      case Reject => FinishKeepsInv(s, t, Err);
      case Already(token) =>
        assert SessionOk(s, sid);
        FinishKeepsInv(s, t, Ok(token));
      case Proceed(tee, nonce) =>
        assert SessionOk(s, sid);
        if nonce != att.nonce || Additional(parse, att).Err? {
          FinishKeepsInv(s, t, Err);
        } else if IsEvidenceFor(parse, tee, nonce, att, evs) {
          BuiltEvidenceIsGenuine(parse, s.openings[sid], att, evs);
          WaitKeepsInv(s, t, evs);
        }
    }
  }

  lemma WaitKeepsInv(s: State, t: nat, evs: seq<IndependentEvidence>)
    requires Inv(s) && t in s.tasks && s.tasks[t].Arrived? && s.tasks[t].sid in s.openings
    requires Genuine(s.openings[s.tasks[t].sid], evs) && s.tasks[t].started <= s.openings[s.tasks[t].sid].timeout
    ensures Inv(s.(tasks := s.tasks[t := Waiting(s.tasks[t].sid, evs, s.tasks[t].started)]))
  {
    var s' := s.(tasks := s.tasks[t := Waiting(s.tasks[t].sid, evs, s.tasks[t].started)]);
    forall u | u in s'.tasks ensures TaskOk(s', u) {
      assert TaskOk(s, u);
      if u != t { TaskStaysOk(s, s', u); }
    }
    forall sid | sid in s'.sessions ensures SessionOk(s', sid) {
      SessionStaysOk(s, s', sid);
    }
  }

  lemma LockKeepsInv(s: State, t: nat, s': State)
    requires Inv(s) && t in s.tasks && s.tasks[t].Waiting?
    requires var sid := s.tasks[t].sid; sid !in s.holder && sid in s.sessions && s.sessions[sid].Authed?
    requires var sid := s.tasks[t].sid;
      s' == s.(holder := s.holder[sid := t], tasks := s.tasks[t := Verifying(sid, s.tasks[t].evs, s.tasks[t].started)])
    ensures Inv(s')
  {
    forall u | u in s'.tasks ensures TaskOk(s', u) {
      assert TaskOk(s, u);
      if u != t { TaskStaysOk(s, s', u); }
    }
    forall sid | sid in s'.sessions ensures SessionOk(s', sid) {
      SessionStaysOk(s, s', sid);
    }
  }

  lemma StepTaskKeepsInv(parse: AdditionalParser, s: State, t: nat, evs: seq<IndependentEvidence>)
    requires Inv(s) && t in s.tasks
    ensures Inv(StepTask(parse, s, t, evs))
  {
    var sid := s.tasks[t].sid;
    assert TaskOk(s, t);
    if sid !in s.holder {
      match s.tasks[t] {
        case Arrived(_, _, _) => ArrivedKeepsInv(parse, s, t, evs);
        case Asking(_, _) =>
          assert sid in s.sessions ==> SessionOk(s, sid);
          FinishKeepsInv(s, t, TokenOf(s.sessions, sid, s.now));
        case Waiting(_, _, _) =>
          if sid !in s.sessions || s.sessions[sid].Attested? {
            FinishKeepsInv(s, t, Err);
          } else {
            LockKeepsInv(s, t, StepTask(parse, s, t, evs));
          }
        case _ =>
      }
    }
  }

  /** A verifying request lets go of its session; the other requests do not notice. */
  lemma ReleaseKeepsOthers(s: State, s': State, t: nat, sid: SessionId)
    requires Inv(s) && t in s.tasks && s.tasks[t].Verifying? && s.tasks[t].sid == sid
    requires Later(s, s') && s'.holder == s.holder - {sid}
    requires forall u :: u in s'.tasks && u != t ==> u in s.tasks && s'.tasks[u] == s.tasks[u]
    requires forall u :: u in s.tasks && u != t ==> u in s'.tasks
    requires forall x :: x in s.sessions && x != sid ==> x in s'.sessions && s'.sessions[x] == s.sessions[x]
    ensures forall u :: u in s'.tasks && u != t ==> TaskOk(s', u)
    ensures HolderOk(s')
  {
    assert TaskOk(s, t);
    forall u | u in s'.tasks && u != t ensures TaskOk(s', u) {
      assert TaskOk(s, u);
      TaskStaysOk(s, s', u);
    }
    forall x | x in s'.holder
      ensures s'.holder[x] in s'.tasks && s'.tasks[s'.holder[x]].Verifying? && s'.tasks[s'.holder[x]].sid == x
    {
      assert s.tasks[s.holder[x]].sid == x;
    }
  }

  /** A session that is attested by its own evidence is in order. */
  lemma AttestedOk(s: State, s': State, sid: SessionId, evs: seq<IndependentEvidence>, token: Token)
    requires Later(s, s') && sid in s.sessions && SessionOk(s, sid) && Genuine(s.openings[sid], evs)
    requires sid in s'.sessions && s'.sessions[sid] == Attested(token, sid, s.sessions[sid].timeout)
    requires VerifyCall(evs, token) in s'.calls
    ensures SessionOk(s', sid) && Provenance(s', sid, token)
  {
  }

  lemma OtherSessionsStayOk(s: State, s': State, sid: SessionId)
    requires Later(s, s') && forall x :: x in s.sessions ==> SessionOk(s, x)
    requires forall x :: x in s'.sessions && x != sid ==> x in s.sessions && s'.sessions[x] == s.sessions[x]
    ensures forall x :: x in s'.sessions && x != sid ==> SessionOk(s', x)
  {
    forall x | x in s'.sessions && x != sid ensures SessionOk(s', x) {
      assert SessionOk(s, x);
      SessionStaysOk(s, s', x);
    }
  }

  lemma AnswerOkKeepsInv(s: State, t: nat, token: Token)
    requires Inv(s) && t in s.tasks && s.tasks[t].Verifying?
    ensures Inv(AnswerTask(s, t, Ok(token)))
  {
    var s' := AnswerTask(s, t, Ok(token));
    var sid := s.tasks[t].sid;
    assert TaskOk(s, t) && SessionOk(s, sid);
    ReleaseKeepsOthers(s, s', t, sid);
    AttestedOk(s, s', sid, s.tasks[t].evs, token);
    OtherSessionsStayOk(s, s', sid);
    assert TaskOk(s', t);
  }

  lemma AnswerErrKeepsInv(s: State, t: nat)
    requires Inv(s) && t in s.tasks && s.tasks[t].Verifying?
    ensures Inv(AnswerTask(s, t, Err))
  {
    var s' := AnswerTask(s, t, Err);
    ReleaseKeepsOthers(s, s', t, s.tasks[t].sid);
    assert TaskOk(s, t);
    forall x | x in s'.sessions ensures SessionOk(s', x) {
      assert SessionOk(s, x);
      SessionStaysOk(s, s', x);
    }
    assert TaskOk(s', t);
  }

  /** A request arrives. */
  lemma NewTaskKeepsInv(s: State, t: nat, task: Task)
    requires Inv(s) && t !in s.tasks && (task.Arrived? || task.Asking?) && task.started == s.now
    ensures Inv(s.(tasks := s.tasks[t := task]))
  {
    var s' := s.(tasks := s.tasks[t := task]);
    forall u | u in s'.tasks ensures TaskOk(s', u) {
      if u != t {
        assert TaskOk(s, u);
        TaskStaysOk(s, s', u);
      }
    }
    forall sid | sid in s'.sessions ensures SessionOk(s', sid) {
      SessionStaysOk(s, s', sid);
    }
  }

  /** The client goes away; a held session is released as it is. */
  lemma CancelKeepsInv(parse: AdditionalParser, s: State, t: nat)
    requires Inv(s) && t in s.tasks
    ensures Inv(Apply(parse, s, Cancel(t)))
  {
    var s' := Apply(parse, s, Cancel(t));
    if s.tasks[t].Verifying? {
      ReleaseKeepsOthers(s, s', t, s.tasks[t].sid);
    } else {
      forall u | u in s'.tasks ensures TaskOk(s', u) {
        assert TaskOk(s, u);
        TaskStaysOk(s, s', u);
      }
    }
    forall sid | sid in s'.sessions ensures SessionOk(s', sid) {
      SessionStaysOk(s, s', sid);
    }
  }

  /** Sessions come, expired ones that are not held go, time passes. */
  lemma TableChangeKeepsInv(s: State, s': State)
    requires Inv(s) && Later(s, s') && s'.tasks == s.tasks && s'.holder == s.holder
    requires forall sid :: sid in s'.sessions && sid in s.sessions ==> s'.sessions[sid] == s.sessions[sid]
    requires forall sid :: sid in s'.sessions && sid !in s.sessions ==> SessionOk(s', sid)
    requires forall sid :: sid in s.sessions && sid !in s'.sessions ==> sid !in s.holder
    ensures Inv(s')
  {
    forall sid | sid in s'.sessions ensures SessionOk(s', sid) {
      if sid in s.sessions {
        assert SessionOk(s, sid);
        SessionStaysOk(s, s', sid);
      }
    }
    forall u | u in s'.tasks ensures TaskOk(s', u) {
      assert TaskOk(s, u);
      TaskStaysOk(s, s', u);
    }
  }

  lemma TableActionKeepsInv(parse: AdditionalParser, s: State, a: Action)
    requires Inv(s) && (a.Auth? || a.Evict? || a.Tick?)
    ensures Inv(Apply(parse, s, a))
  {
    if a.Auth? {
      assert a.sid in s.sessions ==> SessionOk(s, a.sid);
      TableChangeKeepsInv(s, Apply(parse, s, a));
    } else {
      TableChangeKeepsInv(s, Apply(parse, s, a));
    }
  }

  lemma ApplyKeepsInv(parse: AdditionalParser, s: State, a: Action)
    requires Inv(s)
    ensures Inv(Apply(parse, s, a))
  {
    if a.Step? {
      if a.t in s.tasks { StepTaskKeepsInv(parse, s, a.t, a.evs); }
    } else if a.Answer? {
      if a.t in s.tasks && s.tasks[a.t].Verifying? {
        match a.result
        case Ok(token) => AnswerOkKeepsInv(s, a.t, token);
        case Err => AnswerErrKeepsInv(s, a.t);
      }
    } else if a.Cancel? {
      if a.t in s.tasks { CancelKeepsInv(parse, s, a.t); }
    } else if a.Post? {
      if a.t !in s.tasks { NewTaskKeepsInv(s, a.t, Arrived(a.sid, a.att, s.now)); }
    } else if a.Ask? {
      if a.t !in s.tasks { NewTaskKeepsInv(s, a.t, Asking(a.sid, s.now)); }
    } else {
      TableActionKeepsInv(parse, s, a);
    }
  }

  lemma {:induction false} RunKeepsInv(parse: AdditionalParser, s: State, actions: seq<Action>)
    requires Inv(s)
    ensures Inv(Run(parse, s, actions))
  {
    if actions != [] {
      RunKeepsInv(parse, s, actions[..|actions| - 1]);
      ApplyKeepsInv(parse, Run(parse, s, actions[..|actions| - 1]), actions[|actions| - 1]);
    }
  }

  lemma ReachableIsGood(parse: AdditionalParser, s: State)
    requires Reachable(parse, s)
    ensures Inv(s)
  {
    var start, actions :| s == Run(parse, Initial(start), actions);
    RunKeepsInv(parse, Initial(start), actions);
  }

  // ---- What follows ----

  /** In every interleaving, the token of an attested session, and any token a request or a lookup
      for it returned, came from a verify call on genuine evidence for that very session. */
  lemma TokenProvenance(parse: AdditionalParser, s: State)
    requires Reachable(parse, s)
    ensures forall sid :: sid in s.sessions && s.sessions[sid].Attested? ==> Provenance(s, sid, s.sessions[sid].token)
    ensures forall t :: t in s.tasks && s.tasks[t].Done? && s.tasks[t].outcome.Ok? ==>
      Provenance(s, s.tasks[t].sid, s.tasks[t].outcome.value)
  {
    ReachableIsGood(parse, s);
    forall sid | sid in s.sessions && s.sessions[sid].Attested?
      ensures Provenance(s, sid, s.sessions[sid].token)
    {
      assert SessionOk(s, sid);
    }
    forall t | t in s.tasks && s.tasks[t].Done? && s.tasks[t].outcome.Ok?
      ensures Provenance(s, s.tasks[t].sid, s.tasks[t].outcome.value)
    {
      assert TaskOk(s, t);
    }
  }

  /** How one session may change in one step: not at all, from authed to attested, or away. */
  ghost predicate Succeeds(s: State, s': State, sid: SessionId) {
    && (sid in s.openings ==> sid in s'.openings && s'.openings[sid] == s.openings[sid])
    && (sid in s.openings && sid !in s.sessions ==> sid !in s'.sessions)
    && (sid in s.sessions && sid in s'.sessions ==>
          && s'.sessions[sid].id == s.sessions[sid].id
          && s'.sessions[sid].timeout == s.sessions[sid].timeout
          && (s.sessions[sid].Attested? ==> s'.sessions[sid] == s.sessions[sid])
          && (s'.sessions[sid].Authed? ==> s'.sessions[sid] == s.sessions[sid]))
  }

  lemma StepLeavesSessions(parse: AdditionalParser, s: State, t: nat, evs: seq<IndependentEvidence>)
    requires t in s.tasks
    ensures StepTask(parse, s, t, evs).sessions == s.sessions && StepTask(parse, s, t, evs).openings == s.openings
  {
  }

  lemma AnswerSucceeds(s: State, t: nat, result: Result<Token>, sid: SessionId)
    requires Inv(s)
    ensures Succeeds(s, AnswerTask(s, t, result), sid)
  {
    if t in s.tasks {
      assert TaskOk(s, t);
    }
  }

  lemma ApplySucceeds(parse: AdditionalParser, s: State, a: Action, sid: SessionId)
    requires Inv(s)
    ensures Succeeds(s, Apply(parse, s, a), sid)
  {
    match a
    case Auth(x, _, _, _) => assert x in s.sessions ==> SessionOk(s, x);
    case Step(t, evs) =>
      if t in s.tasks {
        StepLeavesSessions(parse, s, t, evs);
      }
    case Answer(t, result) => AnswerSucceeds(s, t, result, sid);
    case _ =>
  }

  /** Over every run a session keeps its id and its timeout, goes from authed to attested at most
      once, keeps its token from then on, and does not come back after it was evicted. */
  lemma {:induction false} SessionStability(parse: AdditionalParser, s: State, actions: seq<Action>, sid: SessionId)
    requires Reachable(parse, s) && sid in s.openings
    ensures Succeeds(s, Run(parse, s, actions), sid)
  {
    ReachableIsGood(parse, s);
    if actions != [] {
      var before := actions[..|actions| - 1];
      SessionStability(parse, s, before, sid);
      RunKeepsInv(parse, s, before);
      ApplySucceeds(parse, Run(parse, s, before), actions[|actions| - 1], sid);
    }
  }

  /** Every request that started after a session's timeout fails, whatever else is in flight. */
  lemma LateRequestsFail(parse: AdditionalParser, s: State, t: nat)
    requires Reachable(parse, s) && t in s.tasks && s.tasks[t].sid in s.openings
    requires s.openings[s.tasks[t].sid].timeout < s.tasks[t].started
    ensures !s.tasks[t].Waiting? && !s.tasks[t].Verifying?
    ensures s.tasks[t].Done? ==> s.tasks[t].outcome.Err?
  {
    ReachableIsGood(parse, s);
    assert TaskOk(s, t);
  }

  /** A step removes a session only after its timeout, and never one that is being verified. */
  lemma OnlyExpiredSessionsGo(parse: AdditionalParser, s: State, a: Action, sid: SessionId)
    requires sid in s.sessions
    ensures sid !in Apply(parse, s, a).sessions ==> s.sessions[sid].timeout < s.now && sid !in s.holder
    ensures s.now <= Apply(parse, s, a).now
  {
  }

  /** Over whole runs: a session that is gone had expired. */
  lemma {:induction false} SessionsLiveToTimeout(parse: AdditionalParser, s: State, actions: seq<Action>,
                                                 sid: SessionId)
    requires Reachable(parse, s) && sid in s.sessions
    ensures sid !in Run(parse, s, actions).sessions ==> s.sessions[sid].timeout < Run(parse, s, actions).now
    ensures s.now <= Run(parse, s, actions).now
  {
    if actions != [] {
      var before := actions[..|actions| - 1];
      var mid := Run(parse, s, before);
      SessionsLiveToTimeout(parse, s, before, sid);
      SessionIsOpened(parse, s, sid);
      SessionStability(parse, s, before, sid);
      if sid in mid.sessions {
        OnlyExpiredSessionsGo(parse, mid, actions[|actions| - 1], sid);
      } else {
        ClockIsMonotone(parse, mid, actions[|actions| - 1]);
      }
    }
  }

  lemma SessionIsOpened(parse: AdditionalParser, s: State, sid: SessionId)
    requires Reachable(parse, s) && sid in s.sessions
    ensures sid in s.openings
  {
    ReachableIsGood(parse, s);
    assert SessionOk(s, sid);
  }

  lemma ClockIsMonotone(parse: AdditionalParser, s: State, a: Action)
    ensures s.now <= Apply(parse, s, a).now
  {
  }

  // ---- Progress ----

  lemma ReachableStep(parse: AdditionalParser, s: State, a: Action)
    requires Reachable(parse, s)
    ensures Reachable(parse, Apply(parse, s, a))
  {
    var start, actions :| s == Run(parse, Initial(start), actions);
    assert (actions + [a])[..|actions|] == actions;
    assert Apply(parse, s, a) == Run(parse, Initial(start), actions + [a]);
  }

  /** A new session, and an attest request for it up to its second lookup. */
  lemma UpToWaiting(parse: AdditionalParser, s: State, t: nat, sid: SessionId, tee: Tee, nonce: string,
                    lifetime: Time, att: Attestation, evs: seq<IndependentEvidence>)
    returns (w: State)
    requires Reachable(parse, s) && sid !in s.openings && t !in s.tasks && lifetime >= 0 && sid !in s.holder
    requires att.nonce == nonce && IsEvidenceFor(parse, tee, nonce, att, evs)
    ensures Reachable(parse, w) && w.now == s.now && w.holder == s.holder
    ensures w.sessions == s.sessions[sid := Authed(tee, nonce, sid, s.now + lifetime)]
    ensures w.tasks == s.tasks[t := Waiting(sid, evs, s.now)]
  {
    var opening, post, step := Auth(sid, tee, nonce, lifetime), Post(t, sid, att), Step(t, evs);
    ReachableStep(parse, s, opening);
    var s1 := Apply(parse, s, opening);
    ReachableStep(parse, s1, post);
    var s2 := Apply(parse, s1, post);
    ReachableStep(parse, s2, step);
    w := Apply(parse, s2, step);
    assert FirstLook(s2.sessions, sid, s2.now) == Proceed(tee, nonce);
  }

  /** From the second lookup to the end. */
  lemma FromWaiting(parse: AdditionalParser, w: State, t: nat, token: Token) returns (s': State)
    requires Reachable(parse, w) && t in w.tasks && w.tasks[t].Waiting? && w.tasks[t].sid !in w.holder
    requires w.tasks[t].sid in w.sessions && w.sessions[w.tasks[t].sid].Authed?
    ensures var sid := w.tasks[t].sid;
      && Reachable(parse, s') && s'.now == w.now
      && s'.sessions == w.sessions[sid := w.sessions[sid].Attest(token)]
      && s'.tasks == w.tasks[t := Done(sid, Ok(token), w.tasks[t].started)]
  {
    var step, answer := Step(t, []), Answer(t, Ok(token));
    ReachableStep(parse, w, step);
    var held := Apply(parse, w, step);
    assert held.tasks[t] == Verifying(w.tasks[t].sid, w.tasks[t].evs, w.tasks[t].started);
    ReachableStep(parse, held, answer);
    s' := Apply(parse, held, answer);
  }

  /** An attestation that is left alone goes through: opened, verified, and its token given out. */
  lemma UndisturbedAttestation(parse: AdditionalParser, s: State, t: nat, sid: SessionId, tee: Tee, nonce: string,
                               lifetime: Time, att: Attestation, evs: seq<IndependentEvidence>, token: Token)
    returns (s': State)
    requires Reachable(parse, s) && sid !in s.openings && t !in s.tasks && lifetime >= 0
    requires att.nonce == nonce && IsEvidenceFor(parse, tee, nonce, att, evs)
    ensures Reachable(parse, s') && s'.now == s.now
    ensures s'.sessions == s.sessions[sid := Attested(token, sid, s.now + lifetime)]
    ensures s'.tasks == s.tasks[t := Done(sid, Ok(token), s.now)]
    ensures TokenOf(s'.sessions, sid, s'.now) == Ok(token)
  {
    if sid in s.holder {
      HeldIsOpened(parse, s, sid);
      assert false;
    }
    var w := UpToWaiting(parse, s, t, sid, tee, nonce, lifetime, att, evs);
    s' := FromWaiting(parse, w, t, token);
    assert w.sessions[sid].Attest(token) == Attested(token, sid, s.now + lifetime);
  }

  /** A token look-up that is left alone gives the token of an attested session up to its timeout. */
  lemma UndisturbedTokenLookup(parse: AdditionalParser, s: State, t: nat, sid: SessionId) returns (s': State)
    requires Reachable(parse, s) && t !in s.tasks && sid in s.sessions && sid !in s.holder
    ensures Reachable(parse, s') && s'.sessions == s.sessions && s'.now == s.now
    ensures var found := s.sessions[sid].Attested? && s.now <= s.sessions[sid].timeout;
      s'.tasks == s.tasks[t := Done(sid, if found then Ok(s.sessions[sid].token) else Err, s.now)]
  {
    ReachableStep(parse, s, Ask(t, sid));
    var asked := Apply(parse, s, Ask(t, sid));
    ReachableStep(parse, asked, Step(t, []));
    s' := Apply(parse, asked, Step(t, []));
  }

  /** A message with another nonce than the session's, or with additional evidence that cannot be
      read, is refused at the first look-up and changes nothing. */
  lemma BadMessageIsRefused(parse: AdditionalParser, s: State, t: nat, evs: seq<IndependentEvidence>)
    requires t in s.tasks && s.tasks[t].Arrived? && s.tasks[t].sid !in s.holder
    requires var sid, att := s.tasks[t].sid, s.tasks[t].att;
      && sid in s.sessions && s.sessions[sid].Authed?
      && (s.sessions[sid].nonce != att.nonce || (att.additional != "" && parse(att.additional).Err?))
    ensures Apply(parse, s, Step(t, evs))
         == s.(tasks := s.tasks[t := Done(s.tasks[t].sid, Err, s.tasks[t].started)])
  {
  }

  lemma HeldIsOpened(parse: AdditionalParser, s: State, sid: SessionId)
    requires Reachable(parse, s) && sid in s.holder
    ensures sid in s.openings
  {
    ReachableIsGood(parse, s);
    assert TaskOk(s, s.holder[sid]);
  }
}
