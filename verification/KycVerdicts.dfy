/** What the verification counters count. The contract counts a refused verification on the path that
    returns the error; whether that count stays depends on whether a failing message keeps its
    writes, which on chain it does not. */
module KycVerdicts {
  import opened Machine
  import opened ComplianceRegistry
  import opened KycFunnel

  datatype Verdict = Verdict(jurisdiction: Jurisdiction, success: bool)

  /** How an authorised verification ends: accepted, refused, or, if it traps, not at all. */
  function Judged(s: State, env: Env, j: Jurisdiction, e: Evidence): Option<Verdict> {
    if !IsVerifier(s, env.caller) then None
    else
      var refusal := Refusal(s.jurisdictionRules, env, j, e);
      if refusal.None? then Some(Verdict(j, true))
      else if refusal.value == Trap then None
      else Some(Verdict(j, false))
  }

  /** The verdict a call reaches, if it is a verification that gets that far. */
  function VerdictOf(s: State, c: Call): Option<Verdict> {
    match c.msg
    case Verify(MsgSubmit(_, j, e)) => Judged(s, c.env, j, e)
    case Verify(MsgProcess(id, e)) =>
      if id in s.funnel.requests && s.funnel.requests[id].status == Pending
      then Judged(s, c.env, s.funnel.requests[id].jurisdiction, e)
      else None
    case _ => None
  }

  predicate Matches(v: Option<Verdict>, scope: Option<Jurisdiction>, success: bool) {
    v.Some? && v.value.success == success && (scope == None || scope == Some(v.value.jurisdiction))
  }

  /** The verdicts of a kind reached along a run, everywhere or in one jurisdiction. */
  ghost function Verdicts(owner: AccountId, run: seq<Call>, keeps: bool, scope: Option<Jurisdiction>,
      success: bool): nat {
    if run == [] then 0
    else
      Verdicts(owner, Earlier(run), keeps, scope, success)
      + if Matches(VerdictOf(After(owner, Earlier(run), keeps), Last(run)), scope, success) then 1 else 0
  }

  function Metrics(f: Funnel, scope: Option<Jurisdiction>): KycMetrics {
    if scope.None? then f.metrics else JurisdictionMetrics(f, scope.value)
  }

  /** One set of counters with one more success or failure, or neither. */
  ghost predicate Steps(m: KycMetrics, m': KycMetrics, success: bool, failure: bool) {
    && m'.successfulVerifications == (if success then Plus1(m.successfulVerifications) else m.successfulVerifications)
    && m'.failedVerifications == if failure then Plus1(m.failedVerifications) else m.failedVerifications
  }

  /** What a call that reaches this verdict leaves, failing ones included, if its writes stay. */
  ghost predicate Effect(s: State, o: Attempt, v: Option<Verdict>, scope: Option<Jurisdiction>) {
    && Steps(Metrics(s.funnel, scope), Metrics(o.state.funnel, scope),
             Matches(v, scope, true), Matches(v, scope, false))
    && (Matches(v, None, true) ==> o.result.Ok?)
    && (Matches(v, None, false) ==> o.result.Err?)
  }

  lemma RecordSteps(f: Funnel, j: Jurisdiction, converted: bool, success: bool, scope: Option<Jurisdiction>)
    ensures var here := scope == None || scope == Some(j);
      Steps(Metrics(f, scope), Metrics(RecordAttempt(f, j, converted, success), scope),
            here && success, here && !success)
  {
  }

  lemma AcceptedSteps(f: Funnel, a: AccountId, j: Jurisdiction, scope: Option<Jurisdiction>)
    ensures Steps(Metrics(f, scope), Metrics(Accepted(f, a, j), scope), scope == None || scope == Some(j), false)
  {
    if Convertible(f, a, j) {
      RecordSteps(Converted(f, f.accountRequests[a]), j, true, true, scope);
    } else {
      RecordSteps(f, j, false, true, scope);
    }
  }

  /** What a submission leaves, failing ones included, if its writes stay. */
  lemma SubmitSteps(s: State, env: Env, a: AccountId, j: Jurisdiction, e: Evidence, scope: Option<Jurisdiction>)
    ensures var v := Judged(s, env, j, e);
      && Steps(Metrics(s.funnel, scope), Metrics(Submit(s, env, a, j, e).state.funnel, scope),
               Matches(v, scope, true), Matches(v, scope, false))
      && (Submit(s, env, a, j, e).result.Ok? <==> v == Some(Verdict(j, true)))
  {
    SubmitSucceeds(s, env, a, j, e);
    AcceptedSteps(s.funnel, a, j, scope);
    RecordSteps(s.funnel, j, false, false, scope);
  }

  /** Processing submits, whether that succeeds or not, and otherwise leaves everything as it was. */
  lemma ProcessSubmits(s: State, env: Env, id: u64, e: Evidence)
    requires Inv(s.funnel)
    ensures Process(s, env, id, e) ==
      if !IsVerifier(s, env.caller) then Attempt(s, Err(NotAuthorized))
      else if id !in s.funnel.requests then Attempt(s, Err(NotVerified))
      else if s.funnel.requests[id].status != Pending then Attempt(s, Err(AlreadyVerified))
      else Submit(s, env, s.funnel.requests[id].account, s.funnel.requests[id].jurisdiction, e)
  {
    if Process(s, env, id, e).result.Ok? {
      ProcessIsSubmit(s, env, id, e);
    }
  }

  lemma ProcessSteps(s: State, env: Env, id: u64, e: Evidence, scope: Option<Jurisdiction>)
    requires Inv(s.funnel)
    ensures Effect(s, Process(s, env, id, e), VerdictOf(s, Call(env, Verify(MsgProcess(id, e)))), scope)
  {
    ProcessSubmits(s, env, id, e);
    var o, v := Process(s, env, id, e), VerdictOf(s, Call(env, Verify(MsgProcess(id, e))));
    if id in s.funnel.requests && s.funnel.requests[id].status == Pending && IsVerifier(s, env.caller) {
      var r := s.funnel.requests[id];
      SubmitSteps(s, env, r.account, r.jurisdiction, e, scope);
      assert v == Judged(s, env, r.jurisdiction, e) && o == Submit(s, env, r.account, r.jurisdiction, e);
    } else {
      assert v == None && o.state == s;
    }
  }

  lemma RequestSteps(s: State, env: Env, j: Jurisdiction, scope: Option<Jurisdiction>)
    ensures Steps(Metrics(s.funnel, scope), Metrics(CreateRequest(s, env, j).state.funnel, scope), false, false)
  {
  }

  lemma FunnelSteps(s: State, env: Env, m: FunnelMessage, scope: Option<Jurisdiction>)
    requires Inv(s.funnel)
    ensures Effect(s, ApplyFunnel(s, env, m), VerdictOf(s, Call(env, Verify(m))), scope)
  {
    match m
    case MsgSubmit(a, j, e) => SubmitSteps(s, env, a, j, e, scope);
    case MsgCreateRequest(j) => RequestSteps(s, env, j, scope);
    case MsgProcess(id, e) => ProcessSteps(s, env, id, e, scope);
  }

  lemma ApplySteps(s: State, c: Call, scope: Option<Jurisdiction>)
    requires Inv(s.funnel)
    ensures Effect(s, Apply(s, c), VerdictOf(s, c), scope)
  {
    match c.msg
    case Verify(m) => FunnelSteps(s, c.env, m, scope);
    case Administer(m) => AdminKeepsFunnel(s, c.env, m);
    case Amend(m) => RecordKeepsFunnel(s, c.env, m);
  }

  /** An accepted verification is counted; a refused one is counted exactly if failing messages keep
      their writes. */
  lemma NextSteps(s: State, c: Call, keeps: bool, scope: Option<Jurisdiction>)
    requires Inv(s.funnel)
    ensures var v := VerdictOf(s, c);
      Steps(Metrics(s.funnel, scope), Metrics(Next(s, c, keeps).funnel, scope),
            Matches(v, scope, true), keeps && Matches(v, scope, false))
  {
    ApplySteps(s, c, scope);
  }

  /** After every run the successes are the verifications accepted, up to saturation, globally and in
      each jurisdiction. The failures are the verifications refused if failing messages keep their
      writes, and otherwise there are none. */
  lemma {:induction false} CountersAreVerdicts(owner: AccountId, run: seq<Call>, keeps: bool,
      scope: Option<Jurisdiction>)
    ensures var m := Metrics(After(owner, run, keeps).funnel, scope);
      && m.successfulVerifications == Min(U64_MAX, Verdicts(owner, run, keeps, scope, true))
      && m.failedVerifications == if keeps then Min(U64_MAX, Verdicts(owner, run, keeps, scope, false)) else 0
  {
    if run == [] {
    } else {
      CountersAreVerdicts(owner, Earlier(run), keeps, scope);
      Reachable(owner, Earlier(run), keeps);
      NextSteps(After(owner, Earlier(run), keeps), Last(run), keeps, scope);
    }
  }

  /** So on chain no refusal is ever counted: attempts are successes, and the verification rate is the
      whole as soon as there is one, whatever was refused. */
  lemma RefusalsAreLost(owner: AccountId, run: seq<Call>, scope: Option<Jurisdiction>)
    ensures var m := Metrics(After(owner, run, false).funnel, scope);
      && m.failedVerifications == 0
      && m.verificationAttempts == m.successfulVerifications
      && (0 < m.successfulVerifications <= U64_MAX / 10_000 ==> m.verificationRateBips == 10_000)
  {
    CountersAreVerdicts(owner, run, false, scope);
    Reachable(owner, run, false);
    var m := Metrics(After(owner, run, false).funnel, scope);
    assert Balanced(m);
    WholeRate(m.successfulVerifications);
  }

  lemma WholeRate(n: u64)
    ensures 0 < n <= U64_MAX / 10_000 ==> RateBips(n, n) == 10_000
  {
    if 0 < n <= U64_MAX / 10_000 {
      assert n * 10_000 / n == 10_000;
    }
  }

  /** The owner, a verifier since deployment, submits a risk score out of range. */
  function OutOfRange(owner: AccountId): Call {
    Call(Env(owner, 0), Verify(MsgSubmit(7, US, Evidence(Low, Passport, FaceRecognition, 101))))
  }

  /** That verification is refused, and counted only if the failing message keeps its writes. */
  lemma OneRefusal(owner: AccountId, keeps: bool)
    ensures Verdicts(owner, [OutOfRange(owner)], keeps, None, false) == 1
    ensures After(owner, [OutOfRange(owner)], keeps).funnel.metrics.failedVerifications == if keeps then 1 else 0
  {
    CountersAreVerdicts(owner, [OutOfRange(owner)], keeps, None);
  }
}
