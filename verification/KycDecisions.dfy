/** Who may do what in the compliance registry, which evidence a verification accepts, and what is then
    on record. */
module KycDecisions {
  import opened Machine
  import opened ComplianceRegistry
  import opened KycFunnel
  import opened KycVerdicts

  // ----- evidence --------------------------------------------------------------------------

  predicate StrongDocument(d: DocumentType) {
    d == Passport || d == CorporateDocument
  }

  /** The methods in the order in which they count: none, one trait, the iris, several factors. */
  function MethodRank(m: BiometricMethod): nat {
    match m
    case NoBiometric => 0
    case IrisScan => 2
    case MultiFactor => 3
    case _ => 1
  }

  /** Evidence that is at least as good in every respect. */
  predicate AtLeastAsGood(e': Evidence, e: Evidence) {
    && e'.riskScore <= e.riskScore
    && (StrongDocument(e.document) ==> StrongDocument(e'.document))
    && MethodRank(e.biometric) <= MethodRank(e'.biometric)
  }

  /** Evidence that is accepted stays accepted with a lower risk score, a better document or a better
      biometric method. */
  lemma BetterEvidenceAccepted(s: State, env: Env, a: AccountId, j: Jurisdiction, e: Evidence, e': Evidence)
    requires Submit(s, env, a, j, e).result.Ok? && AtLeastAsGood(e', e)
    ensures Submit(s, env, a, j, e').result.Ok?
  {
    SubmitSucceeds(s, env, a, j, e);
    SubmitSucceeds(s, env, a, j, e');
  }

  /** A document and a biometric method worth so many points: one to begin with, one for a document and
      one more for a strong one, and one to three for the method. */
  predicate Worth(e: Evidence, points: int) {
    if points <= 2 then true
    else if points == 3 then StrongDocument(e.document) || e.biometric != NoBiometric
    else if points == 4 then
      e.biometric in {IrisScan, MultiFactor} || (StrongDocument(e.document) && e.biometric != NoBiometric)
    else if points == 5 then e.biometric == MultiFactor || (StrongDocument(e.document) && e.biometric == IrisScan)
    else points == 6 && StrongDocument(e.document) && e.biometric == MultiFactor
  }

  /** A level up to the fifth asks for one point less of a low risk, and for two more of a high one. No
      evidence reaches a sixth. */
  lemma LevelsExactly(e: Evidence, level: nat)
    requires level > 0
    ensures VerificationLevel(e) >= level <==>
      level <= 5 && Worth(e, if e.riskScore < 20 then level - 1 else if e.riskScore <= 80 then level else level + 2)
  {
  }

  /** What the third level asks for: nothing of a low risk; one of a strong document and any biometric
      method of a medium one; of a high risk several factors, or the iris beside a strong document. */
  predicate ThirdLevel(e: Evidence) {
    || e.riskScore < 20
    || (e.riskScore <= 80 && (StrongDocument(e.document) || e.biometric != NoBiometric))
    || (e.riskScore <= 100 && (e.biometric == MultiFactor || (StrongDocument(e.document) && e.biometric == IrisScan)))
  }

  /** What the fourth level asks for. */
  predicate FourthLevel(e: Evidence) {
    || (e.riskScore < 20 && (StrongDocument(e.document) || e.biometric != NoBiometric))
    || (e.riskScore <= 80 && (e.biometric in {IrisScan, MultiFactor}
                              || (StrongDocument(e.document) && e.biometric != NoBiometric)))
    || (e.riskScore <= 100 && StrongDocument(e.document) && e.biometric == MultiFactor)
  }

  /** The days for which a record is kept under the rules at deployment. */
  function DaysKept(j: Jurisdiction): nat {
    match j
    case US => 2555
    case EU => 1095
    case _ => 1825
  }

  /** At deployment every named jurisdiction asks for all three checks, and the two of the fourth level for
      a biometric method as well. */
  lemma RulesAtDeployment(owner: AccountId, j: Jurisdiction)
    ensures var rules := New(owner).jurisdictionRules;
      && (j in rules <==> j != Other)
      && (j in rules ==>
            && rules[j].requiresKyc && rules[j].requiresAml && rules[j].requiresSanctionsCheck
            && (rules[j].requiresBiometric <==> j in {Singapore, UAE})
            && (rules[j].minimumVerificationLevel == if j in {Singapore, UAE} then 4 else 3)
            && rules[j].dataRetentionDays == DaysKept(j))
  {
  }

  lemma LevelsAtDeployment(j: Jurisdiction, e: Evidence)
    requires e.riskScore <= 100 && j in DefaultRules()
    ensures VerificationLevel(e) >= DefaultRules()[j].minimumVerificationLevel <==>
      if j in {Singapore, UAE} then FourthLevel(e) else ThirdLevel(e)
  {
  }

  lemma DaysAtDeployment(env: Env, j: Jurisdiction)
    requires j in DefaultRules()
    ensures env.now + YEAR_MS <= U64_MAX && RetentionEnd(env.now, DefaultRules()[j]) <= U64_MAX <==>
      env.now + 86_400_000 * DaysKept(j) <= U64_MAX
  {
  }

  /** Exactly which evidence is accepted while the rules are those of deployment. */
  lemma AcceptedAtDeployment(s: State, env: Env, a: AccountId, j: Jurisdiction, e: Evidence)
    requires s.jurisdictionRules == DefaultRules()
    ensures Submit(s, env, a, j, e).result.Ok? <==>
      && IsVerifier(s, env.caller) && j != Other
      && (if j in {Singapore, UAE} then FourthLevel(e) else ThirdLevel(e))
      && env.now + 86_400_000 * DaysKept(j) <= U64_MAX
  {
    SubmitSucceeds(s, env, a, j, e);
    if j != Other && e.riskScore <= 100 {
      LevelsAtDeployment(j, e);
      DaysAtDeployment(env, j);
    }
  }

  /** That a jurisdiction requires a biometric method is written in its rules and decides nothing. */
  lemma BiometricRuleIsIdle(s: State, env: Env, a: AccountId, j: Jurisdiction, e: Evidence, required: bool)
    requires j in s.jurisdictionRules
    ensures var rules := s.jurisdictionRules[j := s.jurisdictionRules[j].(requiresBiometric := required)];
      Submit(s.(jurisdictionRules := rules), env, a, j, e).result == Submit(s, env, a, j, e).result
  {
  }

  /** In Singapore, whose rules require one, a passport and a low risk score do without. */
  lemma VerifiedWithoutBiometric(owner: AccountId, a: AccountId)
    ensures var s := New(owner);
      && s.jurisdictionRules[Singapore].requiresBiometric
      && Submit(s, Env(owner, 0), a, Singapore, Evidence(Low, Passport, NoBiometric, 10)).result.Ok?
  {
    AcceptedAtDeployment(New(owner), Env(owner, 0), a, Singapore, Evidence(Low, Passport, NoBiometric, 10));
  }

  // ----- refusals --------------------------------------------------------------------------

  /** Why a verifier's submission is refused. The score counts before the jurisdiction, and that before
      the level; a time that does not fit is found last. */
  lemma RefusalsExactly(s: State, env: Env, a: AccountId, j: Jurisdiction, e: Evidence)
    requires IsVerifier(s, env.caller)
    ensures var r := Submit(s, env, a, j, e).result;
      && (r == Err(InvalidRiskScore) <==> e.riskScore > 100)
      && (r == Err(JurisdictionNotSupported) <==> e.riskScore <= 100 && j !in s.jurisdictionRules)
      && (r == Err(NotVerified) <==> e.riskScore <= 100 && j in s.jurisdictionRules
                                      && VerificationLevel(e) < s.jurisdictionRules[j].minimumVerificationLevel)
      && (r == Err(Trap) <==>
            && e.riskScore <= 100 && j in s.jurisdictionRules
            && VerificationLevel(e) >= s.jurisdictionRules[j].minimumVerificationLevel
            && (env.now + 31_536_000_000 > U64_MAX
                || env.now + 86_400_000 * s.jurisdictionRules[j].dataRetentionDays > U64_MAX))
      && (r.Ok? || r.error in {InvalidRiskScore, JurisdictionNotSupported, NotVerified, Trap})
  {
  }

  /** Why a verifier cannot process a request, besides what speaks against the evidence. */
  lemma ProcessRefusals(s: State, env: Env, id: u64, e: Evidence)
    requires Inv(s.funnel) && IsVerifier(s, env.caller)
    ensures id !in s.funnel.requests ==> Process(s, env, id, e) == Attempt(s, Err(NotVerified))
    ensures id in s.funnel.requests && s.funnel.requests[id].status == Verified ==>
      Process(s, env, id, e) == Attempt(s, Err(AlreadyVerified))
  {
    ProcessSubmits(s, env, id, e);
  }

  /** Why an account's own data is not deleted: while it has to be kept first, then for want of the
      withdrawn consent. */
  lemma DeletionRefusals(s: State, env: Env)
    ensures var r, a := RequestDeletion(s, env, env.caller).result, env.caller;
      && (r == Err(DataRetentionExpired) <==>
            a in s.complianceData ==> env.now <= s.complianceData[a].dataRetentionUntil)
      && (r == Err(ConsentNotGiven) <==>
            && a in s.complianceData && env.now > s.complianceData[a].dataRetentionUntil
            && s.complianceData[a].consent != Withdrawn)
  {
  }

  /** What an accepted verification puts on record, whatever was there before: verified for a year,
      kept as long as the rules say, and nothing checked or consented to yet. */
  lemma RecordOnAcceptance(s: State, env: Env, a: AccountId, j: Jurisdiction, e: Evidence)
    requires Submit(s, env, a, j, e).result.Ok?
    ensures var s' := Submit(s, env, a, j, e).state;
      && s'.complianceData.Keys == s.complianceData.Keys + {a} && j in s.jurisdictionRules
      && (forall b :: b in s.complianceData && b != a ==> s'.complianceData[b] == s.complianceData[b])
      && var d := s'.complianceData[a];
      && d.status == Verified && d.jurisdiction == j && d.riskLevel == e.riskLevel
      && d.expiryTimestamp == env.now + 31_536_000_000
      && d.dataRetentionUntil == env.now + 86_400_000 * s.jurisdictionRules[j].dataRetentionDays
      && !d.amlChecked && !d.sanctionsChecked && d.consent == NotGiven && d.consentTimestamp == 0
      && d.amlRiskFactors == RiskFactors(false, false, false, false, false)
  {
    SubmitSucceeds(s, env, a, j, e);
  }

  // ----- who may do what -------------------------------------------------------------------

  predicate Authorized(s: State, c: Call) {
    match c.msg
    case Administer(MsgUpdateTax(_, _)) =>
      c.env.caller == s.roles.owner || IsVerifier(s, c.env.caller) || GetOr(s.roles.taxModules, c.env.caller, false)
    case Administer(_) => c.env.caller == s.roles.owner
    case Verify(MsgCreateRequest(_)) => true
    case Verify(_) => IsVerifier(s, c.env.caller)
    case Amend(MsgConsent(a, _)) => c.env.caller == a || IsVerifier(s, c.env.caller)
    case Amend(MsgDelete(a)) => c.env.caller == a
    case Amend(_) => IsVerifier(s, c.env.caller)
  }

  /** Whoever is not authorized is told so, and changes nothing, not even a counter. */
  lemma UnauthorizedChangesNothing(s: State, c: Call)
    requires !Authorized(s, c)
    ensures Apply(s, c) == Attempt(s, Err(NotAuthorized))
  {
  }

  predicate AllOnRecord(s: State, accounts: seq<AccountId>) {
    forall i :: 0 <= i < |accounts| ==> accounts[i] in s.complianceData
  }

  /** What a message needs besides the authority. */
  predicate Possible(s: State, c: Call) {
    match c.msg
    case Administer(_) => true
    case Verify(MsgCreateRequest(_)) => !IsWaiting(s.funnel, c.env.caller) && s.funnel.requestCounter < U64_MAX
    case Verify(_) => Matches(VerdictOf(s, c), None, true)
    case Amend(MsgBatchAml(accounts, factors)) => |accounts| == |factors|
    case Amend(MsgBatchSanctions(accounts, results)) => |accounts| == |results| && AllOnRecord(s, accounts)
    case Amend(MsgDelete(a)) =>
      && a in s.complianceData && c.env.now > s.complianceData[a].dataRetentionUntil
      && s.complianceData[a].consent == Withdrawn
    case Amend(MsgAml(a, _, _)) => a in s.complianceData
    case Amend(MsgSanctions(a, _)) => a in s.complianceData
    case Amend(MsgRevoke(a)) => a in s.complianceData
    case Amend(MsgConsent(a, _)) => a in s.complianceData
  }

  lemma {:induction false} SanctionsLoopSucceeds(s: State, env: Env, accounts: seq<AccountId>, results: seq<bool>)
    requires |accounts| == |results| && IsVerifier(s, env.caller)
    ensures SanctionsLoop(s, env, accounts, results).result.Ok? <==> AllOnRecord(s, accounts)
    ensures var s' := SanctionsLoop(s, env, accounts, results).state;
      s'.complianceData.Keys == s.complianceData.Keys && s'.roles == s.roles
  {
    if accounts == [] {
    } else {
      var n := |accounts| - 1;
      SanctionsLoopSucceeds(s, env, accounts[..n], results[..n]);
      var s' := SanctionsLoop(s, env, accounts[..n], results[..n]).state;
      if accounts[n] in s.complianceData {
        assert s'.complianceData.Keys + {accounts[n]} == s.complianceData.Keys;
      }
    }
  }

  lemma FunnelAccepts(s: State, env: Env, m: FunnelMessage)
    requires Inv(s.funnel)
    ensures ApplyFunnel(s, env, m).result.Ok? <==>
      Authorized(s, Call(env, Verify(m))) && Possible(s, Call(env, Verify(m)))
  {
    match m
    case MsgSubmit(a, j, e) => SubmitSucceeds(s, env, a, j, e);
    case MsgCreateRequest(j) =>
    case MsgProcess(id, e) => ProcessSubmits(s, env, id, e);
  }

  lemma RecordAccepts(s: State, env: Env, m: RecordMessage)
    ensures ApplyRecord(s, env, m).result.Ok? <==>
      Authorized(s, Call(env, Amend(m))) && Possible(s, Call(env, Amend(m)))
  {
    match m
    case MsgBatchSanctions(accounts, results) =>
      if |accounts| == |results| && IsVerifier(s, env.caller) {
        SanctionsLoopSucceeds(s, env, accounts, results);
      }
    case _ =>
  }

  /** A message succeeds exactly if its sender is authorized and what it needs is there. */
  lemma AcceptsExactly(s: State, c: Call)
    requires Inv(s.funnel)
    ensures Apply(s, c).result.Ok? <==> Authorized(s, c) && Possible(s, c)
  {
    match c.msg
    case Verify(m) => FunnelAccepts(s, c.env, m);
    case Amend(m) => RecordAccepts(s, c.env, m);
    case Administer(m) =>
  }

  // ----- roles, rules and taxes over runs --------------------------------------------------

  /** The call makes the account a verifier: a KYC provider or one for everything is one too. */
  predicate Appoints(c: Call, v: AccountId) {
    c.msg == Administer(MsgAddVerifier(v)) || c.msg == Administer(MsgRegisterProvider(v, 0))
    || c.msg == Administer(MsgRegisterProvider(v, 3))
  }

  ghost predicate Appointed(owner: AccountId, run: seq<Call>, v: AccountId) {
    if run == [] then v == owner
    else Appointed(owner, Earlier(run), v) || (Last(run).env.caller == owner && Appoints(Last(run), v))
  }

  ghost function ModuleSet(owner: AccountId, run: seq<Call>, m: AccountId): bool {
    if run == [] then false
    else if Last(run).env.caller == owner && Last(run).msg.Administer? && Last(run).msg.admin.MsgSetTaxModule?
            && Last(run).msg.admin.taxModule == m
    then Last(run).msg.admin.active
    else ModuleSet(owner, Earlier(run), m)
  }

  ghost function RulesSet(owner: AccountId, run: seq<Call>): map<Jurisdiction, Rules> {
    if run == [] then DefaultRules()
    else if Last(run).env.caller == owner && Last(run).msg.Administer? && Last(run).msg.admin.MsgUpdateRules?
    then RulesSet(owner, Earlier(run))[Last(run).msg.admin.jurisdiction := Last(run).msg.admin.rules]
    else RulesSet(owner, Earlier(run))
  }

  lemma {:induction false} AmlLoopKeepsRoles(s: State, accounts: seq<AccountId>, factors: seq<RiskFactors>)
    requires |accounts| == |factors|
    ensures var s' := AmlLoop(s, accounts, factors);
      s'.roles == s.roles && s'.jurisdictionRules == s.jurisdictionRules && s'.taxStatus == s.taxStatus
  {
    if accounts == [] {
    } else {
      AmlLoopKeepsRoles(s, accounts[..|accounts| - 1], factors[..|accounts| - 1]);
    }
  }

  lemma {:induction false} SanctionsLoopKeepsRoles(s: State, env: Env, accounts: seq<AccountId>, results: seq<bool>)
    requires |accounts| == |results|
    ensures var s' := SanctionsLoop(s, env, accounts, results).state;
      s'.roles == s.roles && s'.jurisdictionRules == s.jurisdictionRules && s'.taxStatus == s.taxStatus
  {
    if accounts == [] {
    } else {
      SanctionsLoopKeepsRoles(s, env, accounts[..|accounts| - 1], results[..|accounts| - 1]);
    }
  }

  predicate SameRoles(s: State, s': State) {
    s'.roles == s.roles && s'.jurisdictionRules == s.jurisdictionRules && s'.taxStatus == s.taxStatus
  }

  lemma FunnelKeepsRoles(s: State, env: Env, m: FunnelMessage)
    ensures SameRoles(s, ApplyFunnel(s, env, m).state)
  {
    match m
    case MsgSubmit(a, j, e) => SubmitKeepsRoles(s, env, a, j, e);
    case MsgCreateRequest(j) =>
    case MsgProcess(id, e) =>
      if id in s.funnel.requests {
        SubmitKeepsRoles(s, env, s.funnel.requests[id].account, s.funnel.requests[id].jurisdiction, e);
      }
  }

  lemma SubmitKeepsRoles(s: State, env: Env, a: AccountId, j: Jurisdiction, e: Evidence)
    ensures SameRoles(s, Submit(s, env, a, j, e).state)
  {
  }

  lemma RecordKeepsRoles(s: State, env: Env, m: RecordMessage)
    ensures SameRoles(s, ApplyRecord(s, env, m).state)
  {
    match m
    case MsgBatchAml(accounts, fs) => if |accounts| == |fs| { AmlLoopKeepsRoles(s, accounts, fs); }
    case MsgBatchSanctions(accounts, results) =>
      if |accounts| == |results| { SanctionsLoopKeepsRoles(s, env, accounts, results); }
    case _ =>
  }

  /** What a message of the owner, or one that only the owner may send, does to roles and rules. */
  lemma AdminSteps(s: State, env: Env, m: AdminMessage, a: AccountId)
    ensures var s', owns := ApplyAdmin(s, env, m).state, env.caller == s.roles.owner;
      && s'.roles.owner == s.roles.owner
      && (IsVerifier(s', a) <==> IsVerifier(s, a) || (owns && Appoints(Call(env, Administer(m)), a)))
      && GetOr(s'.roles.taxModules, a, false)
           == (if owns && m.MsgSetTaxModule? && m.taxModule == a then m.active
               else GetOr(s.roles.taxModules, a, false))
      && s'.jurisdictionRules
           == if owns && m.MsgUpdateRules? then s.jurisdictionRules[m.jurisdiction := m.rules] else s.jurisdictionRules
  {
  }

  lemma NextRoles(s: State, c: Call, keeps: bool)
    ensures c.msg.Administer? ==> SameRoles(Next(s, c, keeps), Apply(s, c).state)
    ensures !c.msg.Administer? ==> SameRoles(s, Next(s, c, keeps))
  {
    match c.msg
    case Verify(m) => FunnelKeepsRoles(s, c.env, m);
    case Amend(m) => RecordKeepsRoles(s, c.env, m);
    case Administer(m) =>
  }

  /** After every run the owner is the deployer; the verifiers are that account and those it appointed,
      for good; tax modules are as it last set them; and the rules are those of deployment with what
      it changed. */
  lemma {:induction false} RolesFollowTheOwner(owner: AccountId, run: seq<Call>, keeps: bool, a: AccountId)
    ensures var s := After(owner, run, keeps);
      && s.roles.owner == owner
      && (IsVerifier(s, a) <==> Appointed(owner, run, a))
      && GetOr(s.roles.taxModules, a, false) == ModuleSet(owner, run, a)
      && s.jurisdictionRules == RulesSet(owner, run)
  {
    if run == [] {
    } else {
      var s, c := After(owner, Earlier(run), keeps), Last(run);
      RolesFollowTheOwner(owner, Earlier(run), keeps, a);
      NextRoles(s, c, keeps);
      if c.msg.Administer? {
        AdminSteps(s, c.env, c.msg.admin, a);
      }
    }
  }
}
