/** The funnel counters are a materialised view of the request table, globally and for every
    jurisdiction, after any run and whether or not failing messages keep their writes. */
module KycFunnel {
  import opened Machine
  import opened MapSum
  import opened ComplianceRegistry

  // ----- the view --------------------------------------------------------------------------

  /** Counts the requests of a jurisdiction, or of all, with a status, or with any. */
  ghost function Counted(scope: Option<Jurisdiction>, status: Option<VerificationStatus>):
      (u64, VerificationRequest) -> int {
    (id: u64, r: VerificationRequest) =>
      if (scope == None || scope == Some(r.jurisdiction)) && (status == None || status == Some(r.status)) then 1 else 0
  }

  ghost function Tally(requests: map<u64, VerificationRequest>, scope: Option<Jurisdiction>,
      status: Option<VerificationStatus>): int {
    SumOf(requests, Counted(scope, status))
  }

  ghost predicate Views(m: KycMetrics, requests: map<u64, VerificationRequest>, scope: Option<Jurisdiction>) {
    && m.requestsCreated == Tally(requests, scope, None)
    && m.pendingRequests == Tally(requests, scope, Some(Pending))
    && m.convertedRequests == Tally(requests, scope, Some(Verified))
  }

  /** Attempts add up until they saturate, and both rates are up to date and at most one. */
  ghost predicate Balanced(m: KycMetrics) {
    && m.verificationAttempts == Min(U64_MAX, m.successfulVerifications + m.failedVerifications)
    && m.convertedRequests <= m.requestsCreated
    && m.conversionRateBips == RateBips(m.convertedRequests, m.requestsCreated) <= 10_000
    && m.verificationRateBips == RateBips(m.successfulVerifications, m.verificationAttempts) <= 10_000
  }

  // ----- sums over jurisdictions -----------------------------------------------------------

  ghost function Created(): (Jurisdiction, KycMetrics) -> int {
    (j: Jurisdiction, m: KycMetrics) => m.requestsCreated
  }

  ghost function Waiting(): (Jurisdiction, KycMetrics) -> int {
    (j: Jurisdiction, m: KycMetrics) => m.pendingRequests
  }

  ghost function Conversions(): (Jurisdiction, KycMetrics) -> int {
    (j: Jurisdiction, m: KycMetrics) => m.convertedRequests
  }

  ghost function Attempts(): (Jurisdiction, KycMetrics) -> int {
    (j: Jurisdiction, m: KycMetrics) => m.verificationAttempts
  }

  ghost function Successes(): (Jurisdiction, KycMetrics) -> int {
    (j: Jurisdiction, m: KycMetrics) => m.successfulVerifications
  }

  ghost function Failures(): (Jurisdiction, KycMetrics) -> int {
    (j: Jurisdiction, m: KycMetrics) => m.failedVerifications
  }

  /** The global counters are the sums over the jurisdictions, capped at the counter's width where
      the counter can reach it. */
  ghost predicate SumsUp(m: KycMetrics, parts: map<Jurisdiction, KycMetrics>) {
    && m.requestsCreated == SumOf(parts, Created())
    && m.pendingRequests == SumOf(parts, Waiting())
    && m.convertedRequests == SumOf(parts, Conversions())
    && m.verificationAttempts == Min(U64_MAX, SumOf(parts, Attempts()))
    && m.successfulVerifications == Min(U64_MAX, SumOf(parts, Successes()))
    && m.failedVerifications == Min(U64_MAX, SumOf(parts, Failures()))
  }

  // ----- the request table -----------------------------------------------------------------

  /** Identifiers count up from zero, and every pending request is its account's latest. */
  ghost predicate Table(requests: map<u64, VerificationRequest>, counter: u64, latest: map<AccountId, u64>) {
    && (forall id :: id in requests ==> id < counter)
    && (forall id :: id in requests ==> requests[id].status == Pending || requests[id].status == Verified)
    && (forall id :: id in requests && requests[id].status == Pending ==>
          requests[id].account in latest && latest[requests[id].account] == id)
    && (forall a :: a in latest ==> latest[a] in requests && requests[latest[a]].account == a)
    && Tally(requests, None, None) == counter
  }

  ghost predicate TableOk(f: Funnel) {
    Table(f.requests, f.requestCounter, f.accountRequests)
  }

  ghost predicate FunnelOk(f: Funnel) {
    && Views(f.metrics, f.requests, None)
    && (forall j :: Views(JurisdictionMetrics(f, j), f.requests, Some(j)))
  }

  ghost predicate BalanceOk(f: Funnel) {
    && Balanced(f.metrics)
    && (forall j :: Balanced(JurisdictionMetrics(f, j)))
    && SumsUp(f.metrics, f.byJurisdiction)
  }

  ghost predicate Inv(f: Funnel) {
    TableOk(f) && FunnelOk(f) && BalanceOk(f)
  }

  // ----- arithmetic ------------------------------------------------------------------------

  lemma RateAtMostOne(n: u64, d: u64)
    requires n <= d
    ensures RateBips(n, d) <= 10_000
  {
    if d > 0 {
      QuotientBound(SaturatingMul(U64_MAX, n, 10_000), d, 10_000);
    }
  }

  /** A rate is the floor of ten thousand times the quotient, and zero without a denominator. From where
      the product saturates it is what the largest product gives. */
  lemma RateIsQuotient(n: u64, d: u64)
    ensures d == 0 ==> RateBips(n, d) == 0
    ensures d > 0 ==> d * RateBips(n, d) <= Min(U64_MAX, 10_000 * n) < d * RateBips(n, d) + d
  {
    if d > 0 {
      var x := Min(U64_MAX, 10_000 * n);
      assert x == d * (x / d) + x % d;
    }
  }

  lemma MulOrder(d: nat, q: nat, k: nat)
    requires d > 0
    ensures q >= k ==> d * q >= d * k
  {
  }

  lemma QuotientBound(x: nat, d: nat, k: nat)
    requires d > 0 && x <= k * d
    ensures x / d <= k
  {
    MulOrder(d, x / d, k + 1);
    assert d * (k + 1) == k * d + d;
  }

  lemma TallyBounds(requests: map<u64, VerificationRequest>, scope: Option<Jurisdiction>,
      status: Option<VerificationStatus>)
    ensures 0 <= Tally(requests, scope, status) <= Tally(requests, scope, None) <= Tally(requests, None, None)
  {
    NonNegative(requests, Counted(scope, status));
    Monotone(requests, Counted(scope, status), Counted(scope, None));
    Monotone(requests, Counted(scope, None), Counted(None, None));
  }

  // ----- one request more ------------------------------------------------------------------

  lemma AddedTally(requests: map<u64, VerificationRequest>, id: u64, r: VerificationRequest,
                   scope: Option<Jurisdiction>, status: Option<VerificationStatus>)
    requires id !in requests
    ensures Tally(requests[id := r], scope, status) == Tally(requests, scope, status) + Counted(scope, status)(id, r)
  {
    Insert(requests, Counted(scope, status), id, r);
  }

  /** Adding a waiting request, in step for one set of counters. */
  lemma RequestViews(m: KycMetrics, requests: map<u64, VerificationRequest>, id: u64, r: VerificationRequest,
      scope: Option<Jurisdiction>)
    requires Views(m, requests, scope) && Balanced(m) && id !in requests && r.status == Pending
    requires Tally(requests, None, None) < U64_MAX
    ensures var inScope := scope == None || scope == Some(r.jurisdiction);
      && Views(if inScope then WithRequest(m) else m, requests[id := r], scope)
      && Balanced(WithRequest(m))
      && (inScope ==> WithRequest(m).requestsCreated == m.requestsCreated + 1
                      && WithRequest(m).pendingRequests == m.pendingRequests + 1)
  {
    AddedTally(requests, id, r, scope, None);
    AddedTally(requests, id, r, scope, Some(Pending));
    AddedTally(requests, id, r, scope, Some(Verified));
    TallyBounds(requests, scope, Some(Pending));
    RateAtMostOne(m.convertedRequests, WithRequest(m).requestsCreated);
  }

  // ----- one attempt more ------------------------------------------------------------------

  lemma ConvertedTally(requests: map<u64, VerificationRequest>, id: u64, scope: Option<Jurisdiction>,
      status: Option<VerificationStatus>)
    requires id in requests
    ensures var r := requests[id];
      Tally(requests[id := r.(status := Verified)], scope, status)
        == Tally(requests, scope, status) - Counted(scope, status)(id, r)
          + Counted(scope, status)(id, r.(status := Verified))
  {
    Insert(requests, Counted(scope, status), id, requests[id].(status := Verified));
  }

  lemma AttemptBalanced(m: KycMetrics, success: bool)
    requires Balanced(m)
    ensures Balanced(WithAttempt(m, false, success))
  {
    RateAtMostOne(m.convertedRequests, m.requestsCreated);
    var m' := WithAttempt(m, false, success);
    RateAtMostOne(m'.successfulVerifications, m'.verificationAttempts);
  }

  /** Converting a waiting request, in step for one set of counters. */
  lemma ConversionViews(m: KycMetrics, requests: map<u64, VerificationRequest>, id: u64, scope: Option<Jurisdiction>)
    requires Views(m, requests, scope) && Balanced(m) && id in requests && requests[id].status == Pending
    requires Tally(requests, None, None) <= U64_MAX
    ensures var inScope := scope == None || scope == Some(requests[id].jurisdiction);
      var m' := if inScope then WithAttempt(m, true, true) else m;
      && Views(m', requests[id := requests[id].(status := Verified)], scope) && Balanced(m')
      && (inScope ==> m'.convertedRequests == m.convertedRequests + 1
                      && m'.pendingRequests == m.pendingRequests - 1)
  {
    ConvertedTally(requests, id, scope, None);
    ConvertedTally(requests, id, scope, Some(Pending));
    ConvertedTally(requests, id, scope, Some(Verified));
    var requests' := requests[id := requests[id].(status := Verified)];
    TallyBounds(requests', scope, Some(Verified));
    TallyBounds(requests', scope, Some(Pending));
    TallyBounds(requests, scope, None);
    if scope == None || scope == Some(requests[id].jurisdiction) {
      var m' := WithAttempt(m, true, true);
      RateAtMostOne(m.convertedRequests + 1, m.requestsCreated);
      RateAtMostOne(m'.successfulVerifications, m'.verificationAttempts);
    }
  }

  // ----- the messages ----------------------------------------------------------------------

  lemma SumsStep(m: KycMetrics, parts: map<Jurisdiction, KycMetrics>, j: Jurisdiction, m': KycMetrics, part: KycMetrics)
    requires SumsUp(m, parts)
    requires var was := GetOr(parts, j, NO_METRICS);
      && m'.requestsCreated - m.requestsCreated == part.requestsCreated - was.requestsCreated
      && m'.pendingRequests - m.pendingRequests == part.pendingRequests - was.pendingRequests
      && m'.convertedRequests - m.convertedRequests == part.convertedRequests - was.convertedRequests
      && StepsTogether(m.verificationAttempts, m'.verificationAttempts, was.verificationAttempts,
        part.verificationAttempts)
      && StepsTogether(m.successfulVerifications, m'.successfulVerifications, was.successfulVerifications,
        part.successfulVerifications)
      && StepsTogether(m.failedVerifications, m'.failedVerifications, was.failedVerifications, part.failedVerifications)
    ensures SumsUp(m', parts[j := part])
  {
    Insert(parts, Created(), j, part);
    Insert(parts, Waiting(), j, part);
    Insert(parts, Conversions(), j, part);
    CappedStep(parts, Attempts(), j, part, m.verificationAttempts, m'.verificationAttempts);
    CappedStep(parts, Successes(), j, part, m.successfulVerifications, m'.successfulVerifications);
    CappedStep(parts, Failures(), j, part, m.failedVerifications, m'.failedVerifications);
  }

  /** Both counters stay, or both are bumped with saturation. */
  predicate StepsTogether(total: u64, total': u64, part: u64, part': u64) {
    (total' == total && part' == part) || (total' == Plus1(total) && part' == Plus1(part))
  }

  lemma CappedStep(parts: map<Jurisdiction, KycMetrics>, f: (Jurisdiction, KycMetrics) -> int, j: Jurisdiction,
      part: KycMetrics, total: u64, total': u64)
    requires f(j, NO_METRICS) == 0 && forall k, m :: 0 <= f(k, m) <= U64_MAX
    requires total == Min(U64_MAX, SumOf(parts, f))
    requires StepsTogether(total, total', f(j, GetOr(parts, j, NO_METRICS)), f(j, part))
    ensures total' == Min(U64_MAX, SumOf(parts[j := part], f))
  {
    Insert(parts, f, j, part);
    if j in parts {
      Dominates(parts, f, j);
    }
  }

  /** Both sets of counters after a message wrote one jurisdiction's. */
  ghost predicate Wrote(f: Funnel, f': Funnel, j: Jurisdiction, part: KycMetrics) {
    f'.byJurisdiction == f.byJurisdiction[j := part]
  }

  lemma Others(f: Funnel, f': Funnel, j: Jurisdiction, part: KycMetrics, k: Jurisdiction)
    requires Wrote(f, f', j, part)
    ensures JurisdictionMetrics(f', k) == if k == j then part else JurisdictionMetrics(f, k)
  {
  }

  /** Balance is kept when the global and one jurisdiction's counters step together. */
  lemma BalanceStep(f: Funnel, f': Funnel, j: Jurisdiction, part: KycMetrics)
    requires BalanceOk(f) && Wrote(f, f', j, part) && Balanced(f'.metrics) && Balanced(part)
    requires SumsUp(f'.metrics, f'.byJurisdiction)
    ensures BalanceOk(f')
  {
    forall k ensures Balanced(JurisdictionMetrics(f', k)) {
      Others(f, f', j, part, k);
    }
  }

  lemma RecordAttemptKeepsInv(f: Funnel, j: Jurisdiction, success: bool)
    requires Inv(f)
    ensures Inv(RecordAttempt(f, j, false, success))
  {
    var f' := RecordAttempt(f, j, false, success);
    var was := JurisdictionMetrics(f, j);
    var part := WithAttempt(was, false, success);
    assert BalanceOk(f') by {
      AttemptBalanced(f.metrics, success);
      AttemptBalanced(was, success);
      SumsStep(f.metrics, f.byJurisdiction, j, f'.metrics, part);
      BalanceStep(f, f', j, part);
    }
    assert FunnelOk(f') by {
      forall k ensures Views(JurisdictionMetrics(f', k), f'.requests, Some(k)) {
        Others(f, f', j, part, k);
        assert Views(JurisdictionMetrics(f, k), f.requests, Some(k));
      }
    }
  }

  lemma ConversionKeepsTable(f: Funnel, id: u64)
    requires TableOk(f) && id in f.requests && f.requests[id].status == Pending
    ensures TableOk(Converted(f, id))
  {
    ConvertedTally(f.requests, id, None, None);
  }

  lemma ConversionKeepsInv(f: Funnel, id: u64)
    requires Inv(f) && id in f.requests && f.requests[id].status == Pending
    ensures Inv(RecordAttempt(Converted(f, id), f.requests[id].jurisdiction, true, true))
  {
    var j := f.requests[id].jurisdiction;
    var f' := RecordAttempt(Converted(f, id), j, true, true);
    var part := WithAttempt(JurisdictionMetrics(f, j), true, true);
    ConversionKeepsTable(f, id);
    ConversionViews(f.metrics, f.requests, id, None);
    assert FunnelOk(f') by {
      forall k ensures Views(JurisdictionMetrics(f', k), f'.requests, Some(k)) {
        Others(f, f', j, part, k);
        ConversionViews(JurisdictionMetrics(f, k), f.requests, id, Some(k));
      }
    }
    assert BalanceOk(f') by {
      ConversionViews(JurisdictionMetrics(f, j), f.requests, id, Some(j));
      SumsStep(f.metrics, f.byJurisdiction, j, f'.metrics, part);
      BalanceStep(f, f', j, part);
    }
  }

  lemma RowAdded(requests: map<u64, VerificationRequest>, counter: u64, latest: map<AccountId, u64>,
      r: VerificationRequest)
    requires Table(requests, counter, latest) && counter < U64_MAX && r.status == Pending
    requires r.account in latest ==> requests[latest[r.account]].status != Pending
    ensures counter !in requests
    ensures Table(requests[counter := r], counter + 1, latest[r.account := counter])
  {
    AddedTally(requests, counter, r, None, None);
  }

  lemma OpenedKeepsInv(f: Funnel, a: AccountId, j: Jurisdiction, now: u64)
    requires Inv(f) && !IsWaiting(f, a) && f.requestCounter < U64_MAX
    ensures Inv(Opened(f, a, j, now))
  {
    var f', id := Opened(f, a, j, now), f.requestCounter;
    var r := VerificationRequest(a, j, now, Pending);
    var part := WithRequest(JurisdictionMetrics(f, j));
    RowAdded(f.requests, id, f.accountRequests, r);
    RequestViews(f.metrics, f.requests, id, r, None);
    assert FunnelOk(f') by {
      forall k ensures Views(JurisdictionMetrics(f', k), f'.requests, Some(k)) {
        Others(f, f', j, part, k);
        RequestViews(JurisdictionMetrics(f, k), f.requests, id, r, Some(k));
      }
    }
    assert BalanceOk(f') by {
      RequestViews(JurisdictionMetrics(f, j), f.requests, id, r, Some(j));
      SumsStep(f.metrics, f.byJurisdiction, j, f'.metrics, part);
      BalanceStep(f, f', j, part);
    }
  }

  lemma AcceptedKeepsInv(f: Funnel, a: AccountId, j: Jurisdiction)
    requires Inv(f)
    ensures Inv(Accepted(f, a, j))
  {
    if Convertible(f, a, j) {
      ConversionKeepsInv(f, f.accountRequests[a]);
    } else {
      RecordAttemptKeepsInv(f, j, true);
    }
  }

  lemma SubmitKeepsInv(s: State, env: Env, a: AccountId, j: Jurisdiction, e: Evidence)
    requires Inv(s.funnel)
    ensures Inv(Submit(s, env, a, j, e).state.funnel)
  {
    if Submit(s, env, a, j, e).result.Ok? {
      SubmitSucceeds(s, env, a, j, e);
      AcceptedKeepsInv(s.funnel, a, j);
    } else {
      SubmitFails(s, env, a, j, e);
      RecordAttemptKeepsInv(s.funnel, j, false);
    }
  }

  /** The second write of a processed request repeats the first: its account's latest request is
      the request itself. */
  lemma ProcessIsSubmit(s: State, env: Env, id: u64, e: Evidence)
    requires Inv(s.funnel) && Process(s, env, id, e).result.Ok?
    ensures id in s.funnel.requests && s.funnel.requests[id].status == Pending
    ensures Process(s, env, id, e)
      == Submit(s, env, s.funnel.requests[id].account, s.funnel.requests[id].jurisdiction, e)
  {
    var r := s.funnel.requests[id];
    SubmitSucceeds(s, env, r.account, r.jurisdiction, e);
    var done := Accepted(s.funnel, r.account, r.jurisdiction);
    assert done.requests == s.funnel.requests[id := r.(status := Verified)];
    assert done.requests[id := r.(status := Verified)] == done.requests;
    assert done.(requests := done.requests[id := r.(status := Verified)]) == done;
  }

  lemma ProcessKeepsInv(s: State, env: Env, id: u64, e: Evidence)
    requires Inv(s.funnel)
    ensures Inv(Process(s, env, id, e).state.funnel)
  {
    if id in s.funnel.requests {
      SubmitKeepsInv(s, env, s.funnel.requests[id].account, s.funnel.requests[id].jurisdiction, e);
      if Process(s, env, id, e).result.Ok? {
        ProcessIsSubmit(s, env, id, e);
      }
    }
  }

  lemma FunnelKeepsInv(s: State, env: Env, m: FunnelMessage)
    requires Inv(s.funnel)
    ensures Inv(ApplyFunnel(s, env, m).state.funnel)
  {
    match m
    case MsgSubmit(a, j, e) => SubmitKeepsInv(s, env, a, j, e);
    case MsgCreateRequest(j) =>
      if CreateRequest(s, env, j).result.Ok? {
        OpenedKeepsInv(s.funnel, env.caller, j, env.now);
      }
    case MsgProcess(id, e) => ProcessKeepsInv(s, env, id, e);
  }

  lemma {:induction false} AmlLoopSame(s: State, accounts: seq<AccountId>, factors: seq<RiskFactors>)
    requires |accounts| == |factors|
    ensures AmlLoop(s, accounts, factors).funnel == s.funnel
  {
    if accounts == [] {
    } else {
      AmlLoopSame(s, accounts[..|accounts| - 1], factors[..|accounts| - 1]);
    }
  }

  lemma {:induction false} SanctionsLoopSame(s: State, env: Env, accounts: seq<AccountId>, results: seq<bool>)
    requires |accounts| == |results|
    ensures SanctionsLoop(s, env, accounts, results).state.funnel == s.funnel
  {
    if accounts == [] {
    } else {
      SanctionsLoopSame(s, env, accounts[..|accounts| - 1], results[..|accounts| - 1]);
    }
  }

  lemma RecordKeepsFunnel(s: State, env: Env, m: RecordMessage)
    ensures ApplyRecord(s, env, m).state.funnel == s.funnel
  {
    match m
    case MsgBatchAml(accounts, fs) => if |accounts| == |fs| { AmlLoopSame(s, accounts, fs); }
    case MsgBatchSanctions(accounts, results) =>
      if |accounts| == |results| { SanctionsLoopSame(s, env, accounts, results); }
    case _ =>
  }

  lemma AdminKeepsFunnel(s: State, env: Env, m: AdminMessage)
    ensures ApplyAdmin(s, env, m).state.funnel == s.funnel
  {
  }

  lemma NextKeepsInv(s: State, c: Call, keeps: bool)
    requires Inv(s.funnel)
    ensures Inv(Next(s, c, keeps).funnel)
  {
    match c.msg
    case Verify(m) => FunnelKeepsInv(s, c.env, m);
    case Administer(m) => AdminKeepsFunnel(s, c.env, m);
    case Amend(m) => RecordKeepsFunnel(s, c.env, m);
  }

  lemma NothingCounted(requests: map<u64, VerificationRequest>, scope: Option<Jurisdiction>)
    requires requests == map[]
    ensures Views(NO_METRICS, requests, scope)
  {
    assert Tally(requests, scope, None) == 0;
    assert Tally(requests, scope, Some(Pending)) == 0;
    assert Tally(requests, scope, Some(Verified)) == 0;
  }

  lemma NothingSummed(parts: map<Jurisdiction, KycMetrics>)
    requires parts == map[]
    ensures SumsUp(NO_METRICS, parts)
  {
    assert SumOf(parts, Created()) == 0 && SumOf(parts, Waiting()) == 0 && SumOf(parts, Conversions()) == 0;
    assert SumOf(parts, Attempts()) == 0 && SumOf(parts, Successes()) == 0 && SumOf(parts, Failures()) == 0;
  }

  lemma ZeroBalances()
    ensures Balanced(NO_METRICS)
  {
  }

  lemma EmptyIsFine(f: Funnel)
    requires f == EmptyFunnel()
    ensures Inv(f)
  {
    NothingCounted(f.requests, None);
    NothingSummed(f.byJurisdiction);
    ZeroBalances();
    forall j ensures Views(JurisdictionMetrics(f, j), f.requests, Some(j)) && Balanced(JurisdictionMetrics(f, j)) {
      NothingCounted(f.requests, Some(j));
    }
  }

  lemma {:induction false} Reachable(owner: AccountId, run: seq<Call>, keeps: bool)
    ensures Inv(After(owner, run, keeps).funnel)
  {
    if run == [] {
      EmptyIsFine(New(owner).funnel);
    } else {
      var earlier := run[..|run| - 1];
      Reachable(owner, earlier, keeps);
      NextKeepsInv(After(owner, earlier, keeps), run[|run| - 1], keeps);
    }
  }

  // ----- the results -----------------------------------------------------------------------

  /** After any run the created, pending and converted counters are the numbers of all, pending and
      verified requests in the table, globally and in every jurisdiction. No counter saturates. */
  lemma CountersViewTheTable(owner: AccountId, run: seq<Call>, keeps: bool, j: Jurisdiction)
    ensures var f := After(owner, run, keeps).funnel;
      Views(f.metrics, f.requests, None) && Views(JurisdictionMetrics(f, j), f.requests, Some(j))
  {
    Reachable(owner, run, keeps);
  }

  /** Attempts are successes plus failures, global counters are sums over jurisdictions, each up to
      saturation, and no rate exceeds 10000. */
  lemma CountersBalance(owner: AccountId, run: seq<Call>, keeps: bool, j: Jurisdiction)
    ensures var f := After(owner, run, keeps).funnel;
      && Balanced(f.metrics) && Balanced(JurisdictionMetrics(f, j))
      && SumsUp(f.metrics, f.byJurisdiction)
  {
    Reachable(owner, run, keeps);
  }

  /** A pending request is always its account's latest. */
  lemma PendingIsLatest(owner: AccountId, run: seq<Call>, keeps: bool, id: u64)
    ensures var f := After(owner, run, keeps).funnel;
      id in f.requests && f.requests[id].status == Pending ==>
        f.requests[id].account in f.accountRequests && f.accountRequests[f.requests[id].account] == id
  {
    Reachable(owner, run, keeps);
  }

  /** A new request names its account, jurisdiction and time, takes the next number, and no other
      request changes. */
  lemma RequestIsOnRecord(s: State, env: Env, j: Jurisdiction)
    requires Inv(s.funnel) && CreateRequest(s, env, j).result.Ok?
    ensures var o := CreateRequest(s, env, j);
      && o.result == Ok(s.funnel.requestCounter)
      && o.state.funnel.requests
           == s.funnel.requests[s.funnel.requestCounter := VerificationRequest(env.caller, j, env.now, Pending)]
      && o.state.funnel.requestCounter == s.funnel.requestCounter + 1
      && s.funnel.requestCounter !in s.funnel.requests
      && IsWaiting(o.state.funnel, env.caller)
  {
  }
}
