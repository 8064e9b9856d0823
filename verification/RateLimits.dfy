/** The bridge's daily limits: requests per account, and volume both by chain and by account. */
module RateLimits {
  import opened Machine
  import opened MapSum
  import opened BridgeTypes

  datatype Ledger = Ledger(
    accountRequests: map<AccountId, u64>,
    accountResetDay: map<AccountId, u64>,
    chainVolume: map<ChainId, u128>,
    chainResetDay: map<ChainId, u64>,
    accountVolume: map<AccountId, u128>,
    accountVolumeDay: map<AccountId, u64>)

  const EMPTY := Ledger(map[], map[], map[], map[], map[], map[])

  /** One rate-limited call, with the time and the configuration it meets. */
  datatype Check = Check(
    account: AccountId, chain: ChainId, amount: u128, isNft: bool, now: u64,
    enabled: bool, maxRequestsPerDay: u64, chainDailyLimit: Option<u128>)

  function Day(c: Check): u64 {
    c.now / DAY_MS
  }

  /** A counter as of a day: zero once the day is later than its last reset. */
  function AsOf<K>(values: map<K, nat>, resets: map<K, u64>, k: K, day: u64): nat {
    if GetOr(resets, k, 0) < day then 0 else GetOr(values, k, 0)
  }

  function Touch<K>(resets: map<K, u64>, k: K, day: u64): map<K, u64> {
    if GetOr(resets, k, 0) < day then resets[k := day] else resets
  }

  function CountRequest(s: Ledger, c: Check): Outcome<Ledger, (), BridgeError> {
    var requests := AsOf(s.accountRequests, s.accountResetDay, c.account, Day(c));
    if requests >= c.maxRequestsPerDay then Reverted(RateLimitExceeded)
    else
      Committed(
        s.(accountResetDay := Touch(s.accountResetDay, c.account, Day(c)),
           accountRequests := s.accountRequests[c.account := requests + 1]),
        ())
  }

  function AddVolume(s: Ledger, c: Check): Outcome<Ledger, (), BridgeError> {
    if c.chainDailyLimit.None? then Reverted(InvalidChain)
    else
      var volume := AsOf(s.chainVolume, s.chainResetDay, c.chain, Day(c));
      if SaturatingAdd(U128_MAX, volume, c.amount) > c.chainDailyLimit.value then Reverted(RateLimitExceeded)
      else if volume + c.amount > U128_MAX then Reverted(Trap)
      else
        var spent := AsOf(s.accountVolume, s.accountVolumeDay, c.account, Day(c));
        Committed(
          s.(chainResetDay := Touch(s.chainResetDay, c.chain, Day(c)),
             chainVolume := s.chainVolume[c.chain := volume + c.amount],
             accountVolumeDay := Touch(s.accountVolumeDay, c.account, Day(c)),
             accountVolume := s.accountVolume[c.account := SaturatingAdd(U128_MAX, spent, c.amount)]),
          ())
  }

  function CheckAndUpdate(s: Ledger, c: Check): Outcome<Ledger, (), BridgeError> {
    if !c.enabled then Committed(s, ())
    else
      var counted := if c.isNft then CountRequest(s, c) else Committed(s, ());
      if counted.Reverted? || c.amount == 0 then counted else AddVolume(counted.state, c)
  }

  function Next(s: Ledger, c: Check): Ledger {
    match CheckAndUpdate(s, c)
    case Committed(s', _) => s'
    case Reverted(_) => s
  }

  function After(run: seq<Check>): Ledger {
    if run == [] then EMPTY else Next(After(run[..|run| - 1]), run[|run| - 1])
  }

  // ----- the contract's method -------------------------------------------------------------

  class Limiter {
    const admin: AccountId
    var accountDailyRequests: map<AccountId, u64>
    var accountLastResetDay: map<AccountId, u64>
    var chainDailyVolume: map<ChainId, u128>
    var chainLastResetDay: map<ChainId, u64>
    var accountDailyVolume: map<AccountId, u128>
    var accountDailyVolumeLastResetDay: map<AccountId, u64>

    function View(): Ledger
      reads this
    {
      Ledger(accountDailyRequests, accountLastResetDay, chainDailyVolume, chainLastResetDay,
             accountDailyVolume, accountDailyVolumeLastResetDay)
    }

    constructor (caller: AccountId)
      ensures View() == EMPTY && admin == caller
    {
      admin := caller;
      accountDailyRequests, accountLastResetDay := map[], map[];
      chainDailyVolume, chainLastResetDay := map[], map[];
      accountDailyVolume, accountDailyVolumeLastResetDay := map[], map[];
    }

    /** Some reset days are written before a check that may still fail. */
    method CheckAndUpdateRateLimits(c: Check) returns (r: Result<(), BridgeError>)
      modifies this
      ensures r.Ok? ==> CheckAndUpdate(old(View()), c) == Committed(View(), ())
      ensures r.Err? ==> CheckAndUpdate(old(View()), c) == Reverted(r.error)
    {
      if !c.enabled {
        return Ok(());
      }
      if c.isNft {
        var counted := CountDailyRequest(c);
        if counted.Err? {
          return counted;
        }
      }
      if c.amount > 0 {
        r := AddDailyVolume(c);
        return;
      }
      return Ok(());
    }

    method CountDailyRequest(c: Check) returns (r: Result<(), BridgeError>)
      modifies this`accountDailyRequests, this`accountLastResetDay
      ensures r.Ok? ==> CountRequest(old(View()), c) == Committed(View(), ())
      ensures r.Err? ==> CountRequest(old(View()), c) == Reverted(r.error)
    {
      var currentDay := c.now / DAY_MS;
      var lastReset := GetOr(accountLastResetDay, c.account, 0);
      var dailyRequests := GetOr(accountDailyRequests, c.account, 0);
      if lastReset < currentDay {
        dailyRequests := 0;
        accountLastResetDay := accountLastResetDay[c.account := currentDay];
      }
      if dailyRequests >= c.maxRequestsPerDay {
        return Err(RateLimitExceeded);
      }
      accountDailyRequests := accountDailyRequests[c.account := dailyRequests + 1];
      return Ok(());
    }

    method AddDailyVolume(c: Check) returns (r: Result<(), BridgeError>)
      modifies this`chainDailyVolume, this`chainLastResetDay
      modifies this`accountDailyVolume, this`accountDailyVolumeLastResetDay
      ensures r.Ok? ==> AddVolume(old(View()), c) == Committed(View(), ())
      ensures r.Err? ==> AddVolume(old(View()), c) == Reverted(r.error)
    {
      if c.chainDailyLimit.None? {
        return Err(InvalidChain);
      }
      var currentDay := c.now / DAY_MS;
      var lastChainReset := GetOr(chainLastResetDay, c.chain, 0);
      var chainVolume := GetOr(chainDailyVolume, c.chain, 0);
      if lastChainReset < currentDay {
        chainVolume := 0;
        chainLastResetDay := chainLastResetDay[c.chain := currentDay];
      }
      if SaturatingAdd(U128_MAX, chainVolume, c.amount) > c.chainDailyLimit.value {
        return Err(RateLimitExceeded);
      }
      if chainVolume + c.amount > U128_MAX {
        return Err(Trap);
      }
      chainDailyVolume := chainDailyVolume[c.chain := chainVolume + c.amount];
      var lastAccountReset := GetOr(accountDailyVolumeLastResetDay, c.account, 0);
      var accountVolume := GetOr(accountDailyVolume, c.account, 0);
      if lastAccountReset < currentDay {
        accountVolume := 0;
        accountDailyVolumeLastResetDay := accountDailyVolumeLastResetDay[c.account := currentDay];
      }
      accountDailyVolume := accountDailyVolume[c.account := SaturatingAdd(U128_MAX, accountVolume, c.amount)];
      return Ok(());
    }

    /** Only the admin may read the volumes. */
    method GetDailyVolume(caller: AccountId, chain: ChainId, now: u64) returns (r: Result<u128, BridgeError>)
      ensures r == if caller != admin then Err(Unauthorized)
                   else Ok(AsOf(chainDailyVolume, chainLastResetDay, chain, now / DAY_MS))
    {
      if caller != admin {
        return Err(Unauthorized);
      }
      var currentDay := now / DAY_MS;
      var lastReset := GetOr(chainLastResetDay, chain, 0);
      if lastReset < currentDay {
        return Ok(0);
      }
      return Ok(GetOr(chainDailyVolume, chain, 0));
    }

    method GetAccountDailyVolume(caller: AccountId, account: AccountId, now: u64) returns (r: Result<u128, BridgeError>)
      ensures r == if caller != admin then Err(Unauthorized)
                   else Ok(AsOf(accountDailyVolume, accountDailyVolumeLastResetDay, account, now / DAY_MS))
    {
      if caller != admin {
        return Err(Unauthorized);
      }
      var currentDay := now / DAY_MS;
      var lastReset := GetOr(accountDailyVolumeLastResetDay, account, 0);
      if lastReset < currentDay {
        return Ok(0);
      }
      return Ok(GetOr(accountDailyVolume, account, 0));
    }
  }

  // ----- what was accepted -----------------------------------------------------------------

  /** The last call was let through while limiting was on. */
  ghost predicate Accepts(run: seq<Check>)
    requires run != []
  {
    Last(run).enabled && CheckAndUpdate(After(Earlier(run)), Last(run)).Committed?
  }

  ghost function AcceptedByChain(run: seq<Check>, chain: ChainId, day: u64): nat {
    if run == [] then 0
    else AcceptedByChain(Earlier(run), chain, day)
         + if Accepts(run) && Last(run).chain == chain && Day(Last(run)) == day then Last(run).amount else 0
  }

  ghost function AcceptedByAccount(run: seq<Check>, account: AccountId, day: u64): nat {
    if run == [] then 0
    else AcceptedByAccount(Earlier(run), account, day)
         + if Accepts(run) && Last(run).account == account && Day(Last(run)) == day then Last(run).amount else 0
  }

  ghost function AcceptedInTotal(run: seq<Check>, day: u64): nat {
    if run == [] then 0
    else AcceptedInTotal(Earlier(run), day)
         + if Accepts(run) && Day(Last(run)) == day then Last(run).amount else 0
  }

  ghost function RequestsAccepted(run: seq<Check>, account: AccountId, day: u64): nat {
    if run == [] then 0
    else RequestsAccepted(Earlier(run), account, day)
         + if Accepts(run) && Last(run).isNft && Last(run).account == account && Day(Last(run)) == day then 1 else 0
  }

  /** Time does not run backwards, and has not passed the given day. */
  ghost predicate Timed(run: seq<Check>, day: u64) {
    && (forall i, j :: 0 <= i < j < |run| ==> run[i].now <= run[j].now)
    && (run != [] ==> Day(Last(run)) <= day)
  }

  lemma TimedEarlier(run: seq<Check>, day: u64)
    requires run != [] && Timed(run, day)
    ensures Timed(Earlier(run), Day(Last(run))) && Timed(Earlier(run), day)
  {
    var e := Earlier(run);
    if e != [] {
      assert run[|e| - 1].now <= run[|run| - 1].now;
    }
  }

  ghost predicate ResetsBy<K>(resets: map<K, u64>, day: u64) {
    forall k :: k in resets ==> resets[k] <= day
  }

  lemma ResetsStep(s: Ledger, c: Check, day: u64)
    requires ResetsBy(s.accountResetDay, day) && ResetsBy(s.chainResetDay, day) && ResetsBy(s.accountVolumeDay, day)
    requires Day(c) <= day
    ensures var s' := Next(s, c);
      ResetsBy(s'.accountResetDay, day) && ResetsBy(s'.chainResetDay, day) && ResetsBy(s'.accountVolumeDay, day)
  {
    TouchedBy(s.accountResetDay, c.account, Day(c), day);
    TouchedBy(s.chainResetDay, c.chain, Day(c), day);
    TouchedBy(s.accountVolumeDay, c.account, Day(c), day);
  }

  lemma TouchedBy<K>(resets: map<K, u64>, k: K, today: u64, day: u64)
    requires ResetsBy(resets, day) && today <= day
    ensures ResetsBy(Touch(resets, k, today), day)
  {
  }

  lemma {:induction false} ResetsAreNotLater(run: seq<Check>, day: u64)
    requires Timed(run, day)
    ensures var s := After(run);
      ResetsBy(s.accountResetDay, day) && ResetsBy(s.chainResetDay, day) && ResetsBy(s.accountVolumeDay, day)
  {
    if run == [] {
    } else {
      TimedEarlier(run, day);
      ResetsAreNotLater(Earlier(run), day);
      ResetsStep(After(Earlier(run)), Last(run), day);
    }
  }

  /** Writing a counter touched today, seen from today and from any later day. */
  lemma WriteAsOf<K>(values: map<K, nat>, resets: map<K, u64>, k: K, v: nat, today: u64, x: K, day: u64)
    requires ResetsBy(resets, today) && today <= day
    ensures AsOf(values[k := v], Touch(resets, k, today), x, day)
         == if x == k && day == today then v else AsOf(values, resets, x, day)
  {
  }

  lemma ChainStep(s: Ledger, c: Check, chain: ChainId, day: u64)
    requires ResetsBy(s.chainResetDay, Day(c)) && c.enabled && CheckAndUpdate(s, c).Committed? && Day(c) <= day
    ensures var s' := CheckAndUpdate(s, c).state;
      AsOf(s'.chainVolume, s'.chainResetDay, chain, day)
        == AsOf(s.chainVolume, s.chainResetDay, chain, day)
           + (if c.chain == chain && Day(c) == day then c.amount else 0)
  {
    var s', volume := CheckAndUpdate(s, c).state, AsOf(s.chainVolume, s.chainResetDay, c.chain, Day(c));
    if c.amount > 0 {
      WriteAsOf(s.chainVolume, s.chainResetDay, c.chain, volume + c.amount, Day(c), chain, day);
      assert s'.chainVolume == s.chainVolume[c.chain := volume + c.amount];
      assert s'.chainResetDay == Touch(s.chainResetDay, c.chain, Day(c));
    } else {
      assert s'.chainVolume == s.chainVolume && s'.chainResetDay == s.chainResetDay;
    }
  }

  lemma AccountStep(s: Ledger, c: Check, account: AccountId, day: u64)
    requires ResetsBy(s.accountVolumeDay, Day(c)) && c.enabled && CheckAndUpdate(s, c).Committed? && Day(c) <= day
    ensures var s' := CheckAndUpdate(s, c).state;
      AsOf(s'.accountVolume, s'.accountVolumeDay, account, day)
        == Min(U128_MAX, AsOf(s.accountVolume, s.accountVolumeDay, account, day)
                         + (if c.account == account && Day(c) == day then c.amount else 0))
  {
    var spent := AsOf(s.accountVolume, s.accountVolumeDay, c.account, Day(c));
    WriteAsOf(s.accountVolume, s.accountVolumeDay, c.account, SaturatingAdd(U128_MAX, spent, c.amount), Day(c),
      account, day);
    assert GetOr(s.accountVolume, account, 0) <= U128_MAX;
  }

  lemma RequestStep(s: Ledger, c: Check, account: AccountId, day: u64)
    requires ResetsBy(s.accountResetDay, Day(c)) && c.enabled && CheckAndUpdate(s, c).Committed? && Day(c) <= day
    ensures var s' := CheckAndUpdate(s, c).state;
      AsOf(s'.accountRequests, s'.accountResetDay, account, day)
        == AsOf(s.accountRequests, s.accountResetDay, account, day)
           + (if c.isNft && c.account == account && Day(c) == day then 1 else 0)
  {
    var requests := AsOf(s.accountRequests, s.accountResetDay, c.account, Day(c));
    WriteAsOf(s.accountRequests, s.accountResetDay, c.account, requests + 1, Day(c), account, day);
  }

  /** Each counter is, as of today or any later day, what was accepted on that day; the account's
      volume is capped at the width of the counter, the chain's never needs to be. */
  lemma {:induction false} CountersAreAccepted(run: seq<Check>, account: AccountId, chain: ChainId, day: u64)
    requires Timed(run, day)
    ensures var s := After(run);
      && AsOf(s.chainVolume, s.chainResetDay, chain, day) == AcceptedByChain(run, chain, day)
      && AsOf(s.accountVolume, s.accountVolumeDay, account, day)
           == Min(U128_MAX, AcceptedByAccount(run, account, day))
      && AsOf(s.accountRequests, s.accountResetDay, account, day) == RequestsAccepted(run, account, day)
  {
    if run == [] {
    } else {
      var c := Last(run);
      TimedEarlier(run, day);
      CountersAreAccepted(Earlier(run), account, chain, day);
      ResetsAreNotLater(Earlier(run), Day(c));
      if Accepts(run) {
        ChainStep(After(Earlier(run)), c, chain, day);
        AccountStep(After(Earlier(run)), c, account, day);
        RequestStep(After(Earlier(run)), c, account, day);
      }
    }
  }

  // ----- the limits hold -------------------------------------------------------------------

  /** Whatever the configuration did meanwhile, no chain takes in a day more than the largest limit
      it was checked against. */
  lemma {:induction false} VolumeWithinLimit(run: seq<Check>, chain: ChainId, day: u64, limit: u128)
    requires Timed(run, day)
    requires forall c :: c in run && c.chain == chain && c.chainDailyLimit.Some? ==> c.chainDailyLimit.value <= limit
    ensures AcceptedByChain(run, chain, day) <= limit
  {
    if run == [] {
    } else {
      var c := Last(run);
      TimedEarlier(run, day);
      VolumeWithinLimit(Earlier(run), chain, day, limit);
      CountersAreAccepted(Earlier(run), c.account, chain, day);
      assert c in run;
    }
  }

  lemma {:induction false} RequestsWithinLimit(run: seq<Check>, account: AccountId, day: u64, limit: u64)
    requires Timed(run, day)
    requires forall c :: c in run ==> c.maxRequestsPerDay <= limit
    ensures RequestsAccepted(run, account, day) <= limit
  {
    if run == [] {
    } else {
      var c := Last(run);
      TimedEarlier(run, day);
      RequestsWithinLimit(Earlier(run), account, day, limit);
      CountersAreAccepted(Earlier(run), account, c.chain, day);
      assert c in run;
    }
  }

  /** Told from the history alone: as long as time does not run backwards, a call that is limited is let
      through exactly if the account's requests accepted today are fewer than its limit, where it is
      one, and what its chain accepted today stays within the chain's limit with it. */
  lemma AcceptsExactly(run: seq<Check>, c: Check)
    requires Timed(run, Day(c))
    ensures CheckAndUpdate(After(run), c).Committed? <==>
      (c.enabled ==>
         && (c.isNft ==> RequestsAccepted(run, c.account, Day(c)) < c.maxRequestsPerDay)
         && (c.amount > 0 ==>
               && c.chainDailyLimit.Some?
               && AcceptedByChain(run, c.chain, Day(c)) + c.amount <= c.chainDailyLimit.value))
  {
    CountersAreAccepted(run, c.account, c.chain, Day(c));
  }

  /** Which limit a refused call met: the requests count first, then whether the chain has a limit at
      all, then its volume. */
  lemma RefusalsExactly(run: seq<Check>, c: Check)
    requires Timed(run, Day(c)) && CheckAndUpdate(After(run), c).Reverted?
    ensures var e := CheckAndUpdate(After(run), c).error;
      if c.isNft && RequestsAccepted(run, c.account, Day(c)) >= c.maxRequestsPerDay then e == RateLimitExceeded
      else if c.chainDailyLimit.None? then e == InvalidChain
      else if c.chainDailyLimit.value < U128_MAX then e == RateLimitExceeded
      else e == Trap
  {
    CountersAreAccepted(run, c.account, c.chain, Day(c));
  }

  // ----- the two volume ledgers agree ------------------------------------------------------

  ghost function ByChain(run: seq<Check>, day: u64): (ChainId, nat) -> int {
    (chain: ChainId, v: nat) => AcceptedByChain(run, chain, day)
  }

  ghost function ByAccount(run: seq<Check>, day: u64): (AccountId, nat) -> int {
    (account: AccountId, v: nat) => AcceptedByAccount(run, account, day)
  }

  /** What the ledgers themselves report for a day, entry by entry. */
  ghost function ChainReport(s: Ledger, day: u64): (ChainId, nat) -> int {
    (chain: ChainId, v: nat) => AsOf(s.chainVolume, s.chainResetDay, chain, day)
  }

  ghost function AccountReport(s: Ledger, day: u64): (AccountId, nat) -> int {
    (account: AccountId, v: nat) => AsOf(s.accountVolume, s.accountVolumeDay, account, day)
  }

  /** Nothing is accepted for a key without an entry. */
  lemma NoEntryNothingAccepted(run: seq<Check>, account: AccountId, chain: ChainId, day: u64)
    requires Timed(run, day)
    ensures chain !in After(run).chainVolume ==> AcceptedByChain(run, chain, day) == 0
    ensures account !in After(run).accountVolume ==> AcceptedByAccount(run, account, day) == 0
  {
    CountersAreAccepted(run, account, chain, day);
  }

  lemma ShareByChain(run: seq<Check>, day: u64)
    requires run != [] && Timed(Earlier(run), day)
    ensures SumOf(After(run).chainVolume, ByChain(run, day))
      - SumOf(After(Earlier(run)).chainVolume, ByChain(Earlier(run), day))
         == AcceptedInTotal(run, day) - AcceptedInTotal(Earlier(run), day)
  {
    var e, c := Earlier(run), Last(run);
    var m, m' := After(e).chainVolume, After(run).chainVolume;
    if Accepts(run) && c.amount > 0 {
      NoEntryNothingAccepted(e, c.account, c.chain, day);
      InsertReweighed(m, ByChain(e, day), ByChain(run, day), c.chain, m'[c.chain]);
    } else {
      Congruent(m, ByChain(e, day), ByChain(run, day));
    }
  }

  lemma ShareByAccount(run: seq<Check>, day: u64)
    requires run != [] && Timed(Earlier(run), day)
    ensures SumOf(After(run).accountVolume, ByAccount(run, day))
      - SumOf(After(Earlier(run)).accountVolume, ByAccount(Earlier(run), day))
         == AcceptedInTotal(run, day) - AcceptedInTotal(Earlier(run), day)
  {
    var e, c := Earlier(run), Last(run);
    var m, m' := After(e).accountVolume, After(run).accountVolume;
    if Accepts(run) && c.amount > 0 {
      NoEntryNothingAccepted(e, c.account, c.chain, day);
      InsertReweighed(m, ByAccount(e, day), ByAccount(run, day), c.account, m'[c.account]);
    } else {
      Congruent(m, ByAccount(e, day), ByAccount(run, day));
    }
  }

  lemma {:induction false} ShareOut(run: seq<Check>, day: u64)
    requires Timed(run, day)
    ensures SumOf(After(run).chainVolume, ByChain(run, day)) == AcceptedInTotal(run, day)
    ensures SumOf(After(run).accountVolume, ByAccount(run, day)) == AcceptedInTotal(run, day)
  {
    if run == [] {
    } else {
      TimedEarlier(run, day);
      ShareOut(Earlier(run), day);
      ShareByChain(run, day);
      ShareByAccount(run, day);
    }
  }

  /** On the current day and every later one the chains report together all that was accepted. The
      accounts report the same total exactly when none of them outgrew its counter. */
  lemma LedgersAgree(run: seq<Check>, day: u64)
    requires Timed(run, day)
    ensures var s := After(run);
      && SumOf(s.chainVolume, ChainReport(s, day)) == AcceptedInTotal(run, day)
      && SumOf(s.accountVolume, AccountReport(s, day)) <= AcceptedInTotal(run, day)
      && ((SumOf(s.accountVolume, AccountReport(s, day)) == SumOf(s.chainVolume, ChainReport(s, day)))
          <==> (forall a :: a in s.accountVolume ==> AcceptedByAccount(run, a, day) <= U128_MAX))
  {
    var s := After(run);
    ShareOut(run, day);
    forall chain | chain in s.chainVolume
      ensures ChainReport(s, day)(chain, s.chainVolume[chain]) == ByChain(run, day)(chain, s.chainVolume[chain])
    {
      CountersAreAccepted(run, 0, chain, day);
    }
    Congruent(s.chainVolume, ChainReport(s, day), ByChain(run, day));
    forall a | a in s.accountVolume
      ensures AccountReport(s, day)(a, s.accountVolume[a])
           == Min(U128_MAX, ByAccount(run, day)(a, s.accountVolume[a]))
    {
      CountersAreAccepted(run, a, 0, day);
    }
    Monotone(s.accountVolume, AccountReport(s, day), ByAccount(run, day));
    if a :| a in s.accountVolume && AcceptedByAccount(run, a, day) > U128_MAX {
      StrictlyLess(s.accountVolume, AccountReport(s, day), ByAccount(run, day), a);
    } else {
      Congruent(s.accountVolume, AccountReport(s, day), ByAccount(run, day));
    }
  }

  // ----- where they do not -----------------------------------------------------------------

  /** A transfer of the account to a chain that allows exactly that much in a day. */
  function Transfer(account: AccountId, chain: ChainId, amount: u128): Check {
    Check(account, chain, amount, false, 0, true, 0, Some(amount))
  }

  lemma FirstTransfer(account: AccountId, chain: ChainId, amount: u128)
    requires amount > 0
    ensures var run := [Transfer(account, chain, amount)];
      && AcceptedByAccount(run, account, 0) == amount
      && After(run).chainVolume == map[chain := amount] && After(run).chainResetDay == map[]
  {
    var run := [Transfer(account, chain, amount)];
    assert Earlier(run) == [] && After([]) == EMPTY;
    assert CheckAndUpdate(EMPTY, Last(run)).Committed?;
  }

  /** One account sends two chains together more than its counter holds: the chains then report more
      than the accounts. */
  lemma AccountOutgrows(account: AccountId, chain: ChainId, other: ChainId)
    requires chain != other
    ensures var run := [Transfer(account, chain, U128_MAX)] + [Transfer(account, other, 1)];
      var s := After(run);
      && Timed(run, 0) && AcceptedByAccount(run, account, 0) == U128_MAX + 1
      && SumOf(s.accountVolume, AccountReport(s, 0)) != SumOf(s.chainVolume, ChainReport(s, 0))
  {
    var first := [Transfer(account, chain, U128_MAX)];
    var run := first + [Transfer(account, other, 1)];
    FirstTransfer(account, chain, U128_MAX);
    assert Earlier(run) == first && Last(run) == Transfer(account, other, 1);
    assert CheckAndUpdate(After(first), Last(run)).Committed?;
    assert account in After(run).accountVolume;
    LedgersAgree(run, 0);
  }
}
