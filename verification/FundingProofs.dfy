/** What the crowdfunding ledger guarantees over whole runs: sums, share supply, refunds, payouts. */
module FundingProofs {
  import opened Machine
  import opened MapSum
  import opened Crowdfunding

  ghost predicate Succeeds(admin: AccountId, run: seq<Call>)
    requires run != []
  {
    Apply(After(admin, Earlier(run)), Last(run)).Committed?
  }

  // ----- sums of investments ---------------------------------------------------------------

  ghost function InCampaign(id: u64): (Holding, nat) -> int {
    (k: Holding, v: nat) => if k.0 == id then v else 0
  }

  ghost function InvestedIn(s: State, id: u64): int {
    SumOf(s.investments, InCampaign(id))
  }

  ghost function Supply(s: State, id: u64): int {
    SumOf(s.shareHoldings, InCampaign(id))
  }

  /** One campaign's books: its sums, and the list of the accounts that invested in it. */
  ghost predicate BooksOf(s: State, id: u64) {
    && (if id in s.campaigns
        then s.campaigns[id].raisedAmount == InvestedIn(s, id) && s.campaigns[id].investorCount == |Investors(s, id)|
        else InvestedIn(s, id) == 0 && Investors(s, id) == [])
    && Listed(s, id)
  }

  ghost predicate Listed(s: State, id: u64) {
    forall a: AccountId :: a in Investors(s, id) <==> (id, a) in s.investments
  }

  ghost predicate Books(s: State) {
    && (forall id :: id in s.campaigns ==> id <= s.campaignCount)
    && (forall id :: BooksOf(s, id))
  }

  lemma InvestMoves(s: State, env: Env, id: u64, amount: u128, other: u64)
    requires Invest(s, env, id, amount).Committed?
    ensures var s' := Invest(s, env, id, amount).state;
      && InvestedIn(s', other) == InvestedIn(s, other) + (if other == id then amount else 0)
      && Supply(s', other) == Supply(s, other) + (if other == id then amount / 1000 else 0)
  {
    var s', key := Invest(s, env, id, amount).state, (id, env.caller);
    Insert(s.investments, InCampaign(other), key, s'.investments[key]);
    Insert(s.shareHoldings, InCampaign(other), key, s'.shareHoldings[key]);
  }

  lemma InvestLists(s: State, env: Env, id: u64, amount: u128, other: u64)
    requires Invest(s, env, id, amount).Committed? && Listed(s, other)
    ensures Listed(Invest(s, env, id, amount).state, other)
    ensures Investors(Invest(s, env, id, amount).state, other) ==
      Investors(s, other) + if other == id && GetOr(s.investments, (id, env.caller), 0) == 0 then [env.caller] else []
  {
  }

  lemma InvestKeepsBooks(s: State, env: Env, id: u64, amount: u128)
    requires Books(s) && Invest(s, env, id, amount).Committed?
    ensures Books(Invest(s, env, id, amount).state)
  {
    var s' := Invest(s, env, id, amount).state;
    forall other ensures BooksOf(s', other) {
      assert BooksOf(s, other);
      InvestMoves(s, env, id, amount, other);
      InvestLists(s, env, id, amount, other);
    }
  }

  /** What the books are about, unchanged; new campaigns have raised nothing. */
  predicate SameBooks(s: State, s': State) {
    && s'.investments == s.investments && s'.campaignInvestors == s.campaignInvestors
    && (forall id :: id in s.campaigns ==>
          && id in s'.campaigns && s'.campaigns[id].raisedAmount == s.campaigns[id].raisedAmount
          && s'.campaigns[id].investorCount == s.campaigns[id].investorCount)
    && (forall id :: id in s'.campaigns && id !in s.campaigns ==>
          s'.campaigns[id].raisedAmount == 0 && s'.campaigns[id].investorCount == 0)
    && (forall id :: id in s'.campaigns ==> id <= s'.campaignCount)
  }

  lemma SameBooksBalance(s: State, s': State)
    requires Books(s) && SameBooks(s, s')
    ensures Books(s')
  {
    forall id ensures BooksOf(s', id) {
      assert BooksOf(s, id);
    }
  }

  lemma CreateKeepsBooks(s: State, env: Env, target: u128)
    requires Books(s) && CreateCampaign(s, env, target).Committed?
    ensures SameBooks(s, CreateCampaign(s, env, target).state)
  {
  }

  /** Nothing the books are about changes when a campaign only changes its status. */
  lemma StatusKeepsBooks(s: State, id: u64, status: CampaignStatus)
    requires Books(s) && id in s.campaigns
    ensures SameBooks(s, s.(campaigns := s.campaigns[id := s.campaigns[id].(status := status)]))
  {
  }

  lemma MarketKeepsBooks(s: State, s': State)
    requires Books(s) && s'.campaigns == s.campaigns && s'.campaignCount == s.campaignCount
    requires s'.investments == s.investments && s'.campaignInvestors == s.campaignInvestors
    ensures SameBooks(s, s')
  {
  }

  /** Calls other than investments leave the books alone. */
  lemma OtherCallKeepsBooks(s: State, c: Call)
    requires Books(s) && Apply(s, c).Committed? && !c.msg.MsgInvest?
    ensures SameBooks(s, Apply(s, c).state)
  {
    match c.msg
    case MsgCreate(target) => CreateKeepsBooks(s, c.env, target);
    case MsgActivate(id) => StatusKeepsBooks(s, id, Active);
    case MsgFail(id) => StatusKeepsBooks(s, id, Cancelled);
    case MsgRefund(id) => MarketKeepsBooks(s, ClaimRefund(s, c.env, id).state);
    case MsgList(id, shares, price) => MarketKeepsBooks(s, ListShares(s, c.env, id, shares, price).state);
    case MsgBuy(n) => MarketKeepsBooks(s, BuyShares(s, c.env, n).state);
  }

  lemma NextKeepsBooks(s: State, c: Call)
    requires Books(s)
    ensures Books(Next(s, c))
  {
    if Apply(s, c).Committed? {
      if c.msg.MsgInvest? {
        InvestKeepsBooks(s, c.env, c.msg.id, c.msg.amount);
      } else {
        OtherCallKeepsBooks(s, c);
        SameBooksBalance(s, Apply(s, c).state);
      }
    }
  }

  /** After any run a campaign has raised the sum of its investments, and counts as many investors
      as its list is long; the list names exactly the accounts that invested. */
  lemma {:induction false} BooksAlwaysBalance(admin: AccountId, run: seq<Call>)
    ensures Books(After(admin, run))
  {
    if run == [] {
    } else {
      BooksAlwaysBalance(admin, Earlier(run));
      NextKeepsBooks(After(admin, Earlier(run)), Last(run));
    }
  }

  // ----- the investor list -----------------------------------------------------------------

  ghost predicate PositiveInvestments(run: seq<Call>) {
    forall i :: 0 <= i < |run| && run[i].msg.MsgInvest? ==> run[i].msg.amount > 0
  }

  ghost predicate AllPositive(s: State) {
    forall k :: k in s.investments ==> s.investments[k] > 0
  }

  lemma PositiveStep(s: State, c: Call, id: u64)
    requires Distinct(Investors(s, id)) && AllPositive(s) && Books(s) && Apply(s, c).Committed?
    requires c.msg.MsgInvest? ==> c.msg.amount > 0
    ensures Distinct(Investors(Apply(s, c).state, id)) && AllPositive(Apply(s, c).state)
  {
    if c.msg.MsgInvest? {
      assert BooksOf(s, id);
      InvestLists(s, c.env, c.msg.id, c.msg.amount, id);
    } else {
      OtherCallKeepsBooks(s, c);
    }
  }

  /** When every investment is positive no investor is listed twice. */
  lemma {:induction false} InvestorsAreDistinct(admin: AccountId, run: seq<Call>, id: u64)
    requires PositiveInvestments(run)
    ensures Distinct(Investors(After(admin, run), id)) && AllPositive(After(admin, run))
  {
    if run == [] {
    } else {
      InvestorsAreDistinct(admin, Earlier(run), id);
      BooksAlwaysBalance(admin, Earlier(run));
      assert BooksOf(After(admin, Earlier(run)), id);
      if Succeeds(admin, run) {
        PositiveStep(After(admin, Earlier(run)), Last(run), id);
      }
    }
  }

  lemma AppendDistinct(list: seq<AccountId>, a: AccountId)
    ensures Distinct(list + [a]) <==> Distinct(list) && a !in list
  {
    var longer := list + [a];
    assert forall i :: 0 <= i < |list| ==> longer[i] == list[i];
    if a in list {
      var i :| 0 <= i < |list| && list[i] == a;
      assert longer[i] == longer[|list|];
    } else if Distinct(longer) {
      forall i, j | 0 <= i < j < |list| ensures list[i] != list[j] {
        assert longer[i] != longer[j];
      }
    }
  }

  /** The call invests in the campaign for an account whose entry there holds nothing yet. */
  predicate RepeatsBy(s: State, c: Call, id: u64) {
    && Apply(s, c).Committed? && c.msg.MsgInvest? && c.msg.id == id
    && (id, c.env.caller) in s.investments && s.investments[(id, c.env.caller)] == 0
  }

  lemma DistinctStep(s: State, c: Call, id: u64)
    requires Books(s)
    ensures Distinct(Investors(Next(s, c), id)) <==> Distinct(Investors(s, id)) && !RepeatsBy(s, c, id)
  {
    assert BooksOf(s, id);
    if Apply(s, c).Committed? {
      if c.msg.MsgInvest? {
        InvestLists(s, c.env, c.msg.id, c.msg.amount, id);
        AppendDistinct(Investors(s, id), c.env.caller);
      } else {
        OtherCallKeepsBooks(s, c);
      }
    }
  }

  ghost predicate Repeats(admin: AccountId, run: seq<Call>, n: nat, id: u64)
    requires n < |run|
  {
    RepeatsBy(After(admin, run[..n]), run[n], id)
  }

  /** After any run no investor is listed twice exactly when nobody invested again while its entry
      held nothing. */
  lemma {:induction false} InvestorsDistinctExactly(admin: AccountId, run: seq<Call>, id: u64)
    ensures Distinct(Investors(After(admin, run), id)) <==>
      forall n :: 0 <= n < |run| ==> !Repeats(admin, run, n, id)
  {
    if run == [] {
    } else {
      var e := Earlier(run);
      InvestorsDistinctExactly(admin, e, id);
      BooksAlwaysBalance(admin, e);
      DistinctStep(After(admin, e), Last(run), id);
      forall n | 0 <= n < |e| ensures Repeats(admin, e, n, id) == Repeats(admin, run, n, id) {
        assert e[..n] == run[..n];
      }
      assert Repeats(admin, run, |e|, id) == RepeatsBy(After(admin, e), Last(run), id);
    }
  }

  // ----- share supply ----------------------------------------------------------------------

  /** A trade leaves the supply alone exactly when the seller still holds what it listed; otherwise
      it creates the shortfall. */
  lemma TradeSupply(s: State, env: Env, n: u64)
    requires BuyShares(s, env, n).Committed?
    ensures var l := s.listings[n];
      var held := GetOr(s.shareHoldings, (l.campaignId, l.seller), 0);
      && (forall id: u64 :: Supply(BuyShares(s, env, n).state, id)
            == Supply(s, id) + (if id == l.campaignId then SaturatingSub(l.shares, held) else 0))
      && ((forall id: u64 :: Supply(BuyShares(s, env, n).state, id) == Supply(s, id)) <==> l.shares <= held)
  {
    var l, s' := s.listings[n], BuyShares(s, env, n).state;
    var seller, buyer := (l.campaignId, l.seller), (l.campaignId, env.caller);
    var held := GetOr(s.shareHoldings, seller, 0);
    var left: u64 := SaturatingSub(held, l.shares);
    var taken: map<Holding, u64> := s.shareHoldings[seller := left];
    var gained: u64 := s'.shareHoldings[buyer];
    assert s'.shareHoldings == taken[buyer := gained] && gained == GetOr(taken, buyer, 0) + l.shares;
    forall id: u64
      ensures Supply(s', id) == Supply(s, id) + (if id == l.campaignId then SaturatingSub(l.shares, held) else 0)
    {
      Insert(s.shareHoldings, InCampaign(id), seller, left);
      Insert(taken, InCampaign(id), buyer, gained);
    }
    if l.shares > held {
      assert Supply(s', l.campaignId) != Supply(s, l.campaignId);
    }
  }

  /** Shares issued for investments: one per thousand, rounded down on each of them. */
  ghost function Issued(admin: AccountId, run: seq<Call>, id: u64): nat {
    if run == [] then 0
    else Issued(admin, Earlier(run), id)
         + match Last(run).msg
           case MsgInvest(i, amount) => if i == id && Succeeds(admin, run) then amount / 1000 else 0
           case _ => 0
  }

  /** Shares sold that their seller no longer held. */
  ghost function Oversold(admin: AccountId, run: seq<Call>, id: u64): nat {
    if run == [] then 0
    else
      var s := After(admin, Earlier(run));
      Oversold(admin, Earlier(run), id)
      + match Last(run).msg
        case MsgBuy(n) =>
          if Succeeds(admin, run) && s.listings[n].campaignId == id
          then SaturatingSub(s.listings[n].shares, GetOr(s.shareHoldings, (id, s.listings[n].seller), 0))
          else 0
        case _ => 0
  }

  lemma OtherCallsKeepSums(s: State, c: Call, id: u64)
    requires Apply(s, c).Committed? && !c.msg.MsgInvest? && !c.msg.MsgBuy?
    ensures Supply(Apply(s, c).state, id) == Supply(s, id)
    ensures InvestedIn(Apply(s, c).state, id) == InvestedIn(s, id)
  {
  }

  /** After any run the supply is what was issued plus what was oversold, and what was issued is
      backed a thousandfold by the amount raised. */
  lemma {:induction false} SupplyIsAccounted(admin: AccountId, run: seq<Call>, id: u64)
    ensures var s := After(admin, run);
      && Supply(s, id) == Issued(admin, run, id) + Oversold(admin, run, id)
      && 1000 * Issued(admin, run, id) <= InvestedIn(s, id)
  {
    if run == [] {
    } else {
      var s, c := After(admin, Earlier(run)), Last(run);
      SupplyIsAccounted(admin, Earlier(run), id);
      if Apply(s, c).Committed? {
        match c.msg
        case MsgInvest(i, amount) => InvestMoves(s, c.env, i, amount, id);
        case MsgBuy(n) => TradeSupply(s, c.env, n);
        case _ => OtherCallsKeepSums(s, c, id);
      }
    }
  }

  /** So on runs in which every seller still holds what it sells, each share is backed. */
  lemma SharesAreBacked(admin: AccountId, run: seq<Call>, id: u64)
    requires id in After(admin, run).campaigns && Oversold(admin, run, id) == 0
    ensures 1000 * Supply(After(admin, run), id) <= After(admin, run).campaigns[id].raisedAmount
  {
    SupplyIsAccounted(admin, run, id);
    BooksAlwaysBalance(admin, run);
    assert BooksOf(After(admin, run), id);
  }

  // ----- refunds ---------------------------------------------------------------------------

  ghost predicate Refunds(admin: AccountId, run: seq<Call>, id: u64)
    requires run != []
  {
    Last(run).msg == MsgRefund(id) && Succeeds(admin, run)
  }

  ghost function RefundsTo(admin: AccountId, run: seq<Call>, id: u64, a: AccountId): nat {
    if run == [] then 0
    else RefundsTo(admin, Earlier(run), id, a)
         + if Refunds(admin, run, id) && Last(run).env.caller == a then 1 else 0
  }

  ghost function TotalRefunded(admin: AccountId, run: seq<Call>, id: u64): nat {
    if run == [] then 0
    else TotalRefunded(admin, Earlier(run), id)
         + if Refunds(admin, run, id) then ClaimRefund(After(admin, Earlier(run)), Last(run).env, id).value else 0
  }

  lemma MarkStep(s: State, c: Call, id: u64, a: AccountId)
    requires Apply(s, c).Committed?
    ensures var was, now :=
      GetOr(s.refundsIssued, (id, a), false), GetOr(Apply(s, c).state.refundsIssued, (id, a), false);
      if c.msg == MsgRefund(id) && c.env.caller == a then !was && now else now == was
  {
  }

  /** Each investor is refunded at most once per campaign, whatever happens in between. */
  lemma {:induction false} RefundedAtMostOnce(admin: AccountId, run: seq<Call>, id: u64, a: AccountId)
    ensures RefundsTo(admin, run, id, a) == if GetOr(After(admin, run).refundsIssued, (id, a), false) then 1 else 0
  {
    if run == [] {
    } else {
      RefundedAtMostOnce(admin, Earlier(run), id, a);
      if Succeeds(admin, run) {
        MarkStep(After(admin, Earlier(run)), Last(run), id, a);
      }
    }
  }

  /** The investments of a campaign that carry the refund mark. */
  ghost function Marked(marks: map<Holding, bool>, id: u64): (Holding, nat) -> int {
    (k: Holding, v: nat) => if k.0 == id && GetOr(marks, k, false) then v else 0
  }

  lemma RefundMarks(s: State, env: Env, id: u64, other: u64)
    requires ClaimRefund(s, env, id).Committed?
    ensures var o := ClaimRefund(s, env, id);
      SumOf(o.state.investments, Marked(o.state.refundsIssued, other))
        == SumOf(s.investments, Marked(s.refundsIssued, other)) + (if other == id then o.value else 0)
  {
    var o, key := ClaimRefund(s, env, id), (id, env.caller);
    InsertReweighed(s.investments, Marked(s.refundsIssued, other), Marked(o.state.refundsIssued, other), key,
      s.investments[key]);
    assert s.investments[key := s.investments[key]] == s.investments;
  }

  /** What the call invests for an account that was refunded before. */
  ghost function Late(s: State, c: Call, id: u64): nat {
    match c.msg
    case MsgInvest(i, amount) => if i == id && GetOr(s.refundsIssued, (id, c.env.caller), false) then amount else 0
    case _ => 0
  }

  /** What the campaign's investors put in after they were refunded. */
  ghost function LateInvested(admin: AccountId, run: seq<Call>, id: u64): nat {
    if run == [] then 0
    else LateInvested(admin, Earlier(run), id)
         + if Succeeds(admin, run) then Late(After(admin, Earlier(run)), Last(run), id) else 0
  }

  lemma InvestMarks(s: State, env: Env, id: u64, amount: u128, other: u64)
    requires Invest(s, env, id, amount).Committed?
    ensures SumOf(Invest(s, env, id, amount).state.investments, Marked(s.refundsIssued, other))
         == SumOf(s.investments, Marked(s.refundsIssued, other))
            + if other == id && GetOr(s.refundsIssued, (id, env.caller), false) then amount else 0
  {
    var key := (id, env.caller);
    Insert(s.investments, Marked(s.refundsIssued, other), key, Invest(s, env, id, amount).state.investments[key]);
  }

  lemma OtherCallsKeepMarks(s: State, c: Call)
    requires Apply(s, c).Committed? && !c.msg.MsgInvest? && !c.msg.MsgRefund?
    ensures Apply(s, c).state.investments == s.investments
    ensures Apply(s, c).state.refundsIssued == s.refundsIssued
  {
    match c.msg
    case MsgBuy(n) =>
    case MsgList(id, shares, price) =>
    case _ =>
  }

  lemma MarkedStep(s: State, c: Call, id: u64)
    requires Apply(s, c).Committed?
    ensures var s' := Apply(s, c).state;
      SumOf(s'.investments, Marked(s'.refundsIssued, id))
        == SumOf(s.investments, Marked(s.refundsIssued, id)) + Late(s, c, id)
           + if c.msg == MsgRefund(id) then ClaimRefund(s, c.env, id).value else 0
  {
    match c.msg
    case MsgInvest(i, amount) => InvestMarks(s, c.env, i, amount, id);
    case MsgRefund(i) => RefundMarks(s, c.env, i, id);
    case _ => OtherCallsKeepMarks(s, c);
  }

  /** What refunded investors ever put in is what was refunded, and what they put in later. */
  lemma {:induction false} RefundsAreMarked(admin: AccountId, run: seq<Call>, id: u64)
    ensures var s := After(admin, run);
      SumOf(s.investments, Marked(s.refundsIssued, id)) == TotalRefunded(admin, run, id) + LateInvested(admin, run, id)
  {
    if run == [] {
    } else {
      var s, c := After(admin, Earlier(run)), Last(run);
      RefundsAreMarked(admin, Earlier(run), id);
      if Apply(s, c).Committed? {
        MarkedStep(s, c, id);
      }
    }
  }

  /** The investments of a campaign that a refund can still return. */
  ghost function Unmarked(marks: map<Holding, bool>, id: u64): (Holding, nat) -> int {
    (k: Holding, v: nat) => if k.0 == id && !GetOr(marks, k, false) then v else 0
  }

  ghost function Refundable(s: State, id: u64): int {
    SumOf(s.investments, Unmarked(s.refundsIssued, id))
  }

  /** What a campaign raised was refunded, or can be refunded, or was put in by investors refunded
      before, to whom it is never returned. So refunds return all of it exactly if nobody invests
      again after a refund. */
  lemma RaisedIsAccounted(admin: AccountId, run: seq<Call>, id: u64)
    requires id in After(admin, run).campaigns
    ensures var s := After(admin, run);
      && s.campaigns[id].raisedAmount
           == TotalRefunded(admin, run, id) + Refundable(s, id) + LateInvested(admin, run, id)
      && (TotalRefunded(admin, run, id) + Refundable(s, id) == s.campaigns[id].raisedAmount <==>
            LateInvested(admin, run, id) == 0)
      && Refundable(s, id) >= 0
  {
    var s := After(admin, run);
    RefundsAreMarked(admin, run, id);
    NonNegative(s.investments, Unmarked(s.refundsIssued, id));
    Linear(s.investments, InCampaign(id), Unmarked(s.refundsIssued, id), Marked(s.refundsIssued, id), 1);
    BooksAlwaysBalance(admin, run);
    assert BooksOf(s, id);
  }

  /** All refunds ever returned for a campaign stay within what it raised. */
  lemma RefundsWithinRaised(admin: AccountId, run: seq<Call>, id: u64)
    requires id in After(admin, run).campaigns
    ensures TotalRefunded(admin, run, id) <= After(admin, run).campaigns[id].raisedAmount
  {
    RaisedIsAccounted(admin, run, id);
  }

  // ----- backing once there are refunds ----------------------------------------------------

  /** What investments brought in beyond whole thousands, for which no share was issued. */
  ghost function Remainders(admin: AccountId, run: seq<Call>, id: u64): nat {
    if run == [] then 0
    else Remainders(admin, Earlier(run), id)
         + match Last(run).msg
           case MsgInvest(i, amount) => if i == id && Succeeds(admin, run) then amount % 1000 else 0
           case _ => 0
  }

  lemma {:induction false} InvestedInThousands(admin: AccountId, run: seq<Call>, id: u64)
    ensures InvestedIn(After(admin, run), id) == 1000 * Issued(admin, run, id) + Remainders(admin, run, id)
  {
    if run == [] {
    } else {
      var s, c := After(admin, Earlier(run)), Last(run);
      InvestedInThousands(admin, Earlier(run), id);
      if Apply(s, c).Committed? {
        match c.msg
        case MsgInvest(i, amount) => InvestMoves(s, c.env, i, amount, id);
        case MsgBuy(n) =>
        case _ => OtherCallsKeepSums(s, c, id);
      }
    }
  }

  /** A refund takes money out and leaves the shares. So every share is backed by what is left exactly
      when the refunds, and the shares oversold, fit into the remainders. */
  lemma BackedAfterRefundsExactly(admin: AccountId, run: seq<Call>, id: u64)
    requires id in After(admin, run).campaigns
    ensures var s := After(admin, run);
      1000 * Supply(s, id) <= s.campaigns[id].raisedAmount - TotalRefunded(admin, run, id) <==>
        TotalRefunded(admin, run, id) + 1000 * Oversold(admin, run, id) <= Remainders(admin, run, id)
  {
    SupplyIsAccounted(admin, run, id);
    InvestedInThousands(admin, run, id);
    BooksAlwaysBalance(admin, run);
    assert BooksOf(After(admin, run), id);
  }

  // ----- payouts ---------------------------------------------------------------------------

  ghost function Share(profit: nat, id: u64, target: nat): (Holding, nat) -> int
    requires target > 0
  {
    (k: Holding, v: nat) => if k.0 == id then Payout(profit, v, target) else 0
  }

  /** The shares summed here are what `distribute_profit` answers whenever it does not overflow. */
  lemma AnswersAreShares(s: State, id: u64, profit: u128, investor: AccountId)
    requires id in s.campaigns && s.campaigns[id].targetAmount > 0 && DistributeProfit(s, id, profit, investor).Ok?
    ensures DistributeProfit(s, id, profit, investor).value
         == Share(profit, id, s.campaigns[id].targetAmount)((id, investor), GetOr(s.investments, (id, investor), 0))
  {
  }

  ghost function HasInvested(id: u64): (Holding, nat) -> int {
    (k: Holding, v: nat) => if k.0 == id && v > 0 then 1 else 0
  }

  /** What `distribute_profit` answers, summed over all investors of a campaign. */
  ghost function TotalPayout(s: State, id: u64, profit: nat): int
    requires id in s.campaigns && s.campaigns[id].targetAmount > 0
  {
    SumOf(s.investments, Share(profit, id, s.campaigns[id].targetAmount))
  }

  ghost function InvestorCount(s: State, id: u64): int {
    SumOf(s.investments, HasInvested(id))
  }

  /** Flooring each share loses less than one unit per investor. */
  lemma PayoutsSum(s: State, id: u64, profit: nat)
    requires id in s.campaigns && s.campaigns[id].targetAmount > 0
    ensures var target := s.campaigns[id].targetAmount;
      && target * TotalPayout(s, id, profit) <= profit * InvestedIn(s, id)
      && profit * InvestedIn(s, id) <= target * TotalPayout(s, id, profit) + (target - 1) * InvestorCount(s, id)
  {
    var target := s.campaigns[id].targetAmount;
    var paid, owed, lost := Share(profit, id, target), InCampaign(id), HasInvested(id);
    Scale(s.investments, target, paid);
    Scale(s.investments, profit, owed);
    Scale(s.investments, target - 1, lost);
    forall k | k in s.investments
      ensures Times(target, paid)(k, s.investments[k]) <= Times(profit, owed)(k, s.investments[k])
      ensures Times(profit, owed)(k, s.investments[k])
           <= Times(target, paid)(k, s.investments[k]) + Times(target - 1, lost)(k, s.investments[k])
    {
      PayoutBounds(profit, s.investments[k], target);
    }
    Monotone(s.investments, Times(target, paid), Times(profit, owed));
    AtMostBoth(s.investments, Times(profit, owed), Times(target, paid), Times(target - 1, lost));
  }

  /** The payouts of a profit to all investors come to its part for the amount raised, and fall
      short of it by less than the number of investors. */
  lemma PayoutsTrackRaised(s: State, id: u64, profit: nat)
    requires Books(s) && id in s.campaigns && s.campaigns[id].targetAmount > 0
    ensures var c := s.campaigns[id];
      var due := Payout(profit, c.raisedAmount, c.targetAmount);
      && TotalPayout(s, id, profit) <= due
      && due - TotalPayout(s, id, profit) <= InvestorCount(s, id)
      && (InvestorCount(s, id) > 0 ==> due - TotalPayout(s, id, profit) < InvestorCount(s, id))
  {
    var c := s.campaigns[id];
    assert BooksOf(s, id);
    PayoutsSum(s, id, profit);
    PayoutBounds(profit, c.raisedAmount, c.targetAmount);
    NonNegative(s.investments, HasInvested(id));
    Squeeze(c.targetAmount, TotalPayout(s, id, profit), Payout(profit, c.raisedAmount, c.targetAmount),
            InvestorCount(s, id), Product(profit, c.raisedAmount));
  }

  lemma Squeeze(target: nat, total: int, due: int, count: nat, x: int)
    requires target > 0
    requires target * total <= x <= target * total + (target - 1) * count
    requires target * due <= x < target * due + target
    ensures total <= due && due - total <= count && (count > 0 ==> due - total < count)
  {
    Ordered(target, total, due + 1);
    if count == 0 {
      Ordered(target, due, total + 1);
    } else {
      assert x <= target * total + target * count - count == target * (total + count) - count;
      Ordered(target, due, total + count);
    }
  }

  /** A product below another has the smaller cofactor. */
  lemma Ordered(k: nat, a: int, b: int)
    requires k > 0
    ensures k * a < k * b ==> a < b
  {
    if a >= b {
      Steps(k, a, b);
    }
  }

  lemma Steps(target: nat, a: int, b: int)
    requires a >= b
    ensures target * a >= target * b
  {
  }

  /** Payouts never exceed the profit, whatever it is, exactly when the campaign raised no more than
      its target. */
  lemma PayoutsWithinProfitExactly(s: State, id: u64)
    requires Books(s) && id in s.campaigns && s.campaigns[id].targetAmount > 0
    ensures (forall profit: nat :: TotalPayout(s, id, profit) <= profit)
       <==> s.campaigns[id].raisedAmount <= s.campaigns[id].targetAmount
  {
    var raised, target := s.campaigns[id].raisedAmount, s.campaigns[id].targetAmount;
    if raised <= target {
      forall profit: nat ensures TotalPayout(s, id, profit) <= profit {
        PayoutsTrackRaised(s, id, profit);
        PayoutBounds(profit, raised, target);
        WithinProfit(profit, raised, target, Payout(profit, raised, target));
      }
    } else {
      WholeTarget(s, id);
      assert TotalPayout(s, id, target) > target;
    }
  }

  lemma WithinProfit(profit: nat, raised: nat, target: nat, due: nat)
    requires raised <= target && target > 0 && target * due <= Product(profit, raised)
    ensures due <= profit
  {
    Steps(profit, target, raised);
    Ordered(target, due, profit + 1);
  }

  /** A profit equal to the target pays every investor its investment back. */
  lemma WholeTarget(s: State, id: u64)
    requires Books(s) && id in s.campaigns && s.campaigns[id].targetAmount > 0
    ensures TotalPayout(s, id, s.campaigns[id].targetAmount) == s.campaigns[id].raisedAmount
  {
    var target := s.campaigns[id].targetAmount;
    assert BooksOf(s, id);
    forall k | k in s.investments
      ensures Share(target, id, target)(k, s.investments[k]) == InCampaign(id)(k, s.investments[k])
    {
      ExactQuotient(target, s.investments[k]);
    }
    Congruent(s.investments, Share(target, id, target), InCampaign(id));
  }

  lemma ExactQuotient(target: nat, v: nat)
    requires target > 0
    ensures Payout(target, v, target) == v
  {
    PayoutBounds(target, v, target);
    var p := Payout(target, v, target);
    Ordered(target, p, v + 1);
    Ordered(target, v, p + 1);
  }
}
