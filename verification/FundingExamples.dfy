/** Runs of a new crowdfunding ledger that show where its properties end. */
module FundingExamples {
  import opened Machine
  import opened MapSum
  import opened Crowdfunding
  import opened FundingProofs

  const ALICE: AccountId := 1
  const BOB: AccountId := 2

  function By(caller: AccountId, transferred: u128, msg: Message): Call {
    Call(Env(caller, transferred, None), msg)
  }

  lemma OneMoreCall(admin: AccountId, run: seq<Call>, c: Call)
    ensures Earlier(run + [c]) == run && Last(run + [c]) == c
    ensures After(admin, run + [c]) == Next(After(admin, run), c)
  {
    assert (run + [c])[..|run|] == run;
  }

  /** Calls that neither invest nor buy nor refund move none of the sums. */
  lemma SumsStay(admin: AccountId, run: seq<Call>, c: Call)
    requires !c.msg.MsgInvest? && !c.msg.MsgBuy? && !c.msg.MsgRefund?
    ensures Issued(admin, run + [c], 1) == Issued(admin, run, 1)
    ensures Oversold(admin, run + [c], 1) == Oversold(admin, run, 1)
    ensures TotalRefunded(admin, run + [c], 1) == TotalRefunded(admin, run, 1)
  {
    OneMoreCall(admin, run, c);
  }

  function Create(): Call {
    By(ALICE, 0, MsgCreate(5000))
  }

  function Activated(): Call {
    By(ALICE, 0, MsgActivate(1))
  }

  /** Alice opens a campaign with target 5000 and activates it. */
  function Opening(): seq<Call> {
    [] + [Create()] + [Activated()]
  }

  function Running(raised: u128, investors: u32): Campaign {
    Campaign(ALICE, 5000, raised, Active, investors)
  }

  lemma Opened(admin: AccountId)
    ensures After(admin, Opening()) == New(admin).(campaignCount := 1, campaigns := map[1 := Running(0, 0)])
    ensures Issued(admin, Opening(), 1) == 0 && Oversold(admin, Opening(), 1) == 0
    ensures TotalRefunded(admin, Opening(), 1) == 0
  {
    OneMoreCall(admin, [], Create());
    SumsStay(admin, [], Create());
    OneMoreCall(admin, [] + [Create()], Activated());
    SumsStay(admin, [] + [Create()], Activated());
    var s := After(admin, [] + [Create()]);
    assert s.campaigns[1 := s.campaigns[1].(status := Active)] == map[1 := Running(0, 0)];
  }

  // ----- an investor listed twice ----------------------------------------------------------

  function Nothing(): Call {
    By(ALICE, 0, MsgInvest(1, 0))
  }

  lemma NothingInvested(s: State, n: u32, list: seq<AccountId>)
    requires n < 2 && 1 in s.campaigns && s.campaigns[1] == Running(0, n) && Investors(s, 1) == list
    requires GetOr(s.investments, (1, ALICE), 0) == 0 && GetOr(s.shareHoldings, (1, ALICE), 0) == 0
    ensures var s' := Next(s, Nothing());
      && 1 in s'.campaigns && s'.campaigns[1] == Running(0, n + 1) && Investors(s', 1) == list + [ALICE]
      && GetOr(s'.investments, (1, ALICE), 0) == 0 && GetOr(s'.shareHoldings, (1, ALICE), 0) == 0
  {
    assert Apply(s, Nothing()).Committed?;
  }

  /** Alice invests nothing, twice, and is listed twice. */
  lemma ListedTwice(admin: AccountId)
    ensures var run := Opening() + [Nothing()] + [Nothing()];
      Investors(After(admin, run), 1) == [ALICE, ALICE] && !Distinct(Investors(After(admin, run), 1))
  {
    var r0 := Opening();
    var r1 := r0 + [Nothing()];
    Opened(admin);
    OneMoreCall(admin, r0, Nothing());
    NothingInvested(After(admin, r0), 0, []);
    OneMoreCall(admin, r1, Nothing());
    NothingInvested(After(admin, r1), 1, [] + [ALICE]);
    var list := Investors(After(admin, r1 + [Nothing()]), 1);
    assert list == [ALICE, ALICE] && list[0] == list[1];
  }

  // ----- one share sold twice --------------------------------------------------------------

  function Thousand(): Call {
    By(ALICE, 1000, MsgInvest(1, 1000))
  }

  function Offer(): Call {
    By(ALICE, 0, MsgList(1, 1, 0))
  }

  function Buy(n: u64): Call {
    By(BOB, 0, MsgBuy(n))
  }

  lemma Invested(admin: AccountId)
    ensures var s := After(admin, Opening() + [Thousand()]);
      && s.shareHoldings == map[(1, ALICE) := 1] && s.listings == map[] && s.listingCount == 0
      && s.investments == map[(1, ALICE) := 1000] && s.refundsIssued == map[] && s.admin == admin
      && s.campaigns == map[1 := Running(1000, 1)]
    ensures Issued(admin, Opening() + [Thousand()], 1) == 1 && Oversold(admin, Opening() + [Thousand()], 1) == 0
    ensures TotalRefunded(admin, Opening() + [Thousand()], 1) == 0
  {
    Opened(admin);
    OneMoreCall(admin, Opening(), Thousand());
    var s := After(admin, Opening());
    assert s.campaigns[1 := Running(1000, 1)] == map[1 := Running(1000, 1)];
  }

  lemma Offered(admin: AccountId, run: seq<Call>, n: u64)
    requires n < 2
    requires var s := After(admin, run);
      && s.shareHoldings == map[(1, ALICE) := 1] && s.listingCount == n
      && forall i :: i in s.listings <==> 1 <= i <= n
    requires forall i :: i in After(admin, run).listings ==> After(admin, run).listings[i] == Listing(ALICE, 1, 1, 0)
    ensures var s := After(admin, run + [Offer()]);
      && s.shareHoldings == map[(1, ALICE) := 1] && s.listingCount == n + 1
      && (forall i :: i in s.listings <==> 1 <= i <= n + 1)
      && forall i :: i in s.listings ==> s.listings[i] == Listing(ALICE, 1, 1, 0)
    ensures Issued(admin, run + [Offer()], 1) == Issued(admin, run, 1)
    ensures Oversold(admin, run + [Offer()], 1) == Oversold(admin, run, 1)
  {
    OneMoreCall(admin, run, Offer());
  }

  /** Bob buys what Alice listed: her share if she still has it, a new one otherwise. */
  lemma Bought(admin: AccountId, run: seq<Call>, n: u64, held: u64)
    requires held <= 1
    requires var s := After(admin, run);
      && n in s.listings && s.listings[n] == Listing(ALICE, 1, 1, 0)
      && GetOr(s.shareHoldings, (1, ALICE), 0) == held && GetOr(s.shareHoldings, (1, BOB), 0) <= 1
    ensures var s, s' := After(admin, run), After(admin, run + [Buy(n)]);
      && s'.listings == s.listings - {n} && GetOr(s'.shareHoldings, (1, ALICE), 0) == 0
      && GetOr(s'.shareHoldings, (1, BOB), 0) == GetOr(s.shareHoldings, (1, BOB), 0) + 1
    ensures Issued(admin, run + [Buy(n)], 1) == Issued(admin, run, 1)
    ensures Oversold(admin, run + [Buy(n)], 1) == Oversold(admin, run, 1) + 1 - held
  {
    OneMoreCall(admin, run, Buy(n));
  }

  /** Alice lists her only share twice, and Bob buys both: two shares exist for one issued. */
  lemma SoldTwice(admin: AccountId)
    ensures var run := Opening() + [Thousand()] + [Offer()] + [Offer()] + [Buy(1)] + [Buy(2)];
      && Issued(admin, run, 1) == 1 && Oversold(admin, run, 1) == 1
      && Supply(After(admin, run), 1) == 2
  {
    var r0 := Opening() + [Thousand()];
    var r1 := r0 + [Offer()];
    var r2 := r1 + [Offer()];
    var r3 := r2 + [Buy(1)];
    Invested(admin);
    Offered(admin, r0, 0);
    Offered(admin, r1, 1);
    Bought(admin, r2, 1, 1);
    Bought(admin, r3, 2, 0);
    SupplyIsAccounted(admin, r3 + [Buy(2)], 1);
  }

  // ----- a share without backing -----------------------------------------------------------

  /** Alice invests 1000, the campaign is cancelled, and she is refunded: her share remains, and
      nothing backs it. */
  lemma RefundedAndStillHeld(admin: AccountId)
    ensures var run := Opening() + [Thousand()] + [By(admin, 0, MsgFail(1))] + [By(ALICE, 0, MsgRefund(1))];
      var s := After(admin, run);
      && 1 in s.campaigns && Supply(s, 1) == 1
      && s.campaigns[1].raisedAmount == TotalRefunded(admin, run, 1) == 1000
      && Oversold(admin, run, 1) == 0
  {
    var r0 := Opening() + [Thousand()];
    var r1 := r0 + [By(admin, 0, MsgFail(1))];
    Invested(admin);
    OneMoreCall(admin, r0, By(admin, 0, MsgFail(1)));
    OneMoreCall(admin, r1, By(ALICE, 0, MsgRefund(1)));
    SupplyIsAccounted(admin, r1 + [By(ALICE, 0, MsgRefund(1))], 1);
  }

  // ----- an investment after a refund ------------------------------------------------------

  function Cancel(admin: AccountId): Call {
    By(admin, 0, MsgFail(1))
  }

  function Refund(): Call {
    By(ALICE, 0, MsgRefund(1))
  }

  /** Alice invests 1000 and gets it back after the campaign was cancelled. */
  function RefundedOnce(admin: AccountId): seq<Call> {
    Opening() + [Thousand()] + [Cancel(admin)] + [Refund()]
  }

  lemma RefundedThousand(admin: AccountId)
    ensures var s := After(admin, RefundedOnce(admin));
      && s.admin == admin && s.campaigns == map[1 := Running(1000, 1).(status := Cancelled)]
      && s.investments == map[(1, ALICE) := 1000] && s.refundsIssued == map[(1, ALICE) := true]
      && s.shareHoldings == map[(1, ALICE) := 1]
    ensures TotalRefunded(admin, RefundedOnce(admin), 1) == 1000 && LateInvested(admin, RefundedOnce(admin), 1) == 0
  {
    var r0 := Opening() + [Thousand()];
    var r1 := r0 + [Cancel(admin)];
    Invested(admin);
    OneMoreCall(admin, r0, Cancel(admin));
    OneMoreCall(admin, r1, Refund());
    RaisedIsAccounted(admin, r1 + [Refund()], 1);
    var s := After(admin, r0);
    assert s.campaigns[1 := s.campaigns[1].(status := Cancelled)] == map[1 := Running(1000, 1).(status := Cancelled)];
  }

  lemma RefundSums(admin: AccountId, run: seq<Call>, c: Call)
    requires !c.msg.MsgRefund? && Apply(After(admin, run), c).Committed?
    ensures TotalRefunded(admin, run + [c], 1) == TotalRefunded(admin, run, 1)
    ensures LateInvested(admin, run + [c], 1) == LateInvested(admin, run, 1) + Late(After(admin, run), c, 1)
  {
    OneMoreCall(admin, run, c);
  }

  /** The campaign is activated again, Alice invests 1000 more, and it is cancelled again: her second
      claim is refused, and half of what was raised stays behind. */
  lemma RefundedButNotAgain(admin: AccountId)
    ensures var run := RefundedOnce(admin) + [Activated()] + [Thousand()] + [Cancel(admin)];
      var s := After(admin, run);
      && 1 in s.campaigns && s.campaigns[1].status == Cancelled && s.campaigns[1].raisedAmount == 2000
      && TotalRefunded(admin, run, 1) == 1000 && LateInvested(admin, run, 1) == 1000 && Refundable(s, 1) == 0
      && Apply(s, Refund()) == Reverted(AlreadyRefunded)
  {
    var r0 := RefundedOnce(admin);
    var r1 := r0 + [Activated()];
    var r2 := r1 + [Thousand()];
    RefundedThousand(admin);
    OneMoreCall(admin, r0, Activated());
    RefundSums(admin, r0, Activated());
    OneMoreCall(admin, r1, Thousand());
    RefundSums(admin, r1, Thousand());
    OneMoreCall(admin, r2, Cancel(admin));
    RefundSums(admin, r2, Cancel(admin));
    RaisedIsAccounted(admin, r2 + [Cancel(admin)], 1);
  }

  // ----- payouts beyond the profit ---------------------------------------------------------

  function Large(): Call {
    By(ALICE, 6000, MsgInvest(1, 6000))
  }

  /** Alice invests 6000 towards a target of 5000; of a profit of 5000 she is due 6000. */
  lemma PaidBeyondProfit(admin: AccountId, profit: nat)
    requires profit == 5000
    ensures var s := After(admin, Opening() + [Large()]);
      && 1 in s.campaigns && s.campaigns[1].targetAmount == profit && s.campaigns[1].raisedAmount == 6000
      && TotalPayout(s, 1, profit) == 6000
  {
    Opened(admin);
    OneMoreCall(admin, Opening(), Large());
    BooksAlwaysBalance(admin, Opening() + [Large()]);
    WholeTarget(After(admin, Opening() + [Large()]), 1);
  }
}
