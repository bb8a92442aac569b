/**
  Handlers run one after the other on the same store, as the indexer runs the events of a
  transaction in log order.
 */
module Scenarios {
  import opened Wrappers
  import opened Entities
  import Ledger
  import Correlator
  import Mappings

  /**
    A deposit to `to`, followed at the same accrual index by `to` withdrawing the same
    amount, leaves the position of `to` where it was (or at the zero position it was
    implicitly at) and every other position untouched.
   */
  method DepositThenWithdraw(
    s: Mappings.Subgraph, deposit: PositionEvent, withdraw: PositionEvent, pending: Option<seq<(Address, nat)>>)
    returns (invest: Result<Option<Report>, Fault>, redeem: Result<Option<Report>, Fault>)
    requires s.Valid()
    requires deposit.pid in s.farms && MarketOf(deposit.meta, deposit.pid) in s.markets && deposit.amount > 0
    requires withdraw.meta.address == deposit.meta.address && withdraw.pid == deposit.pid
    requires withdraw.user == deposit.to && withdraw.amount == deposit.amount
    modifies s
    ensures s.Valid()
    ensures invest.Success? && invest.value.Some? && invest.value.value.Invest?
    ensures redeem.Success? && redeem.value.Some? && redeem.value.value.Redeem?
    ensures |redeem.value.value.position.inputTokenBalances| == 1
    ensures s.userInfos
         == old(s.userInfos)[(deposit.to, deposit.pid) := Mappings.InfoOrZero(old(s.userInfos), (deposit.to, deposit.pid))]
    ensures redeem.value.value.position.inputTokenBalances[0].amount
         == Mappings.InfoOrZero(old(s.userInfos), (deposit.to, deposit.pid)).amount
  {
    ghost var before := Mappings.InfoOrZero(s.userInfos, (deposit.to, deposit.pid));
    invest := s.HandleDeposit(deposit, pending);
    redeem := s.HandleWithdraw(withdraw, pending);
    Ledger.DebitUndoesCredit(before, deposit.amount, s.farms[deposit.pid].accSushiPerShare);
  }

  /**
    Withdraw emits Harvest right after itself in the same transaction, and the Withdraw has
    already consumed the reward transfers; the Harvest then changes nothing and reports
    nothing, so the Withdraw's reward claims are not reported a second time. The harvested
    SUSHI never enters the reward debt on this path (see the README).
   */
  method WithdrawThenHarvest(
    s: Mappings.Subgraph, withdraw: PositionEvent, harvest: HarvestEvent, pending: Option<seq<(Address, nat)>>)
    returns (redeem: Result<Option<Report>, Fault>, harvested: Result<Option<Report>, Fault>)
    requires s.Valid()
    requires withdraw.pid in s.farms && MarketOf(withdraw.meta, withdraw.pid) in s.markets && withdraw.amount > 0
    requires harvest.meta.address == withdraw.meta.address && harvest.pid == withdraw.pid
    requires harvest.meta.transaction.hash == withdraw.meta.transaction.hash
    modifies s
    ensures s.Valid()
    ensures redeem.Success? && redeem.value.Some?
    ensures harvested == Success(None)
    ensures s.userInfos == old(s.userInfos)[(withdraw.user, withdraw.pid) :=
              Ledger.Debit(Mappings.InfoOrZero(old(s.userInfos), (withdraw.user, withdraw.pid)),
                           withdraw.amount, old(s.farms)[withdraw.pid].accSushiPerShare)]
  {
    redeem := s.HandleWithdraw(withdraw, pending);
    ghost var tokens := s.markets[MarketOf(withdraw.meta, withdraw.pid)];
    Correlator.DrainLeavesNothingPending(
      old(s.sushiTransfers), old(s.extraTransfers), withdraw.meta.transaction.hash, tokens);
    harvested := s.HandleHarvest(harvest, pending);
  }
}
