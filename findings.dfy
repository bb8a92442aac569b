/**
  The LP balance reported by handleHarvest. Deposit, Withdraw and EmergencyWithdraw report
  the LP balance under the account whose position it is; handleHarvest as written reports it
  under the UserInfo entity's id ("<account>-<pid>"), which names no account.
 */
module Findings {
  import opened Wrappers
  import opened Entities
  import Mappings

  /** Whom a reported balance is credited to: an account, or a UserInfo id. */
  datatype Holder = AccountHolder(account: Address) | UserInfoHolder(id: UserInfoId)

  /** The holder of a reported entry as the handlers build it: the entry's account. */
  function HolderOf(entry: TokenBalance): Holder
  {
    AccountHolder(entry.account)
  }

  /**
    The holder of handleHarvest's LP entry as written: the UserInfo id of the entry's account
    in the farm. Token and amount are the entry's own.
   */
  function HarvestLpHolderAsWritten(entry: TokenBalance, pid: Pid): Holder
  {
    UserInfoHolder((entry.account, pid))
  }

  /** As written, the LP entry is credited to no account, so never to the harvester. */
  lemma AsWrittenHarvestHolderIsNoAccount(entry: TokenBalance, pid: Pid)
    ensures !HarvestLpHolderAsWritten(entry, pid).AccountHolder?
    ensures HarvestLpHolderAsWritten(entry, pid) != HolderOf(entry)
  {
  }

  /**
    The corrected handleHarvest: whenever it reports, its LP entry carries the farm's LP
    token and the harvester's stake, as the as-written one does, but is credited to the
    harvester instead of the UserInfo id.
   */
  method HarvestCreditsTheHarvester(s: Mappings.Subgraph, ev: HarvestEvent, pending: Option<seq<(Address, nat)>>)
    returns (r: Result<Option<Report>, Fault>)
    requires s.Valid()
    modifies s
    ensures s.Valid()
    ensures r.Success? && r.value.Some? ==>
              && r.value.value.Redeem?
              && |r.value.value.position.inputTokenBalances| == 1
              && ev.pid in s.farms && (ev.user, ev.pid) in s.userInfos
              && var entry := r.value.value.position.inputTokenBalances[0];
                 && entry.token == s.farms[ev.pid].lpToken
                 && entry.amount == s.userInfos[(ev.user, ev.pid)].amount
                 && HolderOf(entry) == AccountHolder(ev.user)
                 && HarvestLpHolderAsWritten(entry, ev.pid) == UserInfoHolder((ev.user, ev.pid))
  {
    r := s.HandleHarvest(ev, pending);
  }
}
