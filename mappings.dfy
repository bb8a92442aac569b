/**
  The MasterChefV2 event handlers over the subgraph's entity store.

  Each handler runs to completion or aborts. A handler aborts where the code loads an entity,
  gets nothing back and then reads a field of it; the indexer then
  keeps none of that handler's writes. The model returns `Failure(fault)` and leaves the
  store as it was, and checks each fault before it writes anything.
 */
module Mappings {
  import opened Wrappers
  import opened Entities
  import Ledger
  import Correlator
  import Rewards

  /** The UserInfo of `key`, or the zero position getOrCreateUserInfo would create. */
  function InfoOrZero(infos: map<UserInfoId, UserInfo>, key: UserInfoId): UserInfo
  {
    if key in infos then infos[key] else Ledger.Cleared
  }

  function DepositRow(ev: PositionEvent): FarmDeposit
  {
    FarmDeposit(ev.meta.transaction.hash, ev.pid, ev.user, ev.to, ev.amount)
  }

  function WithdrawalRow(ev: PositionEvent): FarmWithdrawal
  {
    FarmWithdrawal(ev.meta.transaction.hash, ev.pid, ev.user, ev.to, ev.amount)
  }

  /**
    A new SushiFarm as handleLogPoolAddition fills it in: owned by the emitting MasterChef,
    with the event's LP token, rewarder and allocation, created and last rewarded at the
    event's block, holding nothing and having accrued nothing, so that a first deposit
    carries no reward debt.
   */
  function NewFarm(ev: PoolAdditionEvent): (f: SushiFarm)
    ensures f.masterChef == ev.meta.address && f.lpToken == ev.lpToken && f.rewarder == ev.rewarder
    ensures f.allocPoint == ev.allocPoint
    ensures f.created == ev.meta.block.timestamp && f.createdAtTransaction == ev.meta.transaction.hash
    ensures f.createdAtBlock == f.lastRewardBlock == ev.meta.block.number
    ensures f.totalSupply == 0
    ensures forall delta: nat :: Ledger.RewardShare(delta, f.accSushiPerShare) == 0
  {
    SushiFarm(
      masterChef := ev.meta.address,
      rewarder := ev.rewarder,
      allocPoint := ev.allocPoint,
      created := ev.meta.block.timestamp,
      createdAtBlock := ev.meta.block.number,
      createdAtTransaction := ev.meta.transaction.hash,
      totalSupply := 0,
      lpToken := ev.lpToken,
      lastRewardBlock := ev.meta.block.number,
      accSushiPerShare := 0)
  }

  /** The entity store of the subgraph, one map per entity type. */
  class Subgraph {
    /** MasterChef entities: contract address to its SUSHI token. */
    var masterChefs: map<Address, Address>
    /** Rewarder entities. */
    var rewarders: set<Address>
    /** SushiFarm entities, keyed by pool id alone. */
    var farms: map<Pid, SushiFarm>
    /** The reward-token list of each Market; the rest of a Market belongs to the market library. */
    var markets: map<MarketId, seq<Address>>
    var userInfos: map<UserInfoId, UserInfo>
    var deposits: map<EventId, FarmDeposit>
    var withdrawals: map<EventId, FarmWithdrawal>
    var snapshots: map<EventId, SushiFarmSnapshot>
    var sushiTransfers: Correlator.SushiTransfers
    var extraTransfers: Correlator.ExtraTransfers
    /** Token entities. */
    var tokens: set<Address>
    /** RewardToken data sources started so far, in the order they were started. */
    var rewardTokenSources: seq<Address>

    /**
      Every Market lists its MasterChef's SUSHI first, every MasterChef's SUSHI is a Token,
      and a RewardToken data source is started at most once per token, for a Token.
     */
    ghost predicate Valid()
      reads this
    {
      && (forall m :: m in markets ==>
            m.0 in masterChefs && |markets[m]| >= 1 && markets[m][0] == masterChefs[m.0])
      && (forall c :: c in masterChefs ==> masterChefs[c] in tokens)
      && Rewards.NoDup(rewardTokenSources)
      && (forall t :: t in rewardTokenSources ==> t in tokens)
    }

    constructor ()
      ensures Valid()
      ensures masterChefs == map[] && rewarders == {} && farms == map[] && markets == map[]
      ensures userInfos == map[] && deposits == map[] && withdrawals == map[] && snapshots == map[]
      ensures sushiTransfers == map[] && extraTransfers == map[]
      ensures tokens == {} && rewardTokenSources == []
    {
      masterChefs, rewarders, farms, markets := map[], {}, map[], map[];
      userInfos, deposits, withdrawals, snapshots := map[], map[], map[], map[];
      sushiTransfers, extraTransfers := map[], map[];
      tokens, rewardTokenSources := {}, [];
    }

    /** getOrCreateUserInfo: the UserInfo of (user, pid), created with zeros if there is none. */
    method GetOrCreateUserInfo(user: Address, pid: Pid) returns (info: UserInfo)
      modifies this`userInfos
      ensures info == InfoOrZero(old(userInfos), (user, pid))
      ensures userInfos == old(userInfos)[(user, pid) := info]
    {
      if (user, pid) in userInfos {
        info := userInfos[(user, pid)];
      } else {
        info := Ledger.Cleared;
        userInfos := userInfos[(user, pid) := info];
      }
    }

    /**
      getHarvestedRewards: consume the pending SUSHI transfer of `tx` and the pending extra
      transfers of `tx` for rewardTokens[1..], deleting each, and report what they moved.
     */
    method GetHarvestedRewards(tx: TxHash, rewardTokens: seq<Address>) returns (claimed: seq<TokenBalance>)
      requires |rewardTokens| >= 1
      modifies this`sushiTransfers, this`extraTransfers
      ensures sushiTransfers == Correlator.Drain(old(sushiTransfers), old(extraTransfers), tx, rewardTokens).sushi
      ensures extraTransfers == Correlator.Drain(old(sushiTransfers), old(extraTransfers), tx, rewardTokens).extra
      ensures claimed == Correlator.Drain(old(sushiTransfers), old(extraTransfers), tx, rewardTokens).claimed
    {
      var sushi, extra := sushiTransfers, extraTransfers;
      ghost var target := Correlator.Drain(sushi, extra, tx, rewardTokens);
      claimed := [];
      if tx in sushi {
        var transfer := sushi[tx];
        claimed := [TokenBalance(rewardTokens[0], transfer.to, transfer.value)];
        sushi := sushi - {tx};
      }
      var i := 1;
      while i < |rewardTokens|
        invariant 1 <= i <= |rewardTokens|
        invariant target.extra == Correlator.DrainExtras(extra, tx, rewardTokens, i).0
        invariant target.claimed == claimed + Correlator.DrainExtras(extra, tx, rewardTokens, i).1
        decreases |rewardTokens| - i
      {
        var key := (tx, rewardTokens[i]);
        Correlator.DrainExtrasStep(extra, tx, rewardTokens, i);
        if key in extra {
          var transfer := extra[key];
          claimed := claimed + [TokenBalance(rewardTokens[i], transfer.to, transfer.value)];
          extra := extra - {key};
        }
        i := i + 1;
      }
      assert Correlator.DrainExtras(extra, tx, rewardTokens, i) == (extra, []);
      sushiTransfers, extraTransfers := sushi, extra;
    }

    /**
      collectRewardTokenBalances: the claimable SUSHI of `account` in the farm, computed
      locally, then the extra-token amounts the rewarder reports (`pending`, None when the
      query reverts). Aborts when the account has no UserInfo in the farm.
     */
    method CollectRewardTokenBalances(
      farm: SushiFarm, pid: Pid, account: Address, rewardTokens: seq<Address>, pending: Option<seq<(Address, nat)>>)
      returns (r: Result<seq<TokenBalance>, Fault>)
      requires |rewardTokens| >= 1
      ensures (account, pid) !in userInfos ==> r == Failure(MissingUserInfo)
      ensures (account, pid) in userInfos ==>
                && r.Success?
                && |r.value| == 1 + (if pending.Some? then |pending.value| else 0)
                && r.value[0] == TokenBalance(rewardTokens[0], account,
                                              Ledger.Claimable(userInfos[(account, pid)], farm.accSushiPerShare))
                && (pending.Some? ==> forall k :: 0 <= k < |pending.value| ==>
                      r.value[k + 1] == TokenBalance(pending.value[k].0, account, pending.value[k].1))
      ensures r.Success? ==>
                r.value == Rewards.RewardTokenBalances(
                  rewardTokens, account, userInfos[(account, pid)], farm.accSushiPerShare, pending)
    {
      if (account, pid) !in userInfos {
        return Failure(MissingUserInfo);
      }
      var info := userInfos[(account, pid)];
      var balances := [TokenBalance(rewardTokens[0], account, Ledger.Claimable(info, farm.accSushiPerShare))];
      if pending.Some? {
        var reported := pending.value;
        var i := 0;
        while i < |reported|
          invariant 0 <= i <= |reported|
          invariant |balances| == 1 + i
          invariant balances[0] == TokenBalance(rewardTokens[0], account, Ledger.Claimable(info, farm.accSushiPerShare))
          invariant forall k :: 0 <= k < i ==> balances[k + 1] == TokenBalance(reported[k].0, account, reported[k].1)
        {
          balances := balances + [TokenBalance(reported[i].0, account, reported[i].1)];
          i := i + 1;
        }
      }
      r := Success(balances);
    }

    /**
      getRewardTokens: the SUSHI of the farm's MasterChef first, then the extra tokens the
      farm's rewarder reports (`discovered`, None when the query reverts) in its order. Every
      one becomes a Token; an extra token that was no Token yet also gets a RewardToken data
      source.
     */
    method GetRewardTokens(sushi: Address, discovered: Option<seq<Address>>) returns (list: seq<Address>)
      modifies this`tokens, this`rewardTokenSources
      ensures list == [sushi] + Rewards.ExtraTokens(discovered)
      ensures (tokens, rewardTokenSources)
           == Rewards.RegisterAll(old(tokens) + {sushi}, old(rewardTokenSources), Rewards.ExtraTokens(discovered))
    {
      var extras := Rewards.ExtraTokens(discovered);
      var known, sources := tokens + {sushi}, rewardTokenSources;
      ghost var target := Rewards.RegisterAll(known, sources, extras);
      list := [sushi];
      var i := 0;
      while i < |extras|
        invariant 0 <= i <= |extras|
        invariant list == [sushi] + extras[..i]
        invariant Rewards.RegisterAll(known, sources, extras[i..]) == target
      {
        var token := extras[i];
        Rewards.RegisterAllStep(known, sources, extras[i..]);
        assert extras[i..][0] == token && extras[i..][1..] == extras[i + 1..];
        ghost var sources0 := sources;
        if token !in known {
          // start indexing the token's transfers
          sources := sources + [token];
        }
        assert (known + {token}, sources) == Rewards.Register(known, sources0, token) by {
          if token in known { assert known + {token} == known; }
        }
        known := known + {token};
        list := list + [token];
        assert extras[..i + 1] == extras[..i] + [token];
        i := i + 1;
      }
      assert extras[..i] == extras;
      assert extras[i..] == [];
      tokens, rewardTokenSources := known, sources;
    }

    /**
      handleLogPoolAddition: the first pool of a MasterChef creates the MasterChef with its
      SUSHI (`sushi`, read from the contract); then the Rewarder, a new SushiFarm under the
      pool id, the LP Token, and the Market with SUSHI-first reward tokens unless a Market
      of that MasterChef and pool id exists already.
     */
    method HandleLogPoolAddition(ev: PoolAdditionEvent, sushi: Address, discovered: Option<seq<Address>>)
      requires Valid()
      modifies this`masterChefs, this`rewarders, this`farms, this`markets, this`tokens, this`rewardTokenSources
      ensures Valid()
      ensures masterChefs == if ev.meta.address in old(masterChefs) then old(masterChefs)
                             else old(masterChefs)[ev.meta.address := sushi]
      ensures rewarders == old(rewarders) + {ev.rewarder}
      ensures farms == old(farms)[ev.pid := NewFarm(ev)]
      ensures var known := if ev.meta.address in old(masterChefs) then (old(tokens), old(rewardTokenSources))
                           else Rewards.Register(old(tokens), old(rewardTokenSources), sushi);
              (tokens, rewardTokenSources)
              == Rewards.RegisterAll(known.0 + {ev.lpToken} + {masterChefs[ev.meta.address]}, known.1,
                                     Rewards.ExtraTokens(discovered))
      ensures markets == if MarketOf(ev.meta, ev.pid) in old(markets) then old(markets)
                         else old(markets)[MarketOf(ev.meta, ev.pid) :=
                                             [masterChefs[ev.meta.address]] + Rewards.ExtraTokens(discovered)]
    {
      var chef := ev.meta.address;
      if chef !in masterChefs {
        // start indexing SUSHI transfers unless SUSHI is a Token already
        var (newTokens, newSources) := Rewards.Register(tokens, rewardTokenSources, sushi);
        tokens, rewardTokenSources := newTokens, newSources;
        masterChefs := masterChefs[chef := sushi];
      }
      rewarders := rewarders + {ev.rewarder};
      farms := farms[ev.pid := NewFarm(ev)];
      tokens := tokens + {ev.lpToken};
      ghost var before := (tokens + {masterChefs[chef]}, rewardTokenSources);
      var rewardTokens := GetRewardTokens(masterChefs[chef], discovered);
      Rewards.RegisterAllFacts(before.0, before.1, Rewards.ExtraTokens(discovered));
      var id := MarketOf(ev.meta, ev.pid);
      if id !in markets {
        markets := markets[id := rewardTokens];
      }
    }

    /**
      handleDeposit: the audit row is always written; a nonzero deposit then credits the
      RECEIVER's UserInfo with the amount and its reward share at the farm's index, and
      reports an investment.
     */
    method HandleDeposit(ev: PositionEvent, pending: Option<seq<(Address, nat)>>) returns (r: Result<Option<Report>, Fault>)
      requires Valid()
      modifies this`deposits, this`userInfos
      ensures Valid()
      ensures ev.pid !in farms ==>
                r == Failure(MissingFarm) && deposits == old(deposits) && userInfos == old(userInfos)
      ensures ev.pid in farms && ev.amount == 0 ==>
                && r == Success(None)
                && deposits == old(deposits)[IdOf(ev.meta) := DepositRow(ev)]
                && userInfos == old(userInfos)
      ensures ev.pid in farms && ev.amount > 0 && MarketOf(ev.meta, ev.pid) !in markets ==>
                r == Failure(MissingMarket) && deposits == old(deposits) && userInfos == old(userInfos)
      ensures ev.pid in farms && ev.amount > 0 && MarketOf(ev.meta, ev.pid) in markets ==>
                var farm := farms[ev.pid];
                var info := Ledger.Credit(InfoOrZero(old(userInfos), (ev.to, ev.pid)), ev.amount, farm.accSushiPerShare);
                && deposits == old(deposits)[IdOf(ev.meta) := DepositRow(ev)]
                && userInfos == old(userInfos)[(ev.to, ev.pid) := info]
                && r == Success(Some(Invest(PositionReport(
                          ev.to, MarketOf(ev.meta, ev.pid), 0,
                          [TokenBalance(farm.lpToken, ev.to, ev.amount)], [], 0,
                          [TokenBalance(farm.lpToken, ev.to, info.amount)],
                          Rewards.RewardTokenBalances(
                            markets[MarketOf(ev.meta, ev.pid)], ev.to, info, farm.accSushiPerShare, pending)))))
    {
      if ev.pid !in farms {
        return Failure(MissingFarm);
      }
      var farm := farms[ev.pid];
      var market := MarketOf(ev.meta, ev.pid);
      if ev.amount == 0 {
        deposits := deposits[IdOf(ev.meta) := DepositRow(ev)];
        return Success(None);
      }
      if market !in markets {
        return Failure(MissingMarket);
      }
      deposits := deposits[IdOf(ev.meta) := DepositRow(ev)];
      var info := GetOrCreateUserInfo(ev.to, ev.pid);
      info := Ledger.Credit(info, ev.amount, farm.accSushiPerShare);
      userInfos := userInfos[(ev.to, ev.pid) := info];
      var balances := CollectRewardTokenBalances(farm, ev.pid, ev.to, markets[market], pending);
      r := Success(Some(Invest(PositionReport(
             ev.to, market, 0,
             [TokenBalance(farm.lpToken, ev.to, ev.amount)], [], 0,
             [TokenBalance(farm.lpToken, ev.to, info.amount)],
             balances.value))));
    }

    /**
      handleWithdraw: the audit row is always written; a nonzero withdrawal then debits the
      USER's UserInfo (with no check that it covers the amount), consumes the reward
      transfers pending for the transaction, and reports a redemption to the receiver.
     */
    method HandleWithdraw(ev: PositionEvent, pending: Option<seq<(Address, nat)>>) returns (r: Result<Option<Report>, Fault>)
      requires Valid()
      modifies this`withdrawals, this`userInfos, this`sushiTransfers, this`extraTransfers
      ensures Valid()
      ensures ev.pid !in farms ==>
                && r == Failure(MissingFarm) && withdrawals == old(withdrawals) && userInfos == old(userInfos)
                && sushiTransfers == old(sushiTransfers) && extraTransfers == old(extraTransfers)
      ensures ev.pid in farms && ev.amount == 0 ==>
                && r == Success(None)
                && withdrawals == old(withdrawals)[IdOf(ev.meta) := WithdrawalRow(ev)]
                && userInfos == old(userInfos)
                && sushiTransfers == old(sushiTransfers) && extraTransfers == old(extraTransfers)
      ensures ev.pid in farms && ev.amount > 0 && MarketOf(ev.meta, ev.pid) !in markets ==>
                && r == Failure(MissingMarket) && withdrawals == old(withdrawals) && userInfos == old(userInfos)
                && sushiTransfers == old(sushiTransfers) && extraTransfers == old(extraTransfers)
      ensures ev.pid in farms && ev.amount > 0 && MarketOf(ev.meta, ev.pid) in markets ==>
                var farm := farms[ev.pid];
                var rewardTokens := markets[MarketOf(ev.meta, ev.pid)];
                var info := Ledger.Debit(InfoOrZero(old(userInfos), (ev.user, ev.pid)), ev.amount, farm.accSushiPerShare);
                var harvested := Correlator.Drain(old(sushiTransfers), old(extraTransfers), ev.meta.transaction.hash, rewardTokens);
                && withdrawals == old(withdrawals)[IdOf(ev.meta) := WithdrawalRow(ev)]
                && userInfos == old(userInfos)[(ev.user, ev.pid) := info]
                && sushiTransfers == harvested.sushi
                && extraTransfers == harvested.extra
                && r == Success(Some(Redeem(PositionReport(
                          ev.to, MarketOf(ev.meta, ev.pid), 0,
                          [TokenBalance(farm.lpToken, ev.to, ev.amount)], harvested.claimed, 0,
                          [TokenBalance(farm.lpToken, ev.to, info.amount)],
                          Rewards.RewardTokenBalances(rewardTokens, ev.user, info, farm.accSushiPerShare, pending)))))
    {
      if ev.pid !in farms {
        return Failure(MissingFarm);
      }
      var farm := farms[ev.pid];
      var market := MarketOf(ev.meta, ev.pid);
      if ev.amount == 0 {
        withdrawals := withdrawals[IdOf(ev.meta) := WithdrawalRow(ev)];
        return Success(None);
      }
      if market !in markets {
        return Failure(MissingMarket);
      }
      withdrawals := withdrawals[IdOf(ev.meta) := WithdrawalRow(ev)];
      var info := GetOrCreateUserInfo(ev.user, ev.pid);
      info := Ledger.Debit(info, ev.amount, farm.accSushiPerShare);
      userInfos := userInfos[(ev.user, ev.pid) := info];
      var claimed := GetHarvestedRewards(ev.meta.transaction.hash, markets[market]);
      var balances := CollectRewardTokenBalances(farm, ev.pid, ev.user, markets[market], pending);
      r := Success(Some(Redeem(PositionReport(
             ev.to, market, 0,
             [TokenBalance(farm.lpToken, ev.to, ev.amount)], claimed, 0,
             [TokenBalance(farm.lpToken, ev.to, info.amount)],
             balances.value))));
    }

    /**
      handleEmergencyWithdraw: the audit row is always written; a nonzero emergency
      withdrawal then resets the RECEIVER's UserInfo to zero and reports a redemption whose
      claimable balances are those of the USER, which aborts when the user has no UserInfo.
      Pending reward transfers are left alone.
     */
    method HandleEmergencyWithdraw(ev: PositionEvent, pending: Option<seq<(Address, nat)>>)
      returns (r: Result<Option<Report>, Fault>)
      requires Valid()
      modifies this`withdrawals, this`userInfos
      ensures Valid()
      ensures ev.pid !in farms ==>
                r == Failure(MissingFarm) && withdrawals == old(withdrawals) && userInfos == old(userInfos)
      ensures ev.pid in farms && ev.amount == 0 ==>
                && r == Success(None)
                && withdrawals == old(withdrawals)[IdOf(ev.meta) := WithdrawalRow(ev)]
                && userInfos == old(userInfos)
      ensures ev.pid in farms && ev.amount > 0 && MarketOf(ev.meta, ev.pid) !in markets ==>
                r == Failure(MissingMarket) && withdrawals == old(withdrawals) && userInfos == old(userInfos)
      ensures ev.pid in farms && ev.amount > 0 && MarketOf(ev.meta, ev.pid) in markets
              && ev.user != ev.to && (ev.user, ev.pid) !in old(userInfos) ==>
                r == Failure(MissingUserInfo) && withdrawals == old(withdrawals) && userInfos == old(userInfos)
      ensures ev.pid in farms && ev.amount > 0 && MarketOf(ev.meta, ev.pid) in markets
              && (ev.user == ev.to || (ev.user, ev.pid) in old(userInfos)) ==>
                var farm := farms[ev.pid];
                && withdrawals == old(withdrawals)[IdOf(ev.meta) := WithdrawalRow(ev)]
                && userInfos == old(userInfos)[(ev.to, ev.pid) := Ledger.Cleared]
                && r == Success(Some(Redeem(PositionReport(
                          ev.to, MarketOf(ev.meta, ev.pid), 0,
                          [TokenBalance(farm.lpToken, ev.to, ev.amount)], [], 0,
                          [TokenBalance(farm.lpToken, ev.to, 0)],
                          Rewards.RewardTokenBalances(
                            markets[MarketOf(ev.meta, ev.pid)], ev.user, userInfos[(ev.user, ev.pid)],
                            farm.accSushiPerShare, pending)))))
    {
      if ev.pid !in farms {
        return Failure(MissingFarm);
      }
      var farm := farms[ev.pid];
      var market := MarketOf(ev.meta, ev.pid);
      if ev.amount == 0 {
        withdrawals := withdrawals[IdOf(ev.meta) := WithdrawalRow(ev)];
        return Success(None);
      }
      if market !in markets {
        return Failure(MissingMarket);
      }
      if ev.user != ev.to && (ev.user, ev.pid) !in userInfos {
        return Failure(MissingUserInfo);
      }
      withdrawals := withdrawals[IdOf(ev.meta) := WithdrawalRow(ev)];
      var info := GetOrCreateUserInfo(ev.to, ev.pid);
      info := Ledger.Cleared;
      userInfos := userInfos[(ev.to, ev.pid) := info];
      var balances := CollectRewardTokenBalances(farm, ev.pid, ev.user, markets[market], pending);
      r := Success(Some(Redeem(PositionReport(
             ev.to, market, 0,
             [TokenBalance(farm.lpToken, ev.to, ev.amount)], [], 0,
             [TokenBalance(farm.lpToken, ev.to, info.amount)],
             balances.value))));
    }

    /**
      handleHarvest: nothing happens unless a reward transfer of the transaction is still
      pending (the gate) and the harvested amount is nonzero, in that order. Otherwise the
      harvester's reward debt grows by the harvested SUSHI, the pending transfers are
      consumed, and a redemption is reported. Finding: the code as written puts the LP
      balance of that report under the UserInfo id instead of the harvester.
     */
    method HandleHarvest(ev: HarvestEvent, pending: Option<seq<(Address, nat)>>) returns (r: Result<Option<Report>, Fault>)
      requires Valid()
      modifies this`userInfos, this`sushiTransfers, this`extraTransfers
      ensures Valid()
      ensures ev.pid !in farms ==>
                && r == Failure(MissingFarm) && userInfos == old(userInfos)
                && sushiTransfers == old(sushiTransfers) && extraTransfers == old(extraTransfers)
      ensures ev.pid in farms && ev.meta.transaction.hash !in old(sushiTransfers) && MarketOf(ev.meta, ev.pid) !in markets ==>
                && r == Failure(MissingMarket) && userInfos == old(userInfos)
                && sushiTransfers == old(sushiTransfers) && extraTransfers == old(extraTransfers)
      ensures ev.pid in farms && MarketOf(ev.meta, ev.pid) in markets
              && !Correlator.IsThereUnprocessedRewardTransfer(
                    old(sushiTransfers), old(extraTransfers), ev.meta.transaction.hash, markets[MarketOf(ev.meta, ev.pid)]) ==>
                && r == Success(None) && userInfos == old(userInfos)
                && sushiTransfers == old(sushiTransfers) && extraTransfers == old(extraTransfers)
      ensures ev.pid in farms && ev.meta.transaction.hash in old(sushiTransfers) && MarketOf(ev.meta, ev.pid) !in markets ==>
                && r == (if ev.amount == 0 then Success(None) else Failure(MissingMarket))
                && userInfos == old(userInfos)
                && sushiTransfers == old(sushiTransfers) && extraTransfers == old(extraTransfers)
      ensures ev.pid in farms && MarketOf(ev.meta, ev.pid) in markets
              && Correlator.IsThereUnprocessedRewardTransfer(
                    old(sushiTransfers), old(extraTransfers), ev.meta.transaction.hash, markets[MarketOf(ev.meta, ev.pid)]) ==>
                var farm := farms[ev.pid];
                var rewardTokens := markets[MarketOf(ev.meta, ev.pid)];
                var info := Ledger.Settle(InfoOrZero(old(userInfos), (ev.user, ev.pid)), ev.amount);
                var harvested := Correlator.Drain(old(sushiTransfers), old(extraTransfers), ev.meta.transaction.hash, rewardTokens);
                if ev.amount == 0 then
                  && r == Success(None) && userInfos == old(userInfos)
                  && sushiTransfers == old(sushiTransfers) && extraTransfers == old(extraTransfers)
                else
                  && userInfos == old(userInfos)[(ev.user, ev.pid) := info]
                  && sushiTransfers == harvested.sushi
                  && extraTransfers == harvested.extra
                  && r == Success(Some(Redeem(PositionReport(
                            ev.user, MarketOf(ev.meta, ev.pid), 0,
                            [], harvested.claimed, 0,
                            [TokenBalance(farm.lpToken, ev.user, info.amount)],
                            Rewards.RewardTokenBalances(rewardTokens, ev.user, info, farm.accSushiPerShare, pending)))))
    {
      if ev.pid !in farms {
        return Failure(MissingFarm);
      }
      var farm := farms[ev.pid];
      var market := MarketOf(ev.meta, ev.pid);
      var tx := ev.meta.transaction.hash;
      // the gate reads the market's reward tokens only when no SUSHI transfer is pending
      if tx !in sushiTransfers && market !in markets {
        return Failure(MissingMarket);
      }
      if tx !in sushiTransfers && !Correlator.IsThereUnprocessedRewardTransfer(sushiTransfers, extraTransfers, tx, markets[market]) {
        return Success(None);
      }
      if ev.amount == 0 {
        return Success(None);
      }
      if market !in markets {
        return Failure(MissingMarket);
      }
      var info := GetOrCreateUserInfo(ev.user, ev.pid);
      info := Ledger.Settle(info, ev.amount);
      userInfos := userInfos[(ev.user, ev.pid) := info];
      var claimed := GetHarvestedRewards(tx, markets[market]);
      var balances := CollectRewardTokenBalances(farm, ev.pid, ev.user, markets[market], pending);
      r := Success(Some(Redeem(PositionReport(
             ev.user, market, 0,
             [], claimed, 0,
             [TokenBalance(farm.lpToken, ev.user, info.amount)],
             balances.value))));
    }

    /**
      handleLogUpdatePool: snapshot the farm's allocation and supply as they were, then
      overwrite its last reward block, total supply and accrual index with the event's.
     */
    method HandleLogUpdatePool(ev: UpdatePoolEvent) returns (r: Result<Option<Report>, Fault>)
      requires Valid()
      modifies this`snapshots, this`farms
      ensures Valid()
      ensures ev.pid !in old(farms) ==>
                r == Failure(MissingFarm) && snapshots == old(snapshots) && farms == old(farms)
      ensures ev.pid in old(farms) ==>
                var farm := old(farms)[ev.pid];
                && snapshots == old(snapshots)[IdOf(ev.meta) := SushiFarmSnapshot(
                     ev.pid, farm.allocPoint, farm.totalSupply, ev.meta.block.timestamp,
                     ev.meta.transaction.hash, ev.meta.transaction.index, ev.meta.block.number, ev.meta.logIndex)]
                && farms == old(farms)[ev.pid := farm.(lastRewardBlock := ev.lastRewardBlock,
                                                      totalSupply := ev.lpSupply,
                                                      accSushiPerShare := ev.accSushiPerShare)]
                && r == Success(Some(MarketUpdate(
                          MarketOf(ev.meta, ev.pid), [TokenBalance(farm.lpToken, ev.meta.address, ev.lpSupply)], 0)))
    {
      if ev.pid !in farms {
        return Failure(MissingFarm);
      }
      var farm := farms[ev.pid];
      snapshots := snapshots[IdOf(ev.meta) := SushiFarmSnapshot(
        ev.pid, farm.allocPoint, farm.totalSupply, ev.meta.block.timestamp,
        ev.meta.transaction.hash, ev.meta.transaction.index, ev.meta.block.number, ev.meta.logIndex)];
      farm := farm.(lastRewardBlock := ev.lastRewardBlock, totalSupply := ev.lpSupply, accSushiPerShare := ev.accSushiPerShare);
      farms := farms[ev.pid := farm];
      r := Success(Some(MarketUpdate(
             MarketOf(ev.meta, ev.pid), [TokenBalance(farm.lpToken, ev.meta.address, farm.totalSupply)], 0)));
    }

    /** handleLogSetPool: set the allocation point, and the rewarder only when `overwrite` is set. */
    method HandleLogSetPool(ev: SetPoolEvent) returns (r: Result<Option<Report>, Fault>)
      requires Valid()
      modifies this`farms
      ensures Valid()
      ensures ev.pid !in old(farms) ==> r == Failure(MissingFarm) && farms == old(farms)
      ensures ev.pid in old(farms) ==>
                var farm := old(farms)[ev.pid];
                && r == Success(None)
                && farms == old(farms)[ev.pid := farm.(allocPoint := ev.allocPoint,
                                                      rewarder := if ev.overwrite then ev.rewarder else farm.rewarder)]
    {
      if ev.pid !in farms {
        return Failure(MissingFarm);
      }
      var farm := farms[ev.pid];
      farm := farm.(allocPoint := ev.allocPoint);
      if ev.overwrite {
        farm := farm.(rewarder := ev.rewarder);
      }
      farms := farms[ev.pid := farm];
      r := Success(None);
    }

    /**
      handleRewardTokenTransfer: a transfer of a MasterChef's own SUSHI out of that
      MasterChef is buffered as the transaction's SUSHI reward transfer; otherwise a
      transfer out of a known Rewarder is buffered under (transaction, token); anything
      else is ignored. A later transfer under the same key replaces the earlier one.
     */
    method HandleRewardTokenTransfer(ev: TransferEvent)
      requires Valid()
      modifies this`sushiTransfers, this`extraTransfers
      ensures Valid()
      ensures ev.from in masterChefs && masterChefs[ev.from] == ev.meta.address ==>
                && sushiTransfers == old(sushiTransfers)[ev.meta.transaction.hash :=
                     SushiRewardTransfer(ev.from, ev.to, ev.value, ev.meta.transaction.hash)]
                && extraTransfers == old(extraTransfers)
      ensures !(ev.from in masterChefs && masterChefs[ev.from] == ev.meta.address) && ev.from in rewarders ==>
                && sushiTransfers == old(sushiTransfers)
                && extraTransfers == old(extraTransfers)[(ev.meta.transaction.hash, ev.meta.address) :=
                     ExtraRewardTokenTransfer(ev.meta.address, ev.from, ev.to, ev.value, ev.meta.transaction.hash)]
      ensures !(ev.from in masterChefs && masterChefs[ev.from] == ev.meta.address) && ev.from !in rewarders ==>
                sushiTransfers == old(sushiTransfers) && extraTransfers == old(extraTransfers)
    {
      var tx := ev.meta.transaction.hash;
      var token := ev.meta.address;
      if ev.from in masterChefs && token == masterChefs[ev.from] {
        sushiTransfers := sushiTransfers[tx := SushiRewardTransfer(ev.from, ev.to, ev.value, tx)];
        return;
      }
      if ev.from in rewarders {
        extraTransfers := extraTransfers[(tx, token) := ExtraRewardTokenTransfer(token, ev.from, ev.to, ev.value, tx)];
      }
    }
  }
}
