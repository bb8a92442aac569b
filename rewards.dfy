/**
  Reward-token lists of a farm's market and the claimable balances reported for them.
 */
module Rewards {
  import opened Wrappers
  import opened Entities
  import Ledger

  predicate NoDup(s: seq<Address>)
  {
    forall a, b :: 0 <= a < b < |s| ==> s[a] != s[b]
  }

  /**
    The indexing side of getOrCreateERC20Token as getRewardTokens and handleLogPoolAddition
    use it: a token with no Token entity yet gets a RewardToken data source started (appended
    to `sources`), and then has a Token entity.
   */
  function Register(tokens: set<Address>, sources: seq<Address>, t: Address): (r: (set<Address>, seq<Address>))
    ensures r.0 == tokens + {t}
    ensures t in tokens ==> r.1 == sources
    ensures t !in tokens ==> |r.1| == |sources| + 1 && r.1[..|sources|] == sources && r.1[|sources|] == t
    ensures NoDup(sources) && (forall u :: u in sources ==> u in tokens) ==>
              NoDup(r.1) && forall u :: u in r.1 ==> u in r.0
  {
    if t in tokens then (tokens, sources) else (tokens + {t}, sources + [t])
  }

  /** Registering the tokens `ts` one after the other, in list order. */
  function RegisterAll(tokens: set<Address>, sources: seq<Address>, ts: seq<Address>): (r: (set<Address>, seq<Address>))
    ensures |sources| <= |r.1| <= |sources| + |ts|
    ensures r.1[..|sources|] == sources
    decreases |ts|
  {
    if ts == [] then (tokens, sources)
    else
      var (tokens', sources') := Register(tokens, sources, ts[0]);
      RegisterAll(tokens', sources', ts[1..])
  }

  /**
    After registering `ts` all of them are known, the sources started are exactly those of
    `ts` that were unknown, appended to the old ones, and no token ever gets a second data
    source.
   */
  lemma {:induction false} RegisterAllFacts(tokens: set<Address>, sources: seq<Address>, ts: seq<Address>)
    ensures var r := RegisterAll(tokens, sources, ts);
            && r.0 == tokens + (set t | t in ts)
            && |sources| <= |r.1| && r.1[..|sources|] == sources
            && (forall t :: t in r.1[|sources|..] <==> t in ts && t !in tokens)
            && (NoDup(sources) && (forall t :: t in sources ==> t in tokens) ==>
                  NoDup(r.1) && forall t :: t in r.1 ==> t in r.0)
    decreases |ts|
  {
    if ts != [] {
      var next := Register(tokens, sources, ts[0]);
      assert ts == [ts[0]] + ts[1..];
      RegisterAllFacts(next.0, next.1, ts[1..]);
      var r := RegisterAll(next.0, next.1, ts[1..]);
      assert r == RegisterAll(tokens, sources, ts);
      assert r.1[..|next.1|][..|sources|] == r.1[..|sources|];
      assert r.1[|sources|..] == next.1[|sources|..] + r.1[|next.1|..];
    }
  }

  /** Registering a nonempty list is registering its head, then its tail. */
  lemma RegisterAllStep(tokens: set<Address>, sources: seq<Address>, ts: seq<Address>)
    requires ts != []
    ensures RegisterAll(tokens, sources, ts)
         == RegisterAll(Register(tokens, sources, ts[0]).0, Register(tokens, sources, ts[0]).1, ts[1..])
  {
  }

  /** The extra reward tokens a rewarder reports; a reverted query reports none. */
  function ExtraTokens(discovered: Option<seq<Address>>): seq<Address>
  {
    if discovered.Some? then discovered.value else []
  }

  /** The balances a rewarder reports for extra tokens, under `account`; a reverted query reports none. */
  function ExtraBalances(account: Address, pending: Option<seq<(Address, nat)>>): seq<TokenBalance>
  {
    match pending
    case None => []
    case Some(p) => seq(|p|, k requires 0 <= k < |p| => TokenBalance(p[k].0, account, p[k].1))
  }

  /** The claimable balances of collectRewardTokenBalances: SUSHI first, then the rewarder's extras. */
  function RewardTokenBalances(
    rewardTokens: seq<Address>, account: Address, info: UserInfo, acc: nat, pending: Option<seq<(Address, nat)>>)
    : (r: seq<TokenBalance>)
    requires |rewardTokens| >= 1
    ensures |r| >= 1 && r[0].token == rewardTokens[0] && r[0].amount == Ledger.Claimable(info, acc)
    ensures forall k :: 0 <= k < |r| ==> r[k].account == account
    ensures pending.None? ==> |r| == 1
    ensures pending.Some? ==>
              |r| == 1 + |pending.value|
              && forall k :: 0 <= k < |pending.value| ==>
                   r[k + 1].token == pending.value[k].0 && r[k + 1].amount == pending.value[k].1
  {
    [TokenBalance(rewardTokens[0], account, Ledger.Claimable(info, acc))] + ExtraBalances(account, pending)
  }
}
