/**
  The per-(account, farm) position ledger: staked amount and reward debt, moved with
  MasterChefV2's fixed-point reward-per-share arithmetic.
 */
module Ledger {
  import opened Entities

  /** Scale of `accSushiPerShare`, hard-coded as in the MasterChefV2 contract. */
  const AccSushiPrecision: nat := 1_000_000_000_000

  /**
    Division of the indexer's BigInt, which truncates toward zero. Dafny's own `/` is
    Euclidean and differs for a negative dividend, which a staked amount can be here.
   */
  function TruncDiv(a: int, d: nat): (q: int)
    requires d > 0
    ensures 0 <= a ==> 0 <= q && q * d <= a < q * d + d
    ensures a < 0 ==> q <= 0 && q * d - d < a <= q * d
  {
    if a >= 0 then
      FloorBounds(a, d);
      a / d
    else
      var k := (-a) / d;
      FloorBounds(-a, d);
      NegatedProduct(k, d);
      -k
  }

  /** Euclidean division of a natural number is its floor. */
  lemma FloorBounds(n: nat, d: nat)
    requires d > 0
    ensures 0 <= n / d && (n / d) * d <= n < (n / d) * d + d
  {
    assert n == d * (n / d) + n % d;
  }

  lemma NegatedProduct(k: int, d: int)
    ensures (-k) * d == -(k * d)
  {
  }

  /** The reward debt `delta` staked LP tokens carry at index `acc`: floor(delta * acc / 10^12). */
  function RewardShare(delta: nat, acc: nat): (s: nat)
    ensures s * AccSushiPrecision <= delta * acc < s * AccSushiPrecision + AccSushiPrecision
  {
    delta * acc / AccSushiPrecision
  }

  /** The zero position that getOrCreateUserInfo creates and EmergencyWithdraw leaves behind. */
  const Cleared: UserInfo := UserInfo(0, 0)

  /**
    Deposit of `delta` at index `acc`: the stake grows by `delta`, and the reward debt by
    what `delta` tokens would have accrued at `acc`, rounded down.
   */
  function Credit(info: UserInfo, delta: nat, acc: nat): (r: UserInfo)
    ensures r.amount == info.amount + delta
    ensures var added := r.rewardDebt - info.rewardDebt;
            0 <= added && added * AccSushiPrecision <= delta * acc < added * AccSushiPrecision + AccSushiPrecision
  {
    UserInfo(info.amount + delta, info.rewardDebt + RewardShare(delta, acc))
  }

  /**
    Withdraw of `delta` at index `acc`: the stake shrinks by `delta` and the reward debt by the
    rounded-down accrual of `delta` tokens at `acc`; nothing stops the amount from going negative.
   */
  function Debit(info: UserInfo, delta: nat, acc: nat): (r: UserInfo)
    ensures r.amount == info.amount - delta
    ensures var removed := info.rewardDebt - r.rewardDebt;
            0 <= removed && removed * AccSushiPrecision <= delta * acc < removed * AccSushiPrecision + AccSushiPrecision
  {
    UserInfo(info.amount - delta, info.rewardDebt - RewardShare(delta, acc))
  }

  /**
    Harvest of `harvested` SUSHI: the stake stays, and at every index the claimable SUSHI
    drops by exactly the harvested amount.
   */
  function Settle(info: UserInfo, harvested: nat): (r: UserInfo)
    ensures r.amount == info.amount
    ensures forall acc: nat :: Claimable(r, acc) == Claimable(info, acc) - harvested
  {
    info.(rewardDebt := info.rewardDebt + harvested)
  }

  /**
    Claimable SUSHI: what the stake has accrued at index `acc`, amount * acc / 10^12 rounded
    toward zero as BigInt division does, less the reward debt.
   */
  function Claimable(info: UserInfo, acc: nat): (c: int)
    ensures var accrued := c + info.rewardDebt;
            info.amount >= 0 ==>
              0 <= accrued && accrued * AccSushiPrecision <= info.amount * acc < accrued * AccSushiPrecision + AccSushiPrecision
    ensures var accrued := c + info.rewardDebt;
            info.amount < 0 ==>
              accrued <= 0 && accrued * AccSushiPrecision - AccSushiPrecision < info.amount * acc <= accrued * AccSushiPrecision
  {
    TruncDiv(info.amount * acc, AccSushiPrecision) - info.rewardDebt
  }

  /** A withdrawal of what was just deposited, at the same index, restores the position. */
  lemma DebitUndoesCredit(info: UserInfo, delta: nat, acc: nat)
    ensures Debit(Credit(info, delta, acc), delta, acc) == info
  {
  }

  /** And the other way round. */
  lemma CreditUndoesDebit(info: UserInfo, delta: nat, acc: nat)
    ensures Credit(Debit(info, delta, acc), delta, acc) == info
  {
  }

  /** Floors of a sum: floor(x/P) + floor(y/P) <= floor((x+y)/P) <= floor(x/P) + floor(y/P) + 1. */
  lemma FloorOfSum(x: nat, y: nat)
    ensures x / AccSushiPrecision + y / AccSushiPrecision
         <= (x + y) / AccSushiPrecision
         <= x / AccSushiPrecision + y / AccSushiPrecision + 1
  {
  }

  /**
    A deposit leaves the claimable SUSHI of a nonnegative stake as it was, up to one unit
    of rounding in the holder's favour: the reward debt it adds is exactly what the new
    stake has accrued at the current index.
   */
  lemma CreditKeepsClaimable(info: UserInfo, delta: nat, acc: nat)
    requires info.amount >= 0
    ensures Claimable(info, acc) <= Claimable(Credit(info, delta, acc), acc) <= Claimable(info, acc) + 1
  {
    var a: nat := info.amount;
    assert (a + delta) * acc == a * acc + delta * acc;
    FloorOfSum(a * acc, delta * acc);
  }

  /** A withdrawal that the stake covers leaves the claimable SUSHI as it was, up to one unit. */
  lemma DebitKeepsClaimable(info: UserInfo, delta: nat, acc: nat)
    requires info.amount >= delta
    ensures Claimable(info, acc) - 1 <= Claimable(Debit(info, delta, acc), acc) <= Claimable(info, acc)
  {
    var rest: nat := info.amount - delta;
    assert info.amount * acc == rest * acc + delta * acc;
    FloorOfSum(rest * acc, delta * acc);
  }

  /** Harvesting exactly what is claimable leaves nothing claimable. */
  lemma SettleClearsClaimable(info: UserInfo, acc: nat)
    requires Claimable(info, acc) >= 0
    ensures Claimable(Settle(info, Claimable(info, acc)), acc) == 0
  {
  }

  /** For a nonnegative stake, a larger accrual index never means less claimable SUSHI. */
  lemma ClaimableGrowsWithIndex(info: UserInfo, acc: nat, acc': nat)
    requires info.amount >= 0 && acc <= acc'
    ensures Claimable(info, acc) <= Claimable(info, acc')
  {
    var a: nat := info.amount;
    assert a * acc' - a * acc == a * (acc' - acc);
    FloorGrows(a * acc, a * acc');
  }

  /** Division by the precision is monotone. */
  lemma FloorGrows(x: nat, y: nat)
    requires x <= y
    ensures x / AccSushiPrecision <= y / AccSushiPrecision
  {
  }

  /** One stake change of a single account, at the accrual index current when it happens. */
  datatype StakeChange = Staked(delta: nat, acc: nat) | Unstaked(delta: nat, acc: nat)

  function Apply(info: UserInfo, change: StakeChange): UserInfo
  {
    match change
    case Staked(d, acc) => Credit(info, d, acc)
    case Unstaked(d, acc) => Debit(info, d, acc)
  }

  /** A sequence of deposits and withdrawals replayed in order. */
  function Replay(info: UserInfo, changes: seq<StakeChange>): UserInfo
    decreases |changes|
  {
    if changes == [] then info else Replay(Apply(info, changes[0]), changes[1..])
  }

  /** The change in staked amount, with its sign. */
  function Signed(change: StakeChange): int
  {
    match change
    case Staked(d, _) => d
    case Unstaked(d, _) => -(d as int)
  }

  /** The change in reward debt, with its sign, taken at the change's own index. */
  function SignedShare(change: StakeChange): int
  {
    match change
    case Staked(d, acc) => RewardShare(d, acc)
    case Unstaked(d, acc) => -(RewardShare(d, acc) as int)
  }

  /** Signed sum of the staked amounts. */
  function NetStaked(changes: seq<StakeChange>): int
    decreases |changes|
  {
    if changes == [] then 0 else Signed(changes[0]) + NetStaked(changes[1..])
  }

  /** Signed sum of the reward shares, each rounded down on its own, at its own index. */
  function NetShares(changes: seq<StakeChange>): int
    decreases |changes|
  {
    if changes == [] then 0 else SignedShare(changes[0]) + NetShares(changes[1..])
  }

  /**
    Replaying deposits and withdrawals, whatever the index at each of them, leaves the staked
    amount at the signed sum of the changes and the reward debt at the signed sum of their
    shares, each floored at the index current when it happened.
   */
  lemma {:induction false} ReplayIsSignedSum(info: UserInfo, changes: seq<StakeChange>)
    ensures Replay(info, changes) == UserInfo(info.amount + NetStaked(changes), info.rewardDebt + NetShares(changes))
    decreases |changes|
  {
    if changes != [] {
      ReplayIsSignedSum(Apply(info, changes[0]), changes[1..]);
    }
  }

  /** No prefix of the changes takes the stake, starting at `amount`, below zero. */
  predicate NeverOverdrawn(amount: int, changes: seq<StakeChange>)
    decreases |changes|
  {
    amount >= 0
    && (changes != [] ==>
          NeverOverdrawn(amount + Signed(changes[0]), changes[1..]))
  }

  /**
    At a fixed index, a replay that never overdraws keeps the claimable SUSHI within one
    unit per change of where it started: position changes neither create nor destroy
    accrued rewards beyond rounding.
   */
  lemma {:induction false} ReplayKeepsClaimable(info: UserInfo, changes: seq<StakeChange>, acc: nat)
    requires NeverOverdrawn(info.amount, changes)
    requires forall k :: 0 <= k < |changes| ==> changes[k].acc == acc
    ensures Claimable(info, acc) - |changes| <= Claimable(Replay(info, changes), acc) <= Claimable(info, acc) + |changes|
    ensures Replay(info, changes).amount >= 0
    decreases |changes|
  {
    if changes != [] {
      match changes[0] {
        case Staked(d, _) => CreditKeepsClaimable(info, d, acc);
        case Unstaked(d, _) => DebitKeepsClaimable(info, d, acc);
      }
      assert forall k :: 0 <= k < |changes[1..]| ==> changes[1..][k].acc == changes[k + 1].acc;
      ReplayKeepsClaimable(Apply(info, changes[0]), changes[1..], acc);
    }
  }

  /** The indices `acc`, then those of the changes, then `final`, never decrease. */
  predicate Rising(acc: nat, changes: seq<StakeChange>, final: nat)
    decreases |changes|
  {
    if changes == [] then acc <= final
    else acc <= changes[0].acc && Rising(changes[0].acc, changes[1..], final)
  }

  /**
    While the accrual index only rises, deposits and withdrawals that never overdraw lose
    at most one unit of claimable SUSHI each (to rounding): rewards accrued before a change
    are still claimable after it, at any later index.
   */
  lemma {:induction false} ReplayKeepsAccrued(info: UserInfo, changes: seq<StakeChange>, acc: nat, final: nat)
    requires NeverOverdrawn(info.amount, changes)
    requires Rising(acc, changes, final)
    ensures Claimable(Replay(info, changes), final) >= Claimable(info, acc) - |changes|
    decreases |changes|
  {
    if changes == [] {
      ClaimableGrowsWithIndex(info, acc, final);
    } else {
      var c := changes[0];
      ClaimableGrowsWithIndex(info, acc, c.acc);
      match c {
        case Staked(d, at) => CreditKeepsClaimable(info, d, at);
        case Unstaked(d, at) => DebitKeepsClaimable(info, d, at);
      }
      ReplayKeepsAccrued(Apply(info, c), changes[1..], c.acc, final);
    }
  }
}
