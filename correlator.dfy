/**
  The transfer correlator: reward-token transfers buffered per transaction until the
  Withdraw or Harvest of that transaction consumes them.
 */
module Correlator {
  import opened Entities

  /** SushiRewardTransfer entities, keyed by transaction hash. */
  type SushiTransfers = map<TxHash, SushiRewardTransfer>

  /** ExtraRewardTokenTransfer entities, keyed by transaction hash and token. */
  type ExtraTransfers = map<ExtraTransferId, ExtraRewardTokenTransfer>

  /**
    Whether some extra-token transfer of transaction `tx` is pending for one of
    rewardTokens[i..], scanning in list order as isThereUnprocessedRewardTransfer does.
   */
  function ExtraPendingFrom(extra: ExtraTransfers, tx: TxHash, rewardTokens: seq<Address>, i: nat): (b: bool)
    ensures b <==> exists j :: i <= j < |rewardTokens| && (tx, rewardTokens[j]) in extra
    decreases |rewardTokens| - i
  {
    if i >= |rewardTokens| then false
    else (tx, rewardTokens[i]) in extra || ExtraPendingFrom(extra, tx, rewardTokens, i + 1)
  }

  /**
    The Harvest gate: a SUSHI transfer of `tx` is pending, or an extra transfer of `tx` for
    a reward token other than the first (which is SUSHI).
   */
  function IsThereUnprocessedRewardTransfer(
    sushi: SushiTransfers, extra: ExtraTransfers, tx: TxHash, rewardTokens: seq<Address>): (b: bool)
    ensures b <==> tx in sushi || exists j :: 1 <= j < |rewardTokens| && (tx, rewardTokens[j]) in extra
  {
    tx in sushi || ExtraPendingFrom(extra, tx, rewardTokens, 1)
  }

  /** The keys of `tx`'s extra transfers for rewardTokens[i..]. */
  function ExtraKeys(tx: TxHash, rewardTokens: seq<Address>, i: nat): set<ExtraTransferId>
  {
    set j | i <= j < |rewardTokens| :: (tx, rewardTokens[j])
  }

  /** The reward movement a consumed extra transfer stands for. */
  function ExtraClaim(token: Address, t: ExtraRewardTokenTransfer): TokenBalance
  {
    TokenBalance(token, t.to, t.value)
  }

  /** Position of the first occurrence of `t` in s[i..]. */
  function FirstIndex(s: seq<Address>, t: Address, i: nat): (k: nat)
    requires i <= |s| && t in s[i..]
    ensures i <= k < |s| && s[k] == t && t !in s[i..k]
    decreases |s| - i
  {
    if s[i] == t then i
    else
      assert t in s[i + 1..] by { assert s[i..] == [s[i]] + s[i + 1..]; }
      var k := FirstIndex(s, t, i + 1);
      assert s[i..k] == [s[i]] + s[i + 1..k];
      k
  }

  /**
    The extras loop of getHarvestedRewards from index `i` on: every rewardTokens[j] whose
    transfer of `tx` is still pending is turned into a claim and deleted. A token listed
    twice is claimed once, at its first occurrence.
   */
  function DrainExtras(extra: ExtraTransfers, tx: TxHash, rewardTokens: seq<Address>, i: nat)
    : (r: (ExtraTransfers, seq<TokenBalance>))
    ensures r.0 == extra - ExtraKeys(tx, rewardTokens, i)
    decreases |rewardTokens| - i
  {
    if i >= |rewardTokens| then
      assert ExtraKeys(tx, rewardTokens, i) == {};
      (extra, [])
    else
      var key := (tx, rewardTokens[i]);
      assert ExtraKeys(tx, rewardTokens, i) == {key} + ExtraKeys(tx, rewardTokens, i + 1);
      if key in extra then
        var rest := DrainExtras(extra - {key}, tx, rewardTokens, i + 1);
        (rest.0, [ExtraClaim(rewardTokens[i], extra[key])] + rest.1)
      else
        DrainExtras(extra, tx, rewardTokens, i + 1)
  }

  /**
    The claims of the extras loop are exactly the pending transfers of `tx` for
    rewardTokens[i..], each claimed once, under its own token.
   */
  lemma {:induction false} DrainExtrasClaims(extra: ExtraTransfers, tx: TxHash, rewardTokens: seq<Address>, i: nat)
    ensures var r := DrainExtras(extra, tx, rewardTokens, i);
            && (forall c :: c in r.1 ==>
                  exists j :: i <= j < |rewardTokens| && (tx, rewardTokens[j]) in extra
                              && c == ExtraClaim(rewardTokens[j], extra[(tx, rewardTokens[j])]))
            && (forall j :: i <= j < |rewardTokens| && (tx, rewardTokens[j]) in extra ==>
                  ExtraClaim(rewardTokens[j], extra[(tx, rewardTokens[j])]) in r.1)
            && (forall c :: c in r.1 ==> c.token in rewardTokens[i..] && (tx, c.token) in extra)
    decreases |rewardTokens| - i
  {
    if i < |rewardTokens| {
      var key := (tx, rewardTokens[i]);
      assert rewardTokens[i..] == [rewardTokens[i]] + rewardTokens[i + 1..];
      if key in extra {
        DrainExtrasClaims(extra - {key}, tx, rewardTokens, i + 1);
      } else {
        DrainExtrasClaims(extra, tx, rewardTokens, i + 1);
      }
    }
  }

  /** The claims of the extras loop follow the order of first occurrence in rewardTokens. */
  lemma {:induction false} DrainExtrasInListOrder(extra: ExtraTransfers, tx: TxHash, rewardTokens: seq<Address>, i: nat)
    ensures var r := DrainExtras(extra, tx, rewardTokens, i);
            && (forall c :: c in r.1 ==> i <= |rewardTokens| && c.token in rewardTokens[i..])
            && (forall a, b :: 0 <= a < b < |r.1| ==>
                  FirstIndex(rewardTokens, r.1[a].token, i) < FirstIndex(rewardTokens, r.1[b].token, i))
    decreases |rewardTokens| - i
  {
    if i < |rewardTokens| {
      var key := (tx, rewardTokens[i]);
      if key in extra {
        DrainExtrasInListOrder(extra - {key}, tx, rewardTokens, i + 1);
        DrainExtrasClaims(extra - {key}, tx, rewardTokens, i + 1);
        FirstIndexesShift(rewardTokens, DrainExtras(extra - {key}, tx, rewardTokens, i + 1).1, i);
      } else {
        DrainExtrasInListOrder(extra, tx, rewardTokens, i + 1);
        DrainExtrasClaims(extra, tx, rewardTokens, i + 1);
        FirstIndexesShift(rewardTokens, DrainExtras(extra, tx, rewardTokens, i + 1).1, i);
      }
    }
  }

  /** One round of the extras loop. */
  lemma DrainExtrasStep(extra: ExtraTransfers, tx: TxHash, rewardTokens: seq<Address>, i: nat)
    requires i < |rewardTokens|
    ensures (tx, rewardTokens[i]) in extra ==>
              var rest := DrainExtras(extra - {(tx, rewardTokens[i])}, tx, rewardTokens, i + 1);
              DrainExtras(extra, tx, rewardTokens, i)
              == (rest.0, [ExtraClaim(rewardTokens[i], extra[(tx, rewardTokens[i])])] + rest.1)
    ensures (tx, rewardTokens[i]) !in extra ==>
              DrainExtras(extra, tx, rewardTokens, i) == DrainExtras(extra, tx, rewardTokens, i + 1)
  {
  }

  /** Tokens that occur after index i and differ from s[i] have the same first occurrence from i and from i + 1. */
  lemma FirstIndexesShift(s: seq<Address>, claims: seq<TokenBalance>, i: nat)
    requires i < |s|
    requires forall c :: c in claims ==> c.token in s[i + 1..] && c.token != s[i]
    ensures forall c :: c in claims ==> c.token in s[i..] && FirstIndex(s, c.token, i) == FirstIndex(s, c.token, i + 1)
  {
    assert s[i..] == [s[i]] + s[i + 1..];
  }

  /** What getHarvestedRewards leaves behind and what it reports as harvested. */
  datatype Harvested = Harvested(sushi: SushiTransfers, extra: ExtraTransfers, claimed: seq<TokenBalance>)

  /**
    getHarvestedRewards: consume the SUSHI transfer of `tx`, reported under rewardTokens[0],
    then the extra transfers of `tx` for rewardTokens[1..] in list order.
   */
  function Drain(sushi: SushiTransfers, extra: ExtraTransfers, tx: TxHash, rewardTokens: seq<Address>): (h: Harvested)
    requires |rewardTokens| >= 1
    ensures h.sushi == sushi - {tx}
    ensures h.extra == extra - ExtraKeys(tx, rewardTokens, 1)
    ensures tx in sushi ==>
              |h.claimed| >= 1 && h.claimed[0] == TokenBalance(rewardTokens[0], sushi[tx].to, sushi[tx].value)
              && h.claimed[1..] == DrainExtras(extra, tx, rewardTokens, 1).1
    ensures tx !in sushi ==> h.claimed == DrainExtras(extra, tx, rewardTokens, 1).1
  {
    var extras := DrainExtras(extra, tx, rewardTokens, 1);
    var first := if tx in sushi then [TokenBalance(rewardTokens[0], sushi[tx].to, sushi[tx].value)] else [];
    Harvested(sushi - {tx}, extras.0, first + extras.1)
  }

  /** After a drain nothing of `tx` is pending, so a later Harvest of `tx` for the same market is a no-op. */
  lemma DrainLeavesNothingPending(sushi: SushiTransfers, extra: ExtraTransfers, tx: TxHash, rewardTokens: seq<Address>)
    requires |rewardTokens| >= 1
    ensures !IsThereUnprocessedRewardTransfer(
              Drain(sushi, extra, tx, rewardTokens).sushi, Drain(sushi, extra, tx, rewardTokens).extra, tx, rewardTokens)
  {
    var h := Drain(sushi, extra, tx, rewardTokens);
    forall j | 1 <= j < |rewardTokens| ensures (tx, rewardTokens[j]) !in h.extra {
      assert (tx, rewardTokens[j]) in ExtraKeys(tx, rewardTokens, 1);
    }
  }

  /** With nothing of `tx` pending for rewardTokens[i..], the extras loop changes nothing. */
  lemma {:induction false} DrainExtrasWithNothingPending(extra: ExtraTransfers, tx: TxHash, rewardTokens: seq<Address>, i: nat)
    requires !ExtraPendingFrom(extra, tx, rewardTokens, i)
    ensures DrainExtras(extra, tx, rewardTokens, i) == (extra, [])
    decreases |rewardTokens| - i
  {
    if i < |rewardTokens| {
      DrainExtrasWithNothingPending(extra, tx, rewardTokens, i + 1);
    }
  }

  /** When nothing of `tx` is pending, a drain changes nothing and claims nothing. */
  lemma DrainWithNothingPending(sushi: SushiTransfers, extra: ExtraTransfers, tx: TxHash, rewardTokens: seq<Address>)
    requires |rewardTokens| >= 1
    requires !IsThereUnprocessedRewardTransfer(sushi, extra, tx, rewardTokens)
    ensures Drain(sushi, extra, tx, rewardTokens) == Harvested(sushi, extra, [])
  {
    DrainExtrasWithNothingPending(extra, tx, rewardTokens, 1);
    assert sushi - {tx} == sushi;
  }

  /** Entries of other transactions are never touched by a drain of `tx`. */
  lemma DrainKeepsOtherTransactions(
    sushi: SushiTransfers, extra: ExtraTransfers, tx: TxHash, rewardTokens: seq<Address>, other: TxHash, token: Address)
    requires |rewardTokens| >= 1 && other != tx
    ensures other in sushi ==> other in Drain(sushi, extra, tx, rewardTokens).sushi
                               && Drain(sushi, extra, tx, rewardTokens).sushi[other] == sushi[other]
    ensures (other, token) in extra ==> (other, token) in Drain(sushi, extra, tx, rewardTokens).extra
                                        && Drain(sushi, extra, tx, rewardTokens).extra[(other, token)] == extra[(other, token)]
  {
  }
}
