/**
  The entities of the SushiSwap MasterChefV2 farm subgraph and the events it consumes.

  Addresses, transaction hashes, pool ids and log indices are abstract keys; the hex-string
  ids of the entity store become tuples of them.
 */
module Entities {

  type Address = nat
  type TxHash = nat
  type Pid = nat
  type LogIndex = nat

  /** A Market is keyed by its MasterChef and the pool id. */
  type MarketId = (Address, Pid)
  /** A UserInfo is keyed by the account and the pool id. */
  type UserInfoId = (Address, Pid)
  /** Audit rows and snapshots are keyed by transaction hash and log index. */
  type EventId = (TxHash, LogIndex)
  /** A pending extra-token reward transfer is keyed by transaction hash and token. */
  type ExtraTransferId = (TxHash, Address)

  datatype Block = Block(number: nat, timestamp: nat)

  datatype Transaction = Transaction(hash: TxHash, index: nat)

  /** What every event carries: the emitting contract, its block, transaction and log index. */
  datatype EventMeta = EventMeta(address: Address, block: Block, transaction: Transaction, logIndex: LogIndex)

  function IdOf(meta: EventMeta): EventId
  {
    (meta.transaction.hash, meta.logIndex)
  }

  /** A staking pool of a MasterChef; `accSushiPerShare` is fixed-point with scale 10^12. */
  datatype SushiFarm = SushiFarm(
    masterChef: Address,
    rewarder: Address,
    allocPoint: nat,
    created: nat,
    createdAtBlock: nat,
    createdAtTransaction: TxHash,
    totalSupply: nat,
    lpToken: Address,
    lastRewardBlock: nat,
    accSushiPerShare: nat)

  /** Staked LP amount and reward debt of one account in one farm; nothing keeps either nonnegative. */
  datatype UserInfo = UserInfo(amount: int, rewardDebt: int)

  datatype FarmDeposit = FarmDeposit(
    transactionHash: TxHash, sushiFarm: Pid, depositer: Address, depositReceiver: Address, amount: nat)

  datatype FarmWithdrawal = FarmWithdrawal(
    transactionHash: TxHash, sushiFarm: Pid, withdrawer: Address, withdrawalReceiver: Address, amount: nat)

  datatype SushiFarmSnapshot = SushiFarmSnapshot(
    sushiFarm: Pid,
    allocPoint: nat,
    totalSupply: nat,
    timestamp: nat,
    transactionHash: TxHash,
    transactionIndexInBlock: nat,
    blockNumber: nat,
    logIndex: LogIndex)

  /** A SUSHI transfer out of a MasterChef, waiting for the Withdraw or Harvest of its transaction. */
  datatype SushiRewardTransfer = SushiRewardTransfer(from: Address, to: Address, value: nat, transactionHash: TxHash)

  /** A transfer out of a Rewarder, waiting for the Withdraw or Harvest of its transaction. */
  datatype ExtraRewardTokenTransfer = ExtraRewardTokenTransfer(
    rewardToken: Address, from: Address, to: Address, value: nat, transactionHash: TxHash)

  /** The (token, account, amount) triple the market-accounting library consumes. */
  datatype TokenBalance = TokenBalance(token: Address, account: Address, amount: int)

  /** The arguments of investInMarket / redeemFromMarket. */
  datatype PositionReport = PositionReport(
    account: Address,
    market: MarketId,
    outputTokenAmount: int,
    inputTokenAmounts: seq<TokenBalance>,
    rewardTokenAmounts: seq<TokenBalance>,
    outputTokenBalance: int,
    inputTokenBalances: seq<TokenBalance>,
    rewardTokenBalances: seq<TokenBalance>)

  /** What a handler hands to the market-accounting library, returned instead of called. */
  datatype Report =
    | Invest(position: PositionReport)
    | Redeem(position: PositionReport)
    | MarketUpdate(market: MarketId, inputTokenBalances: seq<TokenBalance>, outputTokenTotalSupply: int)

  /** Why a handler aborts: an entity it loads is missing and a field of it is read. */
  datatype Fault = MissingFarm | MissingMarket | MissingUserInfo

  /** Deposit, Withdraw and EmergencyWithdraw share one shape. */
  datatype PositionEvent = PositionEvent(meta: EventMeta, pid: Pid, user: Address, to: Address, amount: nat)

  datatype HarvestEvent = HarvestEvent(meta: EventMeta, pid: Pid, user: Address, amount: nat)

  datatype PoolAdditionEvent = PoolAdditionEvent(
    meta: EventMeta, pid: Pid, allocPoint: nat, lpToken: Address, rewarder: Address)

  datatype UpdatePoolEvent = UpdatePoolEvent(
    meta: EventMeta, pid: Pid, lastRewardBlock: nat, lpSupply: nat, accSushiPerShare: nat)

  datatype SetPoolEvent = SetPoolEvent(
    meta: EventMeta, pid: Pid, allocPoint: nat, rewarder: Address, overwrite: bool)

  /** An ERC-20 Transfer of a reward token; `meta.address` is the token. */
  datatype TransferEvent = TransferEvent(meta: EventMeta, from: Address, to: Address, value: nat)

  /** The Market a MasterChef event refers to. */
  function MarketOf(meta: EventMeta, pid: Pid): MarketId
  {
    (meta.address, pid)
  }
}
