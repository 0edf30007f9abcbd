/** The bridge contract of every chain, as an environment: what its calls do, and what a delayed read sees. */
module Ledger {
  import opened Types

  datatype ChainStatus = Undefined | Pending | Settled | Returned

  /** What the contract's creating call records besides the id. */
  datatype Origin =
    | OutLock(dstChain: ChainId, dstAddr: Addr)
    | InLock(srcChain: ChainId, srcTid: Tid)

  /**
   * One transfer on chain. `status` is its state in the newest block; `safe` is its state in the delayed block that
   * both the node's reads and its event monitors look at. `preimage` is what the settling call revealed.
   */
  datatype Deposit = Deposit(
    origin: Origin,
    token: Token,
    amount: int,
    timelock: int,
    status: ChainStatus,
    safe: ChainStatus,
    preimage: Preimage)

  /** All chains at once: a transfer lives on the chain its id names. */
  type Ledger = map<Tid, Deposit>

  predicate Precedes(a: ChainStatus, b: ChainStatus) {
    a == b || a == Undefined || (a == Pending && b != Undefined)
  }

  /** `transferOut` and `transferIn`: positive amount, lock in the future, id unused. */
  predicate CanLock(ch: Ledger, t: Tid, amount: int, timelock: int, blockTime: int) {
    t !in ch && amount > 0 && timelock > blockTime
  }

  function Lock(ch: Ledger, t: Tid, origin: Origin, token: Token, amount: int, timelock: int, blockTime: int): Ledger {
    if CanLock(ch, t, amount, timelock, blockTime)
    then ch[t := Deposit(origin, token, amount, timelock, Pending, Undefined, ZERO_HASH)]
    else ch
  }

  /** `confirm`: pending and matching hash; anyone may call it, at any time. */
  predicate CanSettle(ch: Ledger, hash: Preimage -> HashLock, t: Tid, p: Preimage) {
    t in ch && ch[t].status == Pending && hash(p) == t.lock
  }

  function Settle(ch: Ledger, hash: Preimage -> HashLock, t: Tid, p: Preimage): Ledger {
    if CanSettle(ch, hash, t, p) then ch[t := ch[t].(status := Settled, preimage := p)] else ch
  }

  /** `refund`: pending and past its lock; anyone may call it. */
  predicate CanReturn(ch: Ledger, t: Tid, blockTime: int) {
    t in ch && ch[t].status == Pending && ch[t].timelock <= blockTime
  }

  function Return(ch: Ledger, t: Tid, blockTime: int): Ledger {
    if CanReturn(ch, t, blockTime) then ch[t := ch[t].(status := Returned)] else ch
  }

  /** `getTransfer`: the status of `t` on `chain` at the delayed block. */
  function ReadSafe(ch: Ledger, chain: ChainId, t: Tid): ChainStatus {
    if t in ch && t.chain == chain then ch[t].safe else Undefined
  }

  predicate Visible(ch: Ledger, t: Tid) {
    t in ch && ch[t].safe != Undefined
  }

  predicate Has(ch: Ledger, t: Tid, st: ChainStatus) {
    t in ch && ch[t].status == st
  }

  /** The terms of a deposit never change and its two statuses only move forward. */
  ghost predicate DepositGrows(a: Deposit, b: Deposit) {
    && a.origin == b.origin && a.token == b.token && a.amount == b.amount && a.timelock == b.timelock
    && Precedes(a.status, b.status) && Precedes(a.safe, b.safe)
    && (a.status == Settled ==> a.preimage == b.preimage)
  }

  ghost predicate LedgerGrows(ch: Ledger, ch': Ledger) {
    forall t :: t in ch ==> t in ch' && DepositGrows(ch[t], ch'[t])
  }
}
