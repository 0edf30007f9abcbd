/** The values the relay node works with: ids, statuses, table rows, configuration. */
module Types {
  type Addr = nat
  type ChainId = nat
  type Token = nat
  type HashLock = nat
  type Preimage = nat

  /** Instants since the epoch and durations, in nanoseconds as in Go's time package. */
  type Time = int

  const SECOND: Time := 1_000_000_000
  const MINUTE: Time := 60 * SECOND
  const HOUR: Time := 60 * MINUTE

  // server/dal.go:17,19 and the literals of server/server.go
  const TIME_LOCK_SAFE_MARGIN: Time := 6 * MINUTE
  const MAX_PENDING_RETRY: Time := 15 * MINUTE
  const SEND_MARGIN: Time := HOUR
  const MIN_SRC_TIMEOUT: int := 16 * 3600
  const LOCK_GAP: int := 8 * 3600

  const TWO63: int := 0x8000_0000_0000_0000
  const TWO64: int := 0x1_0000_0000_0000_0000

  /** The zero 32-byte value an empty `preimage` column decodes to. */
  const ZERO_HASH: Preimage := 0

  /** Whole seconds of an instant, as Go's Time.Unix. */
  function Unix(t: Time): int {
    t / SECOND
  }

  datatype Option<+T> = None | Some(value: T)

  /** A transfer id: keccak of (sender, receiver, hash lock, chain), taken to be injective. */
  datatype Tid = Tid(sender: Addr, receiver: Addr, lock: HashLock, chain: ChainId)

  datatype TransferType = TransferOut | TransferIn

  /** The `status` column. */
  datatype Status =
    | Locked
    | Confirmed
    | Refunded
    | InStart
    | InPending
    | ConfirmPending
    | RefundPending

  /** One row of the `transfer` table; the transaction-hash columns are never read and are absent. */
  datatype Row = Row(
    tid: Tid,
    kind: TransferType,
    chainId: ChainId,
    token: Token,
    timeLock: Time,
    hashLock: HashLock,
    status: Status,
    relTid: Tid,
    relChain: ChainId,
    relToken: Token,
    amount: int,
    fee: int,
    transferGas: int,
    confirmGas: int,
    refundGas: int,
    preimage: Option<Preimage>,
    sender: Addr,
    receiver: Addr,
    updateTs: Time,
    createTs: Time)
  {
    /** Amount before the fee was taken; what a retry starts from again. */
    function Total(): int {
      amount + fee
    }

    /** The preimage a scan of the row yields. */
    function Decoded(): Preimage {
      if preimage.Some? then preimage.value else ZERO_HASH
    }
  }

  /** The columns nothing but an insert ever writes, and the sum every rewrite of the amount keeps. */
  ghost predicate SameIdentity(a: Row, b: Row) {
    && a.tid == b.tid && a.kind == b.kind && a.chainId == b.chainId && a.token == b.token
    && a.timeLock == b.timeLock && a.hashLock == b.hashLock
    && a.relTid == b.relTid && a.relChain == b.relChain && a.relToken == b.relToken
    && a.sender == b.sender && a.receiver == b.receiver && a.createTs == b.createTs
    && a.Total() == b.Total()
  }

  predicate Terminal(st: Status) {
    st == Confirmed || st == Refunded
  }

  /** An IN row not yet known to be on chain. */
  predicate Unsent(st: Status) {
    st == InStart || st == InPending
  }

  /** The node's configuration; `hash` stands for keccak256 on 32-byte values. */
  datatype Config = Config(
    me: Addr,
    chains: set<ChainId>,
    tokenName: map<(ChainId, Token), string>,
    tokenAddr: map<(ChainId, string), Token>,
    decimals: map<(ChainId, Token), nat>,
    hash: Preimage -> HashLock)
}
