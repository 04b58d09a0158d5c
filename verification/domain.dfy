/** The values the wager protocol is about: the rows of its tables and the vocabulary
    of the operations on them. Each row datatype lists the columns of one table. */
module Domain {

  datatype Option<+T> = None | Some(value: T)

  /** Identities are abstract numbers; NIL is the all-zero UUID. */
  type Uuid = nat
  const NIL: Uuid := 0

  /** Provider-chosen text: identities, keys, rounds, games and currency codes. */
  type Name = string
  const NO_NAME: Name := ""

  /** Instants of an abstract clock; 0 is the zero instant. */
  type Time = int

  const MAX_INT64: int := 0x7FFF_FFFF_FFFF_FFFF
  const MIN_INT64: int := -0x8000_0000_0000_0000

  /** REFERENCE_MAX_ATTEMPTS: every result holds for each positive setting. */
  type Limit = n: nat | 1 <= n witness 10
  const MAX_ATTEMPTS: Limit

  datatype Kind = Opening | Bet | Win | Loss | Refund | Rollback {
    predicate IsReversal() { Refund? || Rollback? }
  }

  datatype Status = Pending | PendingReference | Processed | Rejected | Failed {
    predicate IsTerminal() { Processed? || Rejected? || Failed? }
  }

  datatype Origin = Internal | External

  datatype Direction = Debit | Credit

  /** The failure codes a rejection can store. */
  datatype Code =
    | InsufficientFunds
    | ReversalInsufficientFunds
    | ReferenceNotFound
    | ReferenceNotProcessed
    | ReferenceMismatch
    | ReferenceAmountMismatch
    | ReversalConflict
    | WalletPlayerMismatch
    | CurrencyMismatch

  datatype WalletRow = WalletRow(
    id: Uuid,
    player: Uuid,
    currency: Name,
    balance: int,
    version: int,
    createdAt: Time,
    updatedAt: Time)

  /** The business fields of an operation. */
  datatype Payload = Payload(
    provider: Name,
    external: Name,
    player: Uuid,
    wallet: Uuid,
    round: Name,
    game: Name,
    kind: Kind,
    amount: int,
    currency: Name,
    reference: Name)

  /** The columns of a transaction row that no statement ever updates. */
  datatype Terms = Terms(origin: Origin, key: Name, payload: Payload, createdAt: Time)

  datatype TxRow = TxRow(
    terms: Terms,
    status: Status,
    failure: Option<Code>,
    reference: Option<Uuid>,
    result: Option<int>,
    attempts: nat,
    due: Option<Time>,
    updatedAt: Time)

  datatype EntryRow = EntryRow(
    id: Uuid,
    wallet: Uuid,
    tx: Uuid,
    direction: Direction,
    amount: int,
    before: int,
    after: int,
    createdAt: Time)

  datatype Event =
    | BalanceChanged(wallet: Uuid, cause: Uuid, direction: Direction, amount: int,
                     before: int, after: int, version: int)
    | TxProcessed(tx: Uuid, balance: int)
    | TxRejected(tx: Uuid, code: Code)
    | TxPendingReference(tx: Uuid, attempt: nat, next: Time)

  /** A row of the outbox as the service inserts it. */
  datatype OutboxRow = OutboxRow(id: Uuid, event: Event, occurredAt: Time)

  /** The ids a commit gives to the rows it adds: the ledger entry, the balance event and the
      transaction event. */
  datatype Ids = Ids(entry: Uuid, moved: Uuid, told: Uuid)

  /** A queue message body. The SHA-256 kept in the inbox is taken to tell bodies apart,
      so the inbox row holds the body itself. */
  datatype Body =
    | Malformed(text: Name)
    | Request(messageId: Name, key: Name, payload: Payload, text: Name)

  datatype InboxRow = InboxRow(body: Body, completed: bool)

  /** A claimed inbox message: its id and body. */
  datatype Delivery = Delivery(message: Name, body: Body)

  /** The committed contents of the tables. */
  datatype Db = Db(
    wallets: map<Uuid, WalletRow>,
    txs: map<Uuid, TxRow>,
    ledger: seq<EntryRow>,
    outbox: seq<OutboxRow>,
    inbox: map<Name, InboxRow>)

  function Signed(e: EntryRow): int {
    if e.direction == Credit then e.amount else -e.amount
  }
}
