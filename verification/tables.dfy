/** The tables and the one way they change: an atomic commit, guarded by the constraints
    of the schema. A commit records the operation, the wallet row it had read and the plan
    it had made, so that the rows it writes are functions of it. */
module Tables {
  import opened Domain
  import opened Rules

  // ----- lookups ------------------------------------------------------------------

  predicate Names(r: TxRow, provider: Name, external: Name) {
    r.terms.origin == External && r.terms.payload.provider == provider && r.terms.payload.external == external
  }

  predicate HoldsKey(r: TxRow, provider: Name, key: Name) {
    r.terms.origin == External && r.terms.payload.provider == provider && r.terms.key == key
  }

  predicate Reverses(r: TxRow, ref: Uuid, kind: Kind) {
    r.status == Processed && r.reference == Some(ref) && r.terms.payload.kind == kind
  }

  predicate HasReversal(txs: map<Uuid, TxRow>, ref: Uuid, kind: Kind) {
    exists id :: id in txs && Reverses(txs[id], ref, kind)
  }

  /** The answer of a SELECT by (provider, external id). */
  predicate Found(txs: map<Uuid, TxRow>, provider: Name, external: Name, found: Option<Uuid>) {
    match found
    case Some(id) => id in txs && Names(txs[id], provider, external)
    case None => forall id :: id in txs ==> !Names(txs[id], provider, external)
  }

  predicate FoundKey(txs: map<Uuid, TxRow>, provider: Name, key: Name, found: Option<Uuid>) {
    match found
    case Some(id) => id in txs && HoldsKey(txs[id], provider, key)
    case None => forall id :: id in txs ==> !HoldsKey(txs[id], provider, key)
  }

  // ----- operations and commits ---------------------------------------------------

  /** A transaction attempt: a fresh one inserts `row`, a resumed one has claimed it. `ended`
      are the transactions that had come to an end when the attempt began. */
  datatype Op = Op(id: Uuid, isNew: bool, row: TxRow, ended: set<Uuid>) {
    function Payload(): Payload { row.terms.payload }
  }

  function Ended(txs: map<Uuid, TxRow>): set<Uuid> {
    set id | id in txs && txs[id].status.IsTerminal()
  }

  predicate EndedHolds(txs: map<Uuid, TxRow>, ended: set<Uuid>) {
    forall id :: id in ended ==> id in txs && txs[id].status.IsTerminal()
  }

  /** When the attempt began nothing of that name had ended. */
  predicate WasOpen(txs: map<Uuid, TxRow>, ended: set<Uuid>, provider: Name, external: Name) {
    forall id :: id in ended && id in txs ==> !Names(txs[id], provider, external)
  }

  function PendingRow(key: Name, p: Payload, now: Time): TxRow {
    TxRow(Terms(External, key, p, now), Pending, None, None, None, 0, None, now)
  }

  datatype Commit =
    | Opened(wallet: WalletRow, tx: Uuid, ids: Ids)
    | Settled(op: Op, seen: WalletRow, plan: Plan, now: Time, ids: Ids, next: Time,
              delivery: Option<Delivery>)
    | Replayed(again: Delivery)
  {
    /** True if the commit posts an entry to a ledger. */
    predicate Posts() {
      match this
      case Opened(w, _, _) => 0 < w.balance
      case Settled(op, seen, plan, _, _, _, _) =>
        plan.Move? && 0 <= Moved(seen.balance, plan.direction, op.Payload().amount)
      case Replayed(_) => false
    }

    function Posting(): EntryRow
      requires Posts()
    {
      match this
      case Opened(w, tx, ids) => EntryRow(ids.entry, w.id, tx, Credit, w.balance, 0, w.balance, w.createdAt)
      case Settled(op, seen, plan, now, ids, _, _) =>
        EntryRow(ids.entry, seen.id, op.id, plan.direction, op.Payload().amount, seen.balance,
                 Moved(seen.balance, plan.direction, op.Payload().amount), now)
    }

    /** An opening without a positive balance and a replayed delivery write no transaction. */
    predicate WritesTx() { Settled? || (Opened? && 0 < wallet.balance) }

    function TxId(): Uuid
      requires WritesTx()
    {
      if Opened? then tx else op.id
    }

    /** The transaction row after the commit. */
    function Row(): TxRow
      requires WritesTx()
    {
      match this
      case Opened(w, _, _) => OpeningRow(w)
      case Settled(op, seen, plan, now, _, next, _) =>
        match plan
        case Accept => Finished(op.row, seen.balance, None, now)
        case Deny(code) => Refused(op.row, code, Some(seen.balance), now)
        case Park =>
          if MAX_ATTEMPTS <= op.row.attempts + 1 then Refused(op.row, ReferenceNotFound, None, now)
          else Parked(op.row, next, now)
        case Move(direction, reference) =>
          if Posts() then Finished(op.row, Posting().after, reference, now)
          else Refused(op.row, FundsCode(op.Payload().kind), Some(seen.balance), now)
    }
  }

  function Finished(r: TxRow, balance: int, reference: Option<Uuid>, now: Time): TxRow {
    r.(status := Processed, result := Some(balance), failure := None, due := None, updatedAt := now,
       reference := reference)
  }

  function Refused(r: TxRow, code: Code, balance: Option<int>, now: Time): TxRow {
    r.(status := Rejected, failure := Some(code), result := balance, due := None, updatedAt := now)
  }

  function Parked(r: TxRow, next: Time, now: Time): TxRow {
    r.(status := PendingReference, attempts := r.attempts + 1, due := Some(next), updatedAt := now)
  }

  function OpeningRow(w: WalletRow): TxRow {
    TxRow(Terms(Internal, NO_NAME,
                Payload(NO_NAME, NO_NAME, w.player, w.id, NO_NAME, NO_NAME, Opening, w.balance, w.currency, NO_NAME),
                w.createdAt),
          Processed, None, None, Some(w.balance), 0, None, w.createdAt)
  }

  // ----- the schema's guards ------------------------------------------------------

  predicate EntryIdFree(ledger: seq<EntryRow>, id: Uuid) {
    forall i :: 0 <= i < |ledger| ==> ledger[i].id != id
  }

  predicate UnpostedIn(ledger: seq<EntryRow>, wallet: Uuid, tx: Uuid) {
    forall i :: 0 <= i < |ledger| ==> !(ledger[i].wallet == wallet && ledger[i].tx == tx)
  }

  /** Keys and constraints a new row of wager_transactions must respect. */
  predicate Insertable(db: Db, id: Uuid, r: TxRow) {
    && id !in db.txs
    && r.terms.payload.wallet in db.wallets
    && Found(db.txs, r.terms.payload.provider, r.terms.payload.external, None)
    && FoundKey(db.txs, r.terms.payload.provider, r.terms.key, None)
  }

  predicate EventIdFree(outbox: seq<OutboxRow>, id: Uuid) {
    forall i :: 0 <= i < |outbox| ==> outbox[i].id != id
  }

  /** The key of the outbox. */
  predicate EventsFresh(outbox: seq<OutboxRow>, c: Commit) {
    && (c.Posts() ==> EventIdFree(outbox, c.ids.moved) && c.ids.moved != c.ids.told)
    && (c.WritesTx() ==> EventIdFree(outbox, c.ids.told))
  }

  /** The version guard of the balance update and the keys of the ledger. */
  predicate Postable(db: Db, e: EntryRow, version: int) {
    && e.wallet in db.wallets
    && db.wallets[e.wallet].version == version
    && db.wallets[e.wallet].createdAt <= e.createdAt
    && EntryIdFree(db.ledger, e.id)
    && UnpostedIn(db.ledger, e.wallet, e.tx)
  }

  /** The partial unique index on (reference, kind) of processed reversals. */
  predicate ReversalFree(db: Db, id: Uuid, r: TxRow) {
    r.status == Processed && r.reference.Some? && r.terms.payload.kind.IsReversal() ==>
      forall k :: k in db.txs && k != id ==> !Reverses(db.txs[k], r.reference.value, r.terms.payload.kind)
  }

  /** Every check PostgreSQL makes of the statements of one commit. */
  predicate Passes(db: Db, c: Commit) {
    match c
    case Opened(w, tx, ids) =>
      && w.id !in db.wallets
      && (forall k :: k in db.wallets ==> !(db.wallets[k].player == w.player && db.wallets[k].currency == w.currency))
      && (0 < w.balance ==> tx !in db.txs && EntryIdFree(db.ledger, ids.entry))
      && EventsFresh(db.outbox, c)
    case Settled(op, seen, plan, now, _, _, delivery) =>
      && (if op.isNew then Insertable(db, op.id, op.row)
          else op.id in db.txs && !db.txs[op.id].status.IsTerminal())
      && (c.Posts() ==> Postable(db, c.Posting(), seen.version) && c.Posting().after <= MAX_INT64)
      && ReversalFree(db, op.id, c.Row())
      && EventsFresh(db.outbox, c)
      && (delivery.Some? ==> delivery.value.message !in db.inbox)
    case Replayed(delivery) => delivery.message !in db.inbox
  }

  // ----- the effect of a commit ---------------------------------------------------

  /** WakeDependents: rows parked on a transaction that has just been processed. */
  predicate Waits(r: TxRow, provider: Name, external: Name) {
    r.status == PendingReference && r.terms.payload.provider == provider && r.terms.payload.reference == external
  }

  function Woken(r: TxRow, provider: Name, external: Name, now: Time): TxRow {
    if Waits(r, provider, external) then r.(due := Some(now), updatedAt := now) else r
  }

  function WakeDependents(txs: map<Uuid, TxRow>, provider: Name, external: Name, now: Time): map<Uuid, TxRow> {
    map id | id in txs :: Woken(txs[id], provider, external, now)
  }

  predicate Wakes(c: Commit) {
    c.Settled? && c.Row().status == Processed
  }

  function TxsAfter(txs: map<Uuid, TxRow>, c: Commit): map<Uuid, TxRow> {
    if !c.WritesTx() then txs
    else if Wakes(c) then
      WakeDependents(txs[c.op.id := c.Row()], c.op.Payload().provider, c.op.Payload().external, c.now)
    else txs[c.TxId() := c.Row()]
  }

  function Bumped(w: WalletRow, balance: int, now: Time): WalletRow {
    w.(balance := balance, version := w.version + 1, updatedAt := now)
  }

  function WalletsAfter(wallets: map<Uuid, WalletRow>, c: Commit): map<Uuid, WalletRow> {
    if c.Opened? then wallets[c.wallet.id := c.wallet]
    else if c.Posts() && c.seen.id in wallets then
      wallets[c.seen.id := Bumped(wallets[c.seen.id], c.Posting().after, c.now)]
    else wallets
  }

  function LedgerAfter(ledger: seq<EntryRow>, c: Commit): seq<EntryRow> {
    if c.Posts() then ledger + [c.Posting()] else ledger
  }

  function PostingEvents(c: Commit): seq<Event> {
    if !c.Posts() then []
    else
      var e := c.Posting();
      [BalanceChanged(e.wallet, e.tx, e.direction, e.amount, e.before, e.after,
                      if c.Opened? then c.wallet.version else c.seen.version + 1)]
  }

  function TxEvents(c: Commit): seq<Event> {
    if !c.WritesTx() then []
    else
      match c.Row().status
      case Processed => if c.Row().result.Some? then [TxProcessed(c.TxId(), c.Row().result.value)] else []
      case Rejected => if c.Row().failure.Some? then [TxRejected(c.TxId(), c.Row().failure.value)] else []
      case _ => [TxPendingReference(c.TxId(), c.Row().attempts, if c.Row().due.Some? then c.Row().due.value else 0)]
  }

  function At(events: seq<Event>, id: Uuid, now: Time): seq<OutboxRow> {
    seq(|events|, i requires 0 <= i < |events| => OutboxRow(id, events[i], now))
  }

  function BalanceRows(c: Commit): seq<OutboxRow> {
    if c.Replayed? then [] else At(PostingEvents(c), c.ids.moved, CommitTime(c))
  }

  function TxRows(c: Commit): seq<OutboxRow> {
    if c.Replayed? then [] else At(TxEvents(c), c.ids.told, CommitTime(c))
  }

  function CommitTime(c: Commit): Time {
    if c.Opened? then c.wallet.createdAt else if c.Settled? then c.now else 0
  }

  function InboxAfter(inbox: map<Name, InboxRow>, c: Commit): map<Name, InboxRow> {
    match c
    case Opened(_, _, _) => inbox
    case Settled(_, _, _, _, _, _, d) =>
      if d.Some? then inbox[d.value.message := InboxRow(d.value.body, true)] else inbox
    case Replayed(d) => inbox[d.message := InboxRow(d.body, true)]
  }

  function Apply(db: Db, c: Commit): Db {
    Db(WalletsAfter(db.wallets, c),
       TxsAfter(db.txs, c),
       LedgerAfter(db.ledger, c),
       db.outbox + BalanceRows(c) + TxRows(c),
       InboxAfter(db.inbox, c))
  }

  // ----- commits an operation is entitled to --------------------------------------

  /** `seen` is a state `now` has been in: it is the present row unless the version moved. */
  predicate Older(seen: WalletRow, current: WalletRow) {
    && seen.id == current.id && seen.player == current.player
    && seen.currency == current.currency && seen.createdAt == current.createdAt
    && seen.version <= current.version
    && (seen.version == current.version ==> seen == current)
  }

  /** The reference lookup gave row r and all checks on that row alone passed. */
  predicate Refers(txs: map<Uuid, TxRow>, p: Payload, r: Uuid) {
    r in txs && Names(txs[r], p.provider, p.reference) && AfterReference(p, Some(txs[r])) == None
  }

  predicate Blocked(txs: map<Uuid, TxRow>, kind: Kind, r: Uuid) {
    r in txs && (HasReversal(txs, r, kind)
                 || (txs[r].terms.payload.kind == Bet && HasReversal(txs, r, CrossKind(kind))))
  }

  /** Why a plan to reject is right, in terms of facts that never change again. */
  ghost predicate Justified(db: Db, p: Payload, code: Code) {
    match code
    case WalletPlayerMismatch => p.wallet in db.wallets && db.wallets[p.wallet].player != p.player
    case CurrencyMismatch => p.wallet in db.wallets && db.wallets[p.wallet].currency != p.currency
    case ReversalConflict => NeedsReference(p) && exists r :: Refers(db.txs, p, r) && Blocked(db.txs, p.kind, r)
    case InsufficientFunds => false
    case ReversalInsufficientFunds => false
    case ReferenceNotFound => false
    case _ => NeedsReference(p) && exists r :: RefusedBy(db.txs, p, r, code)
  }

  ghost predicate RefusedBy(txs: map<Uuid, TxRow>, p: Payload, r: Uuid, code: Code) {
    && r in txs && txs[r].status.IsTerminal() && Names(txs[r], p.provider, p.reference)
    && AfterReference(p, Some(txs[r])) == Some(Deny(code))
  }

  predicate Matches(p: Payload, w: WalletRow) {
    w.id == p.wallet && w.player == p.player && w.currency == p.currency
  }

  /** What an operation that saw wallet row `seen` knows when it has made `plan`. Only a
      reference that had not ended when the attempt began is waited for; an operation that
      names itself finds its own row. */
  ghost predicate PlanHolds(db: Db, op: Op, seen: WalletRow, plan: Plan) {
    var p := op.Payload();
    && p.wallet in db.wallets && seen.id == p.wallet && WalletHolds(seen) && Older(seen, db.wallets[p.wallet])
    && match plan
       case Park =>
         && NeedsReference(p) && EndedHolds(db.txs, op.ended)
         && (p.reference == p.external || WasOpen(db.txs, op.ended, p.provider, p.reference))
       case Accept => p.kind == Loss && Matches(p, seen)
       case Deny(code) => Justified(db, p, code)
       case Move(direction, None) =>
         !NeedsReference(p) && p.kind != Loss && Matches(p, seen)
             && direction == (if p.kind == Bet then Debit else Credit)
       case Move(direction, Some(r)) =>
         && NeedsReference(p) && Matches(p, seen) && Refers(db.txs, p, r)
         && plan == Resolved(p.kind, r, db.txs[r].terms.payload.kind)
         && (seen.version == db.wallets[p.wallet].version ==> !Blocked(db.txs, p.kind, r))
  }

  predicate OpHolds(db: Db, op: Op) {
    if op.isNew then
      op.row == PendingRow(op.row.terms.key, op.Payload(), op.row.terms.createdAt)
      && ValidExternal(op.row.terms.key, op.Payload())
    else op.id in db.txs && op.row == db.txs[op.id] && op.row.status == PendingReference
  }

  /** The message asks for the very operation of row r. */
  predicate Carries(body: Body, r: TxRow) {
    body.Request? && r.terms.origin == External && r.terms.payload == body.payload
  }

  predicate WalletHolds(w: WalletRow) {
    && 0 <= w.balance <= MAX_INT64
    && 1 <= w.version
    && 0 < w.createdAt <= w.updatedAt
    && w.id != NIL && w.player != NIL && w.currency != NO_NAME
  }

  ghost predicate Legal(db: Db, c: Commit) {
    && Passes(db, c)
    && match c
       case Opened(w, tx, ids) =>
         WalletHolds(w) && w.version == 1 && w.createdAt == w.updatedAt
       case Settled(op, seen, plan, now, ids, next, delivery) =>
         && OpHolds(db, op)
         && PlanHolds(db, op, seen, plan)
         && (delivery.Some? ==> op.isNew && Carries(delivery.value.body, op.row))
       case Replayed(d) => exists id :: id in db.txs && Carries(d.body, db.txs[id])
  }
}
