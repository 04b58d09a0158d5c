/** What holds of the tables after any number of commits. */
module Invariants {
  import opened Domain
  import opened Rules
  import opened Tables

  // ----- the ledger read as a log -------------------------------------------------

  /** The balance the ledger gives wallet w: that after its last entry, 0 without one. */
  function BalanceOf(ledger: seq<EntryRow>, w: Uuid): int {
    if ledger == [] then 0
    else if ledger[|ledger| - 1].wallet == w then ledger[|ledger| - 1].after
    else BalanceOf(ledger[..|ledger| - 1], w)
  }

  /** The plain sum of the signed movements of w. */
  function SumOf(ledger: seq<EntryRow>, w: Uuid): int {
    if ledger == [] then 0
    else
      var e := ledger[|ledger| - 1];
      SumOf(ledger[..|ledger| - 1], w) + (if e.wallet == w then Signed(e) else 0)
  }

  predicate IsOpening(txs: map<Uuid, TxRow>, id: Uuid) {
    id in txs && txs[id].terms.payload.kind == Opening
  }

  /** Number of entries of w other than its opening credit. */
  function Bumps(txs: map<Uuid, TxRow>, ledger: seq<EntryRow>, w: Uuid): nat {
    if ledger == [] then 0
    else
      var e := ledger[|ledger| - 1];
      Bumps(txs, ledger[..|ledger| - 1], w) + (if e.wallet == w && !IsOpening(txs, e.tx) then 1 else 0)
  }

  /** Every entry starts from the balance the entries before it left. */
  predicate Chained(ledger: seq<EntryRow>) {
    ledger == [] ||
    var e := ledger[|ledger| - 1];
    && Chained(ledger[..|ledger| - 1])
    && e.before == BalanceOf(ledger[..|ledger| - 1], e.wallet)
    && e.after == e.before + Signed(e)
    && 0 < e.amount && 0 <= e.before && 0 <= e.after <= MAX_INT64
  }

  lemma Extend(ledger: seq<EntryRow>, e: EntryRow)
    ensures (ledger + [e])[|ledger|] == e
    ensures (ledger + [e])[..|ledger|] == ledger
  {
  }

  // ----- the conjuncts --------------------------------------------------------------

  predicate RowHolds(r: TxRow) {
    && (if r.terms.origin == External then ValidExternal(r.terms.key, r.terms.payload)
        else r.terms.payload.kind == Opening && r.status == Processed && r.reference == None
             && 0 < r.terms.payload.amount <= MAX_INT64)
    && r.attempts < MAX_ATTEMPTS
    && match r.status
       case PendingReference =>
         && NeedsReference(r.terms.payload) && 1 <= r.attempts
         && r.due.Some? && r.result == None && r.failure == None && r.reference == None
       case Processed =>
         && r.failure == None && r.due == None && r.result.Some? && 0 <= r.result.value <= MAX_INT64
         && (r.reference.Some? <==> NeedsReference(r.terms.payload))
       case Rejected =>
         && r.failure.Some? && r.due == None && r.reference == None
         && (if r.failure == Some(ReferenceNotFound)
             then r.result == None && r.attempts + 1 == MAX_ATTEMPTS && NeedsReference(r.terms.payload)
             else r.result.Some? && 0 <= r.result.value <= MAX_INT64)
         && (r.failure == Some(InsufficientFunds) ==>
               r.terms.payload.kind == Bet && r.result.value < r.terms.payload.amount)
         && (r.failure == Some(ReversalInsufficientFunds) ==>
               r.terms.payload.kind == Rollback && r.result.value < r.terms.payload.amount)
       case _ => false
  }

  predicate SameOwner(v: WalletRow, w: WalletRow) {
    v.player == w.player && v.currency == w.currency
  }

  predicate WalletsHold(db: Db) {
    && (forall w :: w in db.wallets ==> WalletHolds(db.wallets[w]) && db.wallets[w].id == w)
    && (forall v, w :: v in db.wallets && w in db.wallets && SameOwner(db.wallets[v], db.wallets[w]) ==> v == w)
  }

  predicate RowsHold(db: Db) {
    forall id :: id in db.txs ==> RowHolds(db.txs[id]) && db.txs[id].terms.payload.wallet in db.wallets
  }

  /** At most one row per (provider, external id), one per (provider, key) and one opening per wallet. */
  predicate SameName(a: TxRow, b: TxRow) {
    Names(a, b.terms.payload.provider, b.terms.payload.external) && b.terms.origin == External
  }

  predicate SameKey(a: TxRow, b: TxRow) {
    HoldsKey(a, b.terms.payload.provider, b.terms.key) && b.terms.origin == External
  }

  predicate Unique(txs: map<Uuid, TxRow>) {
    forall i, j :: i in txs && j in txs && (SameName(txs[i], txs[j]) || SameKey(txs[i], txs[j])) ==> i == j
  }

  /** A resolved reference names a processed row the operation agrees with. */
  predicate Linked(txs: map<Uuid, TxRow>, r: TxRow) {
    r.reference.Some? ==>
      && r.status == Processed
      && Refers(txs, r.terms.payload, r.reference.value)
  }

  predicate LinksHold(txs: map<Uuid, TxRow>) {
    forall id :: id in txs ==> Linked(txs, txs[id])
  }

  /** Two operations that must not both be carried out on the same reference. */
  predicate Rivals(a: TxRow, b: TxRow) {
    && a.status == Processed && b.status == Processed
    && a.reference.Some? && a.reference == b.reference
    && (a.terms.payload.kind == Win <==> b.terms.payload.kind == Win)
  }

  predicate Exclusive(txs: map<Uuid, TxRow>) {
    forall i, j :: i in txs && j in txs && Rivals(txs[i], txs[j]) ==> i == j
  }

  predicate MovesMoney(r: TxRow) {
    r.status == Processed && r.terms.payload.kind != Loss
  }

  /** The direction the kind of the row, and of its reference, asks for. */
  function DirectionOf(txs: map<Uuid, TxRow>, r: TxRow): Direction {
    match r.terms.payload.kind
    case Bet => Debit
    case Rollback =>
      if r.reference.Some? && r.reference.value in txs && txs[r.reference.value].terms.payload.kind == Bet
      then Credit else Debit
    case _ => Credit
  }

  predicate EntryHolds(txs: map<Uuid, TxRow>, e: EntryRow) {
    && e.tx in txs && MovesMoney(txs[e.tx])
    && e.wallet == txs[e.tx].terms.payload.wallet
    && e.amount == txs[e.tx].terms.payload.amount
    && e.direction == DirectionOf(txs, txs[e.tx])
    && txs[e.tx].result == Some(e.after)
  }

  predicate EntriesHold(txs: map<Uuid, TxRow>, ledger: seq<EntryRow>) {
    forall i :: 0 <= i < |ledger| ==> EntryHolds(txs, ledger[i])
  }

  /** One entry at most per transaction, and distinct entry ids. */
  predicate Once(ledger: seq<EntryRow>) {
    forall i, j :: 0 <= i < |ledger| && 0 <= j < |ledger|
                   && (ledger[i].tx == ledger[j].tx || ledger[i].id == ledger[j].id)
      ==> i == j
  }

  predicate PostedBy(ledger: seq<EntryRow>, id: Uuid, n: int) {
    exists j :: 0 <= j < n <= |ledger| && ledger[j].tx == id
  }

  /** Every processed movement is in the ledger. */
  predicate AllPosted(txs: map<Uuid, TxRow>, ledger: seq<EntryRow>) {
    forall id :: id in txs && MovesMoney(txs[id]) ==> PostedBy(ledger, id, |ledger|)
  }

  /** Whatever an entry's transaction refers to was posted before it. */
  predicate RefersBack(txs: map<Uuid, TxRow>, ledger: seq<EntryRow>) {
    forall i :: 0 <= i < |ledger| && ledger[i].tx in txs && txs[ledger[i].tx].reference.Some?
                ==> PostedBy(ledger, txs[ledger[i].tx].reference.value, i)
  }

  predicate NoneBefore(ledger: seq<EntryRow>, i: int)
    requires 0 <= i < |ledger|
  {
    forall j :: 0 <= j < i ==> ledger[j].wallet != ledger[i].wallet
  }

  /** The opening credit is the first entry of its wallet. */
  predicate OpeningsFirst(txs: map<Uuid, TxRow>, ledger: seq<EntryRow>) {
    forall i :: 0 <= i < |ledger| && IsOpening(txs, ledger[i].tx) ==> NoneBefore(ledger, i)
  }

  predicate WalletMatches(db: Db, w: Uuid)
    requires w in db.wallets
  {
    && db.wallets[w].balance == BalanceOf(db.ledger, w)
    && db.wallets[w].version == 1 + Bumps(db.txs, db.ledger, w)
  }

  /** The wallets are what the ledger says they are. */
  predicate WalletsMatch(db: Db) {
    && (forall w :: w in db.wallets ==> WalletMatches(db, w))
    && (forall i :: 0 <= i < |db.ledger| ==> db.ledger[i].wallet in db.wallets)
  }

  ghost predicate RejectionHolds(db: Db, r: TxRow) {
    r.status == Rejected && r.failure.Some?
    && r.failure.value !in {InsufficientFunds, ReversalInsufficientFunds, ReferenceNotFound}
    ==> Justified(db, r.terms.payload, r.failure.value)
  }

  ghost predicate RejectionsHold(db: Db) {
    forall id :: id in db.txs ==> RejectionHolds(db, db.txs[id])
  }

  ghost predicate MessageHolds(txs: map<Uuid, TxRow>, m: InboxRow) {
    m.completed && exists id :: id in txs && Carries(m.body, txs[id])
  }

  ghost predicate InboxHolds(db: Db) {
    forall m :: m in db.inbox ==> MessageHolds(db.txs, db.inbox[m])
  }
}
