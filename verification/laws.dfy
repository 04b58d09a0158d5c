/** The rules of operations and reversals as relations over the columns of the rows, without
    the functions by which an operation decides: what a legal commit rests on, and what is
    true of every row after any number of them. */
module Laws {
  import opened Domain
  import opened Rules
  import opened Tables
  import opened Invariants
  import opened Progress
  import opened Commits
  import opened Safety

  // ----- submissions ------------------------------------------------------------------

  /** What may be submitted: everything named, an amount that suits the kind, and a reference
      if the kind cannot do without. */
  predicate IsSubmittable(key: Name, p: Payload) {
    && key != NO_NAME && p.provider != NO_NAME && p.external != NO_NAME
    && p.player != NIL && p.wallet != NIL
    && p.round != NO_NAME && p.game != NO_NAME && p.currency != NO_NAME
    && p.kind in {Bet, Win, Loss, Refund, Rollback}
    && 0 <= p.amount <= MAX_INT64 && (p.amount == 0 <==> p.kind == Loss)
    && (p.kind in {Refund, Rollback} ==> p.reference != NO_NAME)
  }

  lemma SubmittableIffValid(key: Name, p: Payload)
    ensures IsSubmittable(key, p) <==> ValidCommand(key, p)
    ensures IsSubmittable(key, p) && !RefersInVain(p) <==> ValidExternal(key, p)
  {
  }

  /** A BET or LOSS that names a reference. */
  predicate RefersInVain(p: Payload) {
    p.kind in {Bet, Loss} && p.reference != NO_NAME
  }

  // ----- references -------------------------------------------------------------------

  /** Row r answers to the name (provider, external). */
  predicate IsNamed(r: TxRow, provider: Name, external: Name) {
    && r.terms.origin == External
    && r.terms.payload.provider == provider && r.terms.payload.external == external
  }

  /** An operation on the reference p names may be carried out, as far as that row goes. */
  predicate Acceptable(p: Payload, ref: TxRow) {
    && ref.status == Processed && IsNamed(ref, p.provider, p.reference)
    && ref.terms.payload.player == p.player && ref.terms.payload.wallet == p.wallet
    && ref.terms.payload.currency == p.currency && ref.terms.payload.round == p.round
    && match p.kind
       case Win => ref.terms.payload.kind == Bet
       case Refund => ref.terms.payload.kind == Bet && ref.terms.payload.amount == p.amount
       case Rollback => ref.terms.payload.kind in {Bet, Win, Refund} && ref.terms.payload.amount == p.amount
       case _ => false
  }

  /** The kinds that refer to another operation: always a reversal, a WIN if it names one. */
  predicate NamesReference(p: Payload) {
    p.kind == Refund || p.kind == Rollback || (p.kind == Win && p.reference != NO_NAME)
  }

  /** Row k has used up what p refers to: a BET is given back once, by REFUND or ROLLBACK, and
      has one WIN, which no ROLLBACK may precede; a WIN or REFUND is rolled back once. */
  predicate UsesUp(k: TxRow, r: Uuid, ref: TxRow, p: Payload) {
    && k.status == Processed && k.reference == Some(r)
    && match p.kind
       case Win => k.terms.payload.kind in {Win, Rollback}
       case Refund => k.terms.payload.kind in {Refund, Rollback}
       case Rollback =>
         k.terms.payload.kind == Rollback || (ref.terms.payload.kind == Bet && k.terms.payload.kind == Refund)
       case _ => false
  }

  predicate IsUsedUp(txs: map<Uuid, TxRow>, p: Payload, r: Uuid)
    requires r in txs
  {
    exists k :: k in txs && UsesUp(txs[k], r, txs[r], p)
  }

  /** Nothing that p refers to has come to an end. */
  predicate Unfinished(txs: map<Uuid, TxRow>, p: Payload) {
    forall id :: id in txs && IsNamed(txs[id], p.provider, p.reference) ==>
      txs[id].status == Pending || txs[id].status == PendingReference
  }

  /** Exactly the operations that name a reference, in the sense above, have one resolved, and
      it is acceptable. */
  lemma ReferenceIsAccepted(d: Db, id: Uuid)
    requires DbInv(d) && id in d.txs && d.txs[id].status == Processed
    ensures var r := d.txs[id];
            if NamesReference(r.terms.payload)
            then r.reference.Some? && r.reference.value in d.txs
                 && Acceptable(r.terms.payload, d.txs[r.reference.value])
            else r.reference == None
  {
    InvRows(d);
    assert RowHolds(d.txs[id]) && Linked(d.txs, d.txs[id]);
  }

  /** What a name refers to is one row. */
  lemma NamedOnce(d: Db, i: Uuid, j: Uuid, provider: Name, external: Name)
    requires DbInv(d) && i in d.txs && j in d.txs
    requires IsNamed(d.txs[i], provider, external) && IsNamed(d.txs[j], provider, external)
    ensures i == j
  {
    assert Holds(UniqueClaim, d);
    assert SameName(d.txs[i], d.txs[j]);
  }

  // ----- rejections -------------------------------------------------------------------

  predicate Named(txs: map<Uuid, TxRow>, p: Payload, r: Uuid) {
    r in txs && IsNamed(txs[r], p.provider, p.reference)
  }

  /** The processed reference is of the wrong kind or of somebody else's round. */
  predicate Mismatched(p: Payload, ref: TxRow) {
    && ref.status == Processed
    && (|| ref.terms.payload.player != p.player || ref.terms.payload.wallet != p.wallet
        || ref.terms.payload.currency != p.currency || ref.terms.payload.round != p.round
        || (p.kind == Rollback && ref.terms.payload.kind !in {Bet, Win, Refund})
        || (p.kind != Rollback && ref.terms.payload.kind != Bet))
  }

  /** What a stored code says of the wallet or of the reference. */
  ghost predicate Reason(d: Db, p: Payload, code: Code) {
    match code
    case WalletPlayerMismatch => p.wallet in d.wallets && d.wallets[p.wallet].player != p.player
    case CurrencyMismatch => p.wallet in d.wallets && d.wallets[p.wallet].currency != p.currency
    case ReferenceNotProcessed =>
      NamesReference(p) && exists r :: Named(d.txs, p, r) && (d.txs[r].status == Rejected || d.txs[r].status == Failed)
    case ReferenceMismatch => NamesReference(p) && exists r :: Named(d.txs, p, r) && Mismatched(p, d.txs[r])
    case ReferenceAmountMismatch =>
      (p.kind == Refund || p.kind == Rollback)
      && exists r :: Named(d.txs, p, r) && d.txs[r].status == Processed && d.txs[r].terms.payload.amount != p.amount
    case ReversalConflict =>
      NamesReference(p) && exists r :: Named(d.txs, p, r) && Acceptable(p, d.txs[r]) && IsUsedUp(d.txs, p, r)
    case _ => false
  }

  lemma BlockedIsUsedUp(txs: map<Uuid, TxRow>, p: Payload, r: Uuid)
    requires Refers(txs, p, r) && NeedsReference(p)
    ensures Named(txs, p, r) && Acceptable(p, txs[r])
    ensures Blocked(txs, p.kind, r) <==> IsUsedUp(txs, p, r)
  {
    if Blocked(txs, p.kind, r) {
      var kind := if HasReversal(txs, r, p.kind) then p.kind else CrossKind(p.kind);
      var k :| k in txs && Reverses(txs[k], r, kind);
      assert UsesUp(txs[k], r, txs[r], p);
    }
    if IsUsedUp(txs, p, r) {
      var k :| k in txs && UsesUp(txs[k], r, txs[r], p);
      assert Reverses(txs[k], r, txs[k].terms.payload.kind);
    }
  }

  lemma RefusalHasReason(d: Db, p: Payload, code: Code)
    requires NeedsReference(p) && exists r :: RefusedBy(d.txs, p, r, code)
    ensures Reason(d, p, code)
  {
    var r :| RefusedBy(d.txs, p, r, code);
    assert Named(d.txs, p, r);
  }

  lemma JustifiedHasReason(d: Db, p: Payload, code: Code)
    requires Justified(d, p, code)
    ensures Reason(d, p, code)
  {
    match code
    case WalletPlayerMismatch =>
    case CurrencyMismatch =>
    case ReversalConflict =>
      var r :| Refers(d.txs, p, r) && Blocked(d.txs, p.kind, r);
      BlockedIsUsedUp(d.txs, p, r);
    case ReferenceNotProcessed => RefusalHasReason(d, p, code);
    case ReferenceMismatch => RefusalHasReason(d, p, code);
    case ReferenceAmountMismatch => RefusalHasReason(d, p, code);
    case InsufficientFunds =>
    case ReversalInsufficientFunds =>
    case ReferenceNotFound =>
  }

  // ----- what a commit rests on ---------------------------------------------------------

  /** What the operation does to the balance of its wallet. */
  function Change(p: Payload, ref: Option<Kind>): int {
    match p.kind
    case Bet => -p.amount
    case Win => p.amount
    case Refund => p.amount
    case Rollback => if ref == Some(Bet) then p.amount else -p.amount
    case _ => 0
  }

  /** The operation was carried out as the tables d allow: the wallet is its own, whatever it
      refers to is acceptable and not used up, and the wallet moves by exactly its amount. */
  ghost predicate IsCarriedOut(d: Db, p: Payload, row: TxRow, after: Db) {
    && p.wallet in d.wallets && p.wallet in after.wallets
    && d.wallets[p.wallet].player == p.player && d.wallets[p.wallet].currency == p.currency
    && (if NamesReference(p)
        then row.reference.Some? && row.reference.value in d.txs
             && Acceptable(p, d.txs[row.reference.value]) && !IsUsedUp(d.txs, p, row.reference.value)
        else row.reference == None)
    && (if p.kind == Loss then after.wallets == d.wallets && after.ledger == d.ledger
        else
          var ref := if row.reference.Some? && row.reference.value in d.txs
                     then Some(d.txs[row.reference.value].terms.payload.kind) else None;
          var was, now := d.wallets[p.wallet], after.wallets[p.wallet];
          && now.balance == was.balance + Change(p, ref) && 0 <= now.balance <= MAX_INT64
          && now.version == was.version + 1 && row.result == Some(now.balance)
          && |after.ledger| == |d.ledger| + 1)
  }

  /** When the attempt began, nothing of the name it refers to had come to an end. */
  predicate BeganOpen(txs: map<Uuid, TxRow>, op: Op) {
    forall id :: id in op.ended ==>
      id in txs && !IsNamed(txs[id], op.Payload().provider, op.Payload().reference)
  }

  /** Why a commit leaves the row it leaves. */
  ghost predicate HasReason(d: Db, c: Commit, row: TxRow)
    requires c.Settled?
  {
    var p := c.op.Payload();
    && row.terms == c.op.row.terms && row.updatedAt == c.now
    && match row.status
       case Processed =>
         && IsCarriedOut(d, p, row, Apply(d, c)) && row.failure == None && row.due == None
         && (p.kind == Loss ==> row.result == Some(c.seen.balance))
       case PendingReference =>
         && NamesReference(p) && BeganOpen(d.txs, c.op)
         && row.due == Some(c.next) && row.attempts == c.op.row.attempts + 1 < MAX_ATTEMPTS
       case Rejected =>
         && row.failure.Some?
         && (match row.failure.value
             case InsufficientFunds => p.kind == Bet && c.seen.balance < p.amount
             case ReversalInsufficientFunds => p.kind == Rollback && c.seen.balance < p.amount
             case ReferenceNotFound =>
               NamesReference(p) && BeganOpen(d.txs, c.op) && c.op.row.attempts + 1 == MAX_ATTEMPTS
             case code => Reason(d, p, code))
         && row.result == (if row.failure.value == ReferenceNotFound then None else Some(c.seen.balance))
       case _ => false
  }

  lemma PostingIsCarriedOut(d: Db, c: Commit)
    requires RowsInv(d) && Legal(d, c) && c.Settled? && c.plan.Move? && c.Posts()
    ensures IsCarriedOut(d, c.op.Payload(), c.Row(), Apply(d, c))
  {
    assert c.op.isNew || RowHolds(d.txs[c.op.id]);
    assert c.seen == d.wallets[c.seen.id];
    if c.plan.reference.Some? {
      BlockedIsUsedUp(d.txs, c.op.Payload(), c.plan.reference.value);
    }
  }

  lemma ParkingBeganOpen(d: Db, c: Commit)
    requires RowsInv(d) && Legal(d, c) && c.Settled? && c.plan.Park?
    ensures NamesReference(c.op.Payload()) && BeganOpen(d.txs, c.op)
  {
    var p := c.op.Payload();
    forall id | id in c.op.ended
      ensures id in d.txs && !IsNamed(d.txs[id], p.provider, p.reference)
    {
      if p.reference == p.external {
        OwnNameHasNotEnded(d, c, id);
      }
    }
  }

  lemma OwnNameHasNotEnded(d: Db, c: Commit, id: Uuid)
    requires RowsInv(d) && Legal(d, c) && c.Settled? && id in d.txs && d.txs[id].status.IsTerminal()
    ensures !IsNamed(d.txs[id], c.op.Payload().provider, c.op.Payload().external)
  {
    if !c.op.isNew {
      assert RowHolds(d.txs[c.op.id]);
      assert SameName(d.txs[id], d.txs[c.op.id])
             <==> IsNamed(d.txs[id], c.op.Payload().provider, c.op.Payload().external);
    }
  }

  /** Every commit an operation is entitled to has its reason in the tables it commits to. */
  lemma CommitHasReason(d: Db, c: Commit)
    requires RowsInv(d) && Legal(d, c) && c.Settled?
    ensures HasReason(d, c, c.Row())
  {
    match c.plan
    case Park => ParkingBeganOpen(d, c);
    case Accept =>
    case Deny(code) => JustifiedHasReason(d, c.op.Payload(), code);
    case Move(_, _) =>
      if c.Posts() {
        PostingIsCarriedOut(d, c);
      } else {
        UnfundedHasReason(d, c);
      }
  }

  lemma UnfundedHasReason(d: Db, c: Commit)
    requires RowsInv(d) && Legal(d, c) && c.Settled? && c.plan.Move? && !c.Posts()
    ensures HasReason(d, c, c.Row())
  {
    assert c.op.isNew || RowHolds(d.txs[c.op.id]);
  }

  /** A reference the attempt would have found ended is not waited for. */
  lemma BeganUnfinished(before: map<Uuid, TxRow>, txs: map<Uuid, TxRow>, op: Op)
    requires op.ended == Ended(before) && TxsAdvance(before, txs) && BeganOpen(txs, op)
    ensures Unfinished(before, op.Payload())
  {
    forall id | id in before && IsNamed(before[id], op.Payload().provider, op.Payload().reference)
      ensures before[id].status == Pending || before[id].status == PendingReference
    {
      assert id in txs && Advanced(before[id], txs[id]);
      assert id in Ended(before) ==> id in op.ended;
    }
  }

  /** Carrying out an operation makes due, at once, whatever is parked on its name, and leaves
      every other row alone; so does no other commit. */
  lemma CommitWakes(d: Db, c: Commit, id: Uuid)
    requires Legal(d, c) && c.Settled? && id in d.txs && id != c.op.id
    ensures id in Apply(d, c).txs
    ensures var r, s := d.txs[id], Apply(d, c).txs[id];
            if c.Row().status == Processed && r.status == PendingReference
               && r.terms.payload.provider == c.op.Payload().provider
               && r.terms.payload.reference == c.op.Payload().external
            then s == r.(due := Some(c.now), updatedAt := c.now) else s == r
  {
  }

  // ----- the ledger ---------------------------------------------------------------------

  /** The entry is the movement of its transaction: its wallet, its amount, in the direction
      its kind, and that of what it reverses, asks for. */
  predicate TellsOperation(txs: map<Uuid, TxRow>, e: EntryRow) {
    && e.tx in txs && txs[e.tx].status == Processed
    && var r := txs[e.tx]; var p := r.terms.payload;
       && e.wallet == p.wallet && e.amount == p.amount && r.result == Some(e.after)
       && match p.kind
          case Bet => e.direction == Debit
          case Rollback =>
            && r.reference.Some? && r.reference.value in txs
            && e.direction == (if txs[r.reference.value].terms.payload.kind == Bet then Credit else Debit)
          case Loss => false
          case _ => e.direction == Credit
  }

  lemma EntryTellsItsOperation(d: Db, i: nat)
    requires DbInv(d) && i < |d.ledger|
    ensures TellsOperation(d.txs, d.ledger[i])
  {
    InvRows(d);
    InvLedger(d);
    assert EntryHolds(d.txs, d.ledger[i]);
    assert RowHolds(d.txs[d.ledger[i].tx]);
    ReferenceIsAccepted(d, d.ledger[i].tx);
  }

  // ----- owners -------------------------------------------------------------------------

  /** What was carried out was the owner's: also an opening, which has its wallet's player and
      currency. */
  predicate OwnersHold(d: Db) {
    forall id :: id in d.txs && d.txs[id].status == Processed ==> OwnerHolds(d.wallets, d.txs[id].terms.payload)
  }

  predicate OwnerHolds(wallets: map<Uuid, WalletRow>, p: Payload) {
    && p.wallet in wallets && wallets[p.wallet].player == p.player && wallets[p.wallet].currency == p.currency
  }

  lemma CommitKeepsOwners(d: Db, c: Commit)
    requires RowsInv(d) && OwnersHold(d) && Legal(d, c)
    ensures OwnersHold(Apply(d, c))
  {
    var after := Apply(d, c);
    forall id | id in after.txs && after.txs[id].status == Processed
      ensures OwnerHolds(after.wallets, after.txs[id].terms.payload)
    {
      if c.WritesTx() && id == c.TxId() {
        TxsShape(d.txs, c);
        WrittenRowIsOwned(d, c);
      } else {
        OtherRowIsOwned(d, c, id);
      }
    }
  }

  lemma OtherRowIsOwned(d: Db, c: Commit, id: Uuid)
    requires RowsInv(d) && OwnersHold(d) && Legal(d, c) && !(c.WritesTx() && id == c.TxId())
    requires id in Apply(d, c).txs && Apply(d, c).txs[id].status == Processed
    ensures OwnerHolds(Apply(d, c).wallets, Apply(d, c).txs[id].terms.payload)
  {
    CommitAdvancesWallets(d, c);
    if c.WritesTx() {
      TxsShape(d.txs, c);
    }
    assert OwnerHolds(d.wallets, d.txs[id].terms.payload);
  }

  lemma WrittenRowIsOwned(d: Db, c: Commit)
    requires RowsInv(d) && Legal(d, c) && c.WritesTx() && c.Row().status == Processed
    ensures OwnerHolds(Apply(d, c).wallets, c.Row().terms.payload)
  {
    if c.Settled? {
      CommitHasReason(d, c);
      CommitAdvancesWallets(d, c);
    }
  }
}
