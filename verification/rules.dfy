/** The kind-specific rules: what an operation decides to do from what it has read so
    far. The reads happen one after another on a database that others keep changing, so
    each phase is a function of one read only. */
module Rules {
  import opened Domain

  /** What a transaction attempt intends to write. */
  datatype Plan =
    | Accept
    | Move(direction: Direction, reference: Option<Uuid>)
    | Deny(code: Code)
    | Park

  datatype Verdict = Decided(plan: Plan) | NeedReference

  predicate ValidAmount(kind: Kind, amount: int) {
    && 0 <= amount <= MAX_INT64
    && (kind == Loss <==> amount == 0)
  }

  /** The checks of a command and of a new external transaction. */
  predicate ValidExternal(key: Name, p: Payload) {
    && p.provider != NO_NAME
    && p.external != NO_NAME
    && key != NO_NAME
    && p.player != NIL && p.wallet != NIL
    && p.round != NO_NAME && p.game != NO_NAME
    && p.currency != NO_NAME
    && p.kind != Opening
    && ValidAmount(p.kind, p.amount)
    && (p.kind.IsReversal() ==> p.reference != NO_NAME)
    && (p.reference != NO_NAME ==> p.kind.IsReversal() || p.kind == Win)
  }

  /** The checks of a command before it reaches the tables: all of the above but the last,
      so a BET or LOSS that names a reference is refused only after the lookups. */
  predicate ValidCommand(key: Name, p: Payload) {
    && p.provider != NO_NAME
    && p.external != NO_NAME
    && key != NO_NAME
    && p.player != NIL && p.wallet != NIL
    && p.round != NO_NAME && p.game != NO_NAME
    && p.currency != NO_NAME
    && p.kind != Opening
    && (p.kind.IsReversal() ==> p.reference != NO_NAME)
    && ValidAmount(p.kind, p.amount)
  }

  predicate NeedsReference(p: Payload) {
    p.kind.IsReversal() || (p.kind == Win && p.reference != NO_NAME)
  }

  /** First phase: the wallet has been read. */
  function AfterWallet(p: Payload, w: WalletRow): Verdict {
    if w.player != p.player then Decided(Deny(WalletPlayerMismatch))
    else if w.currency != p.currency then Decided(Deny(CurrencyMismatch))
    else if NeedsReference(p) then NeedReference
    else if p.kind == Loss then Decided(Accept)
    else Decided(Move(if p.kind == Bet then Debit else Credit, None))
  }

  predicate ReferenceKindFits(kind: Kind, refKind: Kind) {
    match kind
    case Refund => refKind == Bet
    case Rollback => refKind == Bet || refKind == Win || refKind == Refund
    case Win => refKind == Bet
    case _ => true
  }

  predicate ReferenceAgrees(p: Payload, ref: Payload) {
    && ref.player == p.player
    && ref.wallet == p.wallet
    && ref.currency == p.currency
    && ref.round == p.round
  }

  /** Second phase: the referenced row has been read, or is absent. None asks for the
      reversal lookups. */
  function AfterReference(p: Payload, found: Option<TxRow>): Option<Plan> {
    if found.None? then Some(Park)
    else
      var ref := found.value;
      if ref.status.Pending? || ref.status.PendingReference? then Some(Park)
      else if !ref.status.Processed? then Some(Deny(ReferenceNotProcessed))
      else if !ReferenceKindFits(p.kind, ref.terms.payload.kind) then Some(Deny(ReferenceMismatch))
      else if !ReferenceAgrees(p, ref.terms.payload) then Some(Deny(ReferenceMismatch))
      else if p.kind.IsReversal() && ref.terms.payload.amount != p.amount then Some(Deny(ReferenceAmountMismatch))
      else None
  }

  /** The other kind of reversal that also excludes this one when the reference is a BET. */
  function CrossKind(kind: Kind): Kind {
    if kind == Rollback then Refund else Rollback
  }

  /** Last phase: no reversal stands in the way. */
  function Resolved(kind: Kind, ref: Uuid, refKind: Kind): Plan {
    if kind.IsReversal() then
      match refKind
      case Bet => Move(Credit, Some(ref))
      case Win => Move(Debit, Some(ref))
      case Refund => Move(Debit, Some(ref))
      case _ => Deny(ReferenceMismatch)
    else Move(Credit, Some(ref))
  }

  /** The wallet's arithmetic: None when a debit exceeds the balance. */
  function Moved(balance: int, direction: Direction, amount: int): int {
    if direction == Credit then balance + amount else balance - amount
  }

  function FundsCode(kind: Kind): Code {
    if kind == Rollback then ReversalInsufficientFunds else InsufficientFunds
  }
}
