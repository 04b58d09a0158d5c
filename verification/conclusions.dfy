/** What the statements of an operation come to: the effect of each group of them on what
    the transaction sees, and the proof that each such effect is a commit the operation is
    entitled to. */
module Conclusions {
  import opened Domain
  import opened Rules
  import opened Tables
  import opened Invariants
  import opened Progress
  import opened Commits
  import opened Safety
  import opened Laws
  import opened Interleaving
  import opened Atomicity
  import opened Moneys
  import opened Wallets
  import opened Databases

  /** The outcome of resolving a reference. */
  datatype Resolution =
    | Available(ref: Uuid, refKind: Kind)
    | Unavailable
    | Definitive(code: Code)

  /** What an operation does with a resolved reference. */
  function PlanFor(kind: Kind, r: Resolution): Plan {
    match r
    case Available(ref, refKind) => Resolved(kind, ref, refKind)
    case Unavailable => Park
    case Definitive(code) => Deny(code)
  }

  /** What the caller is told. */
  datatype Outcome = Outcome(tx: Uuid, status: Status, balance: Option<int>, failure: Option<Code>, replay: bool)

  function OutcomeOf(id: Uuid, r: TxRow, replay: bool): Outcome {
    Outcome(id, r.status, r.result, r.failure, replay)
  }

  /** The caller is told what row r of that id says. */
  ghost predicate Tells(out: Outcome, id: Uuid, r: TxRow) {
    out.tx == id && out.status == r.status && out.balance == r.result && out.failure == r.failure
  }

  predicate Retryable(f: Failure) {
    f == VersionConflict || f == DuplicateExternal || f == DuplicateKey || f == DuplicateReversal
  }

  /** The stored row can still be updated from the aggregate's row r. */
  predicate Storable(view: Db, id: Uuid, r: TxRow) {
    id in view.txs && view.txs[id].terms == r.terms && !view.txs[id].status.IsTerminal() && !r.status.IsTerminal()
  }

  /** One UPDATE of the transaction and one outbox row. */
  function Stored(view: Db, id: Uuid, r: TxRow, told: Uuid, e: Event, now: Time): Db {
    if id !in view.txs then view
    else view.(txs := view.txs[id := r.(terms := view.txs[id].terms)],
               outbox := view.outbox + [OutboxRow(told, e, now)])
  }

  function BalanceEvent(e: EntryRow, version: int): Event {
    BalanceChanged(e.wallet, e.tx, e.direction, e.amount, e.before, e.after, version)
  }

  /** The ledger entry of a movement and its event. */
  function Booked(view: Db, e: EntryRow, version: int, moved: Uuid): Db {
    view.(ledger := view.ledger + [e],
          outbox := view.outbox + [OutboxRow(moved, BalanceEvent(e, version), e.createdAt)])
  }

  /** The wallet, ledger and outbox statements of one movement. */
  function Posted(view: Db, e: EntryRow, version: int, moved: Uuid): Db {
    if e.wallet !in view.wallets then view
    else
      var bumped := Bumped(view.wallets[e.wallet], e.after, e.createdAt);
      Booked(view.(wallets := view.wallets[e.wallet := bumped]), e, version, moved)
  }

  function Woke(view: Db, terms: Terms, now: Time): Db {
    if terms.origin == External
    then view.(txs := WakeDependents(view.txs, terms.payload.provider, terms.payload.external, now))
    else view
  }

  /** What a successful movement leaves behind: the five statements of one that the wallet
      accepts, or the rejection of one it cannot fund. */
  predicate MoveEffect(start: Db, view: Db, id: Uuid, was: TxRow, row: TxRow, before: WalletRow,
                       direction: Direction, ref: Option<Uuid>, now: Time, ids: Ids) {
    var p := was.terms.payload;
    match MoveRow(before, direction, Money(p.amount, p.currency), now)
    case Err(e) =>
      && e == NotEnough
      && row == Refused(was, FundsCode(p.kind), Some(before.balance), now)
      && EventIdFree(start.outbox, ids.told)
      && view == Stored(start, id, row, ids.told, TxRejected(id, FundsCode(p.kind)), now)
    case Ok(after) => PostEffect(start, view, id, was, row, before, after, direction, ref, now, ids)
  }

  predicate PostEffect(start: Db, view: Db, id: Uuid, was: TxRow, row: TxRow, before: WalletRow, after: WalletRow,
                       direction: Direction, ref: Option<Uuid>, now: Time, ids: Ids) {
    var e := EntryRow(ids.entry, before.id, id, direction, was.terms.payload.amount, before.balance, after.balance,
                      now);
    var posted := Posted(start, e, after.version, ids.moved);
    && Postable(start, e, before.version)
    && row == Finished(was, after.balance, if ref.Some? then ref else was.reference, now)
    && ReversalFree(start, id, row)
    && IdsAreNew(start.outbox, ids)
    && view == Woke(Stored(posted, id, row, ids.told, TxProcessed(id, after.balance), now), row.terms, now)
  }

  /** Why a movement fails, in terms of the view it started from. */
  predicate MoveRefused(start: Db, id: Uuid, was: TxRow, before: WalletRow, direction: Direction, ref: Option<Uuid>,
                        now: Time, entryId: Uuid, f: Failure) {
    var p := was.terms.payload;
    match MoveRow(before, direction, Money(p.amount, p.currency), now)
    case Err(e) => if e == NotEnough then !Storable(start, id, was) else f == MoneyRange
    case Ok(after) => PostRefused(start, id, was, before, after, ref, now, entryId, f)
  }

  predicate PostRefused(start: Db, id: Uuid, was: TxRow, before: WalletRow, after: WalletRow, ref: Option<Uuid>,
                        now: Time, entryId: Uuid, f: Failure) {
    match f
    case VersionConflict => before.id !in start.wallets || start.wallets[before.id].version != before.version
    case FundsCheck => before.id in start.wallets && now < start.wallets[before.id].createdAt
    case Invalid => before.id == NIL || id == NIL
    case Storage => !EntryIdFree(start.ledger, entryId) || !UnpostedIn(start.ledger, before.id, id)
    case _ =>
      && before.id in start.wallets && start.wallets[before.id].version == before.version
      && (!Storable(start, id, was)
          || !ReversalFree(start, id, Finished(was, after.balance, if ref.Some? then ref else was.reference, now)))
  }

  predicate MoveDone(start: Db, view: Db, id: Uuid, was: TxRow, row: TxRow, before: WalletRow,
                     direction: Direction, ref: Option<Uuid>, now: Time, ids: Ids, r: Result<Outcome, Failure>) {
    match r
    case Ok(out) =>
      out == OutcomeOf(id, row, false) && MoveEffect(start, view, id, was, row, before, direction, ref, now, ids)
    case Err(f) => MoveRefused(start, id, was, before, direction, ref, now, ids.entry, f)
  }

  /** Why a movement fails, in terms of the committed tables: nothing else can stop it. */
  predicate MoveFails(d: Db, op: Op, seen: WalletRow, plan: Plan, now: Time, entry: Uuid, f: Failure) {
    && seen.id in d.wallets && plan.Move?
    && match f
       case VersionConflict => d.wallets[seen.id].version != seen.version
       case MoneyRange => MAX_INT64 < Moved(seen.balance, plan.direction, op.Payload().amount)
       case FundsCheck => now < d.wallets[seen.id].createdAt
       case Storage => !EntryIdFree(d.ledger, entry)
       case Invalid => op.id == NIL
       case _ => false
  }

  predicate ParkEffect(start: Db, view: Db, id: Uuid, was: TxRow, row: TxRow, told: Uuid, next: Time, now: Time) {
    EventIdFree(start.outbox, told) &&
    if MAX_ATTEMPTS <= was.attempts + 1 then
      && row == Refused(was, ReferenceNotFound, None, now)
      && view == Stored(start, id, row, told, TxRejected(id, ReferenceNotFound), now)
    else
      && row == Parked(was, next, now)
      && view == Stored(start, id, row, told, TxPendingReference(id, row.attempts, next), now)
  }

  // ----- what the reads decide ------------------------------------------------------

  /** The tables at the moments of an operation's reads: of the wallet, of the reference, of
      the reversals of its own kind and of the other kind. */
  datatype Reads = Reads(wallet: Db, reference: Db, same: Db, cross: Db)

  ghost predicate InTurn(start: Db, seen: Reads, end: Db) {
    && Later(start, seen.wallet) && Later(seen.wallet, seen.reference)
    && Later(seen.reference, seen.same) && Later(seen.same, seen.cross) && Later(seen.cross, end)
  }

  lemma LaterInTurn(start: Db, seen: Reads, end: Db)
    requires InTurn(start, seen, end)
    ensures Later(start, end)
  {
    LaterTransitive(start, seen.wallet, seen.reference);
    LaterTransitive(start, seen.reference, seen.same);
    LaterTransitive(start, seen.same, seen.cross);
    LaterTransitive(start, seen.cross, end);
  }

  ghost function ReversalsOf(op: Op, id: Uuid, refKind: Kind, same: Db, cross: Db): Resolution {
    var kind := op.Payload().kind;
    if HasReversal(View(same.txs, op), id, kind) then Definitive(ReversalConflict)
    else if refKind == Bet && HasReversal(View(cross.txs, op), id, CrossKind(kind)) then Definitive(ReversalConflict)
    else Available(id, refKind)
  }

  function AsResolution(plan: Plan): Resolution {
    if plan.Deny? then Definitive(plan.code) else Unavailable
  }

  ghost function ResolutionOf(op: Op, reference: Db, same: Db, cross: Db): Resolution {
    var p := op.Payload();
    var view := View(reference.txs, op);
    var found := Lookup(view, p.provider, p.reference);
    match AfterReference(p, if found.Some? then Some(view[found.value]) else None)
    case Some(plan) => AsResolution(plan)
    case None =>
      if found.None? then Unavailable
      else ReversalsOf(op, found.value, view[found.value].terms.payload.kind, same, cross)
  }

  /** The plan an operation owes to what it has read. */
  ghost function OwedPlan(op: Op, seen: Reads): Plan
    requires op.Payload().wallet in seen.wallet.wallets
  {
    match AfterWallet(op.Payload(), seen.wallet.wallets[op.Payload().wallet])
    case Decided(plan) => plan
    case NeedReference => PlanFor(op.Payload().kind, ResolutionOf(op, seen.reference, seen.same, seen.cross))
  }

  /** An operation whose reads all fall in one moment makes the atomic plan of that moment. */
  lemma OneMomentIsAtomic(d: Db, op: Op)
    requires op.Payload().wallet in d.wallets
    ensures OwedPlan(op, Reads(d, d, d, d)) == AtomicPlan(d, op)
  {
  }

  /** The lookup of the reference is unambiguous. */
  lemma ReferenceIsLookup(d: Db, op: Op, found: Option<Uuid>)
    requires Unique(d.txs) && OpHeld(d, op) && Drafted(op)
    requires Found(View(d.txs, op), op.Payload().provider, op.Payload().reference, found)
    ensures found == Lookup(View(d.txs, op), op.Payload().provider, op.Payload().reference)
  {
    ViewIsUnique(d, op);
    if found.Some? {
      LookupIsUnique(View(d.txs, op), found.value, op.Payload().provider, op.Payload().reference);
    }
  }

  predicate Chose(c: Commit, seen: WalletRow, plan: Plan, now: Time) {
    c.Settled? && c.seen == seen && c.plan == plan && c.now == now
  }

  /** What the read of the reference tells an operation. */
  ghost predicate ReferenceTells(d: Db, op: Op, seen: WalletRow, found: Option<Uuid>)
    requires found.Some? ==> found.value in View(d.txs, op)
  {
    var p := op.Payload();
    match AfterReference(p, if found.Some? then Some(View(d.txs, op)[found.value]) else None)
    case Some(plan) => PlanHolds(d, op, seen, plan)
    case None =>
      found.Some? && Refers(d.txs, p, found.value) && View(d.txs, op)[found.value] == d.txs[found.value]
  }

  lemma ReferenceDecides(d: Db, op: Op, seen: WalletRow, found: Option<Uuid>)
    requires SeenHolds(d, op.Payload(), seen) && Drafted(op) && Unique(d.txs) && EndedHolds(d.txs, op.ended)
    requires Found(View(d.txs, op), op.Payload().provider, op.Payload().reference, found)
    ensures ReferenceTells(d, op, seen, found)
  {
    var p := op.Payload();
    if found.Some? {
      var plan := AfterReference(p, Some(View(d.txs, op)[found.value]));
      if plan.Some? && plan.value.Deny? {
        assert RefusedBy(d.txs, p, found.value, plan.value.code);
      }
    }
    if p.reference != p.external && (found.Some? ==> !View(d.txs, op)[found.value].status.IsTerminal()) {
      InFlightWasOpen(d.txs, op, found);
    }
  }

  lemma ReferenceRead(start: Db, d: Db, op: Op, seen: WalletRow, found: Option<Uuid>)
    requires Later(start, d) && DbInv(d) && SeenHolds(start, op.Payload(), seen) && OpHeld(d, op) && Drafted(op)
    requires Found(View(d.txs, op), op.Payload().provider, op.Payload().reference, found)
    ensures SeenHolds(d, op.Payload(), seen)
    ensures found == Lookup(View(d.txs, op), op.Payload().provider, op.Payload().reference)
    ensures ReferenceTells(d, op, seen, found)
  {
    assert Holds(UniqueClaim, d);
    SeenPersists(start, d, op.Payload(), seen);
    ReferenceDecides(d, op, seen, found);
    ReferenceIsLookup(d, op, found);
  }

  /** What the lookup of a reversal of its own kind tells an operation. */
  ghost predicate SameTells(d: Db, op: Op, seen: WalletRow, id: Uuid)
    requires id in d.txs
  {
    var kind, refKind := op.Payload().kind, d.txs[id].terms.payload.kind;
    if HasReversal(View(d.txs, op), id, kind) then PlanHolds(d, op, seen, Deny(ReversalConflict))
    else
      && !HasReversal(d.txs, id, kind)
      && (refKind != Bet ==> PlanHolds(d, op, seen, Resolved(kind, id, refKind)))
  }

  lemma SameDecides(d: Db, op: Op, seen: WalletRow, id: Uuid)
    requires SeenHolds(d, op.Payload(), seen) && Drafted(op) && Refers(d.txs, op.Payload(), id)
    ensures SameTells(d, op, seen, id)
  {
    ViewHasNoOwnReversal(d.txs, op, id, op.Payload().kind);
    if HasReversal(d.txs, id, op.Payload().kind) {
      assert Blocked(d.txs, op.Payload().kind, id);
    }
  }

  lemma CrossDecides(d: Db, op: Op, seen: WalletRow, id: Uuid)
    requires SeenHolds(d, op.Payload(), seen) && Drafted(op) && Refers(d.txs, op.Payload(), id)
    requires d.txs[id].terms.payload.kind == Bet
    requires seen.version == d.wallets[seen.id].version ==> !HasReversal(d.txs, id, op.Payload().kind)
    ensures var kind := op.Payload().kind;
            PlanHolds(d, op, seen,
                      if HasReversal(View(d.txs, op), id, CrossKind(kind)) then Deny(ReversalConflict)
                      else Resolved(kind, id, Bet))
  {
    ViewHasNoOwnReversal(d.txs, op, id, CrossKind(op.Payload().kind));
    if HasReversal(d.txs, id, CrossKind(op.Payload().kind)) {
      assert Blocked(d.txs, op.Payload().kind, id);
    }
  }

  /** The plan of an operation that needs nothing but its wallet. */
  function DirectPlan(p: Payload): Plan {
    if p.kind == Loss then Accept else Plan.Move(if p.kind == Bet then Debit else Credit, None)
  }

  /** What the wallet row alone tells. */
  ghost predicate ReadTells(d: Db, op: Op, w: WalletRow) {
    var p := op.Payload();
    && WalletHolds(w) && w.id == p.wallet
    && (w.player != p.player ==> PlanHolds(d, op, w, Deny(WalletPlayerMismatch)))
    && (w.currency != p.currency ==> PlanHolds(d, op, w, Deny(Code.CurrencyMismatch)))
    && (w.player == p.player && w.currency == p.currency ==>
          if NeedsReference(p) then SeenHolds(d, p, w) else PlanHolds(d, op, w, DirectPlan(p)))
  }

  lemma WalletReadDecides(d: Db, op: Op)
    requires WalletsHold(d) && RowsHold(d) && OpHeld(d, op) && Drafted(op)
    requires op.Payload().wallet in d.wallets
    ensures ReadTells(d, op, d.wallets[op.Payload().wallet])
  {
    var w := d.wallets[op.Payload().wallet];
    assert WalletHolds(w) && Older(w, w);
    HeldIsValid(d, op);
    HeldWalletIsRead(d, op, w);
  }

  lemma HeldWalletIsRead(d: Db, op: Op, w: WalletRow)
    requires op.Payload().wallet in d.wallets && w == d.wallets[op.Payload().wallet]
    requires WalletHolds(w) && w.id == op.Payload().wallet && Older(w, w)
    requires ValidExternal(op.row.terms.key, op.Payload())
    ensures ReadTells(d, op, w)
  {
  }

  lemma HeldIsValid(d: Db, op: Op)
    requires RowsHold(d) && OpHeld(d, op) && Drafted(op)
    ensures ValidExternal(op.row.terms.key, op.Payload())
  {
    assert op.isNew || RowHolds(d.txs[op.id]);
  }

  /** Nothing of an outcome is stored yet. */
  predicate Unresolved(op: Op) {
    op.row.reference == None && op.row.failure == None && op.row.result == None && !op.row.status.IsTerminal()
    && op.row.terms.origin == External
  }

  /** A row that is not final has no resolved reference yet. */
  lemma HeldRowIsUnresolved(base: Db, op: Op)
    requires RowsHold(base) && OpHeld(base, op)
    requires Drafted(op)
    ensures Unresolved(op)
  {
    if !op.isNew {
      assert RowHolds(base.txs[op.id]);
    }
  }

  lemma OverlayStorable(base: Db, h: Hold, op: Op)
    requires h.op == Some(op) && OpHeld(base, op) && !op.row.status.IsTerminal()
    ensures Storable(Overlay(base, h), op.id, op.row)
  {
  }

  lemma OverlayOverwritten(base: Db, h: Hold, op: Op, r: TxRow)
    requires h.op == Some(op) && OpHeld(base, op)
    ensures Overlay(base, h).txs[op.id := r] == base.txs[op.id := r]
  {
  }

  /** One UPDATE and one event on top of what is held are the effect of the commit. */
  lemma QuietConclusion(base: Db, h: Hold, c: Commit, e: Event)
    requires c.Settled? && c.delivery == None && h.op == Some(c.op) && OpHeld(base, c.op)
    requires !c.Posts() && TxEvents(c) == [e]
    requires Wakes(c) ==> c.op.row.terms.origin == External
    ensures var stored := Stored(Overlay(base, h), c.op.id, c.Row(), c.ids.told, e, c.now);
            WithClaim(Apply(base, c), h.claim) == (if Wakes(c) then Woke(stored, c.op.row.terms, c.now) else stored)
  {
    OverlayOverwritten(base, h, c.op, c.Row());
    assert c.Row().terms == c.op.row.terms;
    assert Overlay(base, h).txs[c.op.id].terms == c.op.row.terms;
    QuietEvents(base.outbox, c, e);
  }

  lemma QuietEvents(outbox: seq<OutboxRow>, c: Commit, e: Event)
    requires c.Settled? && !c.Posts() && TxEvents(c) == [e]
    ensures outbox + BalanceRows(c) + TxRows(c) == outbox + [OutboxRow(c.ids.told, e, c.now)]
  {
    assert BalanceRows(c) == [] && TxRows(c) == [OutboxRow(c.ids.told, e, c.now)];
  }

  lemma MovingConclusion(base: Db, h: Hold, c: Commit)
    requires c.Settled? && c.delivery == None && h.op == Some(c.op) && OpHeld(base, c.op)
    requires c.Posts() && c.seen.id in base.wallets && base.wallets[c.seen.id].version == c.seen.version
    requires c.op.row.terms.origin == External
    ensures var posted := Posted(Overlay(base, h), c.Posting(), c.seen.version + 1, c.ids.moved);
            var stored := Stored(posted, c.op.id, c.Row(), c.ids.told, TxProcessed(c.op.id, c.Posting().after), c.now);
            WithClaim(Apply(base, c), h.claim) == Woke(stored, c.op.row.terms, c.now)
  {
    OverlayOverwritten(base, h, c.op, c.Row());
    assert c.Row().terms == c.op.row.terms;
    assert Overlay(base, h).txs[c.op.id].terms == c.op.row.terms;
    MovingEvents(base.outbox, c);
  }

  lemma MovingEvents(outbox: seq<OutboxRow>, c: Commit)
    requires c.Settled? && c.Posts()
    ensures outbox + BalanceRows(c) + TxRows(c)
            == outbox + [OutboxRow(c.ids.moved, BalanceEvent(c.Posting(), c.seen.version + 1), c.now)]
                      + [OutboxRow(c.ids.told, TxProcessed(c.op.id, c.Posting().after), c.now)]
  {
    assert BalanceRows(c) == [OutboxRow(c.ids.moved, BalanceEvent(c.Posting(), c.seen.version + 1), c.now)];
    assert TxRows(c) == [OutboxRow(c.ids.told, TxProcessed(c.op.id, c.Posting().after), c.now)];
  }

  predicate Drafted(op: Op) {
    op.isNew ==> op.row == PendingRow(op.row.terms.key, op.Payload(), op.row.terms.createdAt)
                 && ValidExternal(op.row.terms.key, op.Payload())
  }

  /** Without a posting and a resolved reference, what is held is enough. */
  lemma HeldIsLegal(base: Db, c: Commit)
    requires c.Settled? && c.delivery == None && OpHeld(base, c.op) && Drafted(c.op)
    requires PlanHolds(base, c.op, c.seen, c.plan)
    requires !c.Posts() && (c.Row().status == Processed ==> c.Row().reference == None)
    requires EventIdFree(base.outbox, c.ids.told)
    ensures Legal(base, c)
  {
  }

  lemma PostingIsLegal(base: Db, h: Hold, c: Commit)
    requires c.Settled? && c.delivery == None && OpHeld(base, c.op) && Drafted(c.op) && h.op == Some(c.op)
    requires PlanHolds(base, c.op, c.seen, c.plan)
    requires c.Posts() && c.Posting().after <= MAX_INT64
    requires Postable(Overlay(base, h), c.Posting(), c.seen.version) && IdsAreNew(base.outbox, c.ids)
    requires ReversalFree(Overlay(base, h), c.op.id, c.Row())
    ensures Legal(base, c)
  {
    var view := Overlay(base, h);
    forall k | k in base.txs && k != c.op.id ensures k in view.txs && view.txs[k] == base.txs[k] {
    }
  }

  lemma MoverIsSound(base: Db, op: Op, seen: WalletRow, plan: Plan)
    requires RowsHold(base) && OpHeld(base, op) && Drafted(op) && plan.Move?
    requires PlanHolds(base, op, seen, plan)
    ensures IsInt64(op.Payload().amount) && 0 < op.Payload().amount && op.Payload().currency != NO_NAME
    ensures op.Payload().wallet == seen.id && op.Payload().currency == seen.currency
    ensures op.Payload().wallet in base.wallets
  {
    if !op.isNew {
      assert RowHolds(base.txs[op.id]);
    }
  }

  lemma MoveIsCommit(base: Db, h: Hold, c: Commit, view: Db, row: TxRow)
    requires c.Settled? && c.delivery == None && OpHeld(base, c.op) && Drafted(c.op) && h.op == Some(c.op)
    requires c.plan.Move? && PlanHolds(base, c.op, c.seen, c.plan)
    requires Unresolved(c.op) && c.op.Payload().currency == c.seen.currency && 0 < c.op.Payload().amount
    requires MoveEffect(Overlay(base, h), view, c.op.id, c.op.row, row, c.seen, c.plan.direction, c.plan.reference,
                        c.now, c.ids)
    ensures Legal(base, c) && row == c.Row()
    ensures view == WithClaim(Apply(base, c), h.claim)
  {
    if c.Posts() {
      PostingIsLegal(base, h, c);
      MovingConclusion(base, h, c);
    } else {
      HeldIsLegal(base, c);
      QuietConclusion(base, h, c, TxRejected(c.op.id, FundsCode(c.op.Payload().kind)));
    }
  }

  lemma RejectionIsCommit(base: Db, h: Hold, c: Commit)
    requires c.Settled? && c.delivery == None && OpHeld(base, c.op) && Drafted(c.op) && h.op == Some(c.op)
    requires c.plan.Deny? && PlanHolds(base, c.op, c.seen, c.plan) && Unresolved(c.op)
    requires EventIdFree(base.outbox, c.ids.told)
    ensures Legal(base, c) && c.Row() == Refused(c.op.row, c.plan.code, Some(c.seen.balance), c.now)
    ensures WithClaim(Apply(base, c), h.claim)
            == Stored(Overlay(base, h), c.op.id, c.Row(), c.ids.told, TxRejected(c.op.id, c.plan.code), c.now)
  {
    HeldIsLegal(base, c);
    QuietConclusion(base, h, c, TxRejected(c.op.id, c.plan.code));
  }

  lemma AcceptanceIsCommit(base: Db, h: Hold, c: Commit)
    requires c.Settled? && c.delivery == None && OpHeld(base, c.op) && Drafted(c.op) && h.op == Some(c.op)
    requires c.plan == Accept && PlanHolds(base, c.op, c.seen, c.plan) && Unresolved(c.op)
    requires EventIdFree(base.outbox, c.ids.told)
    ensures Legal(base, c) && c.Row() == Finished(c.op.row, c.seen.balance, None, c.now)
    ensures WithClaim(Apply(base, c), h.claim)
            == Woke(Stored(Overlay(base, h), c.op.id, c.Row(), c.ids.told, TxProcessed(c.op.id, c.seen.balance), c.now),
                    c.op.row.terms, c.now)
  {
    HeldIsLegal(base, c);
    QuietConclusion(base, h, c, TxProcessed(c.op.id, c.seen.balance));
  }

  lemma HeldIsUnposted(base: Db, op: Op, wallet: Uuid)
    requires RowsHold(base) && EntriesHold(base.txs, base.ledger) && OpHeld(base, op)
    ensures UnpostedIn(base.ledger, wallet, op.id)
  {
    forall i | 0 <= i < |base.ledger| ensures base.ledger[i].tx != op.id {
      assert EntryHolds(base.txs, base.ledger[i]);
    }
  }

  /** The version guard leaves the index on reversals nothing to object to. */
  lemma HeldIsUnrivalled(base: Db, h: Hold, c: Commit)
    requires c.Settled? && c.delivery == None && OpHeld(base, c.op) && Drafted(c.op) && h.op == Some(c.op)
    requires c.plan.Move? && PlanHolds(base, c.op, c.seen, c.plan) && c.Posts()
    requires c.seen.version == base.wallets[c.seen.id].version
    ensures ReversalFree(Overlay(base, h), c.op.id, c.Row())
  {
    GuardedPlanIsUnrivalled(base, c);
  }

  lemma RefusalIsExcused(base: Db, h: Hold, c: Commit, f: Failure)
    requires RowsHold(base) && EntriesHold(base.txs, base.ledger)
    requires c.Settled? && c.delivery == None && OpHeld(base, c.op) && Drafted(c.op) && h.op == Some(c.op)
    requires c.plan.Move? && PlanHolds(base, c.op, c.seen, c.plan) && 0 < c.now
    requires Unresolved(c.op) && c.op.Payload().currency == c.seen.currency && 0 < c.op.Payload().amount
    requires MoveRefused(Overlay(base, h), c.op.id, c.op.row, c.seen, c.plan.direction, c.plan.reference, c.now,
                         c.ids.entry, f)
    ensures MoveFails(base, c.op, c.seen, c.plan, c.now, c.ids.entry, f)
  {
    OverlayStorable(base, h, c.op);
    HeldIsUnposted(base, c.op, c.seen.id);
    if c.Posts() && c.seen.version == base.wallets[c.seen.id].version {
      HeldIsUnrivalled(base, h, c);
    }
    RefusalCases(base, Overlay(base, h), c, f);
  }

  lemma RefusalCases(base: Db, start: Db, c: Commit, f: Failure)
    requires c.Settled? && c.plan.Move? && c.seen.id in base.wallets && c.seen.id != NIL && 0 < c.now
    requires start.wallets == base.wallets && start.ledger == base.ledger
    requires c.op.Payload().currency == c.seen.currency != NO_NAME && 0 < c.op.Payload().amount
    requires Storable(start, c.op.id, c.op.row) && c.op.row.reference == None
    requires UnpostedIn(base.ledger, c.seen.id, c.op.id)
    requires c.Posts() && c.seen.version == base.wallets[c.seen.id].version ==>
               ReversalFree(start, c.op.id, c.Row())
    requires MoveRefused(start, c.op.id, c.op.row, c.seen, c.plan.direction, c.plan.reference, c.now, c.ids.entry, f)
    ensures MoveFails(base, c.op, c.seen, c.plan, c.now, c.ids.entry, f)
  {
  }

  /** A movement leaves a commit or has an excuse. */
  lemma MoveEnds(base: Db, h: Hold, c: Commit, view: Db, row: TxRow, r: Result<Outcome, Failure>)
    requires DbInv(base) && c.Settled? && c.delivery == None && OpHeld(base, c.op) && Drafted(c.op)
             && h.op == Some(c.op)
    requires c.plan.Move? && PlanHolds(base, c.op, c.seen, c.plan) && 0 < c.now
    requires Unresolved(c.op) && c.op.Payload().currency == c.seen.currency && 0 < c.op.Payload().amount
    requires MoveDone(Overlay(base, h), view, c.op.id, c.op.row, row, c.seen, c.plan.direction, c.plan.reference,
                      c.now, c.ids, r)
    ensures r.Ok? ==> Legal(base, c) && r.value == OutcomeOf(c.op.id, c.Row(), false)
    ensures r.Ok? ==> view == WithClaim(Apply(base, c), h.claim)
    ensures r.Err? ==> MoveFails(base, c.op, c.seen, c.plan, c.now, c.ids.entry, r.error)
  {
    if r.Ok? {
      MoveIsCommit(base, h, c, view, row);
    } else {
      assert Holds(LedgerClaim, base) && Holds(RowsClaim, base);
      RefusalIsExcused(base, h, c, r.error);
    }
  }

  lemma ParkingIsCommit(base: Db, h: Hold, c: Commit, view: Db, row: TxRow)
    requires c.Settled? && c.delivery == None && OpHeld(base, c.op) && Drafted(c.op) && h.op == Some(c.op)
    requires c.plan == Park && PlanHolds(base, c.op, c.seen, c.plan) && Unresolved(c.op)
    requires ParkEffect(Overlay(base, h), view, c.op.id, c.op.row, row, c.ids.told, c.next, c.now)
    ensures Legal(base, c) && row == c.Row()
    ensures view == WithClaim(Apply(base, c), h.claim)
  {
    HeldIsLegal(base, c);
    QuietConclusion(base, h, c, if MAX_ATTEMPTS <= c.op.row.attempts + 1 then TxRejected(c.op.id, ReferenceNotFound)
                                else TxPendingReference(c.op.id, c.op.row.attempts + 1, c.next));
  }

  /** What the caller is told is what the row says. */
  lemma OutcomeIsStored(base: Db, c: Commit)
    requires DbInv(base) && Legal(base, c) && c.Settled?
    ensures c.op.id in Apply(base, c).txs && Apply(base, c).txs[c.op.id] == c.Row()
    ensures c.Row().terms == c.op.row.terms
    ensures Names(c.Row(), c.op.Payload().provider, c.op.Payload().external)
  {
    TxsShape(base.txs, c);
    assert Holds(RowsClaim, base);
    OpIsValid(base, c.op);
  }

  /** The answer owed to a submission of (provider, external id) that had a row in `d`. */
  ghost predicate Owed(d: Db, now: Db, p: Payload, r: Result<Outcome, Failure>) {
    forall id :: id in d.txs && Names(d.txs[id], p.provider, p.external) ==>
      id in now.txs && r == AnswerTo(d.txs[id], id, now.txs[id], p)
  }

  /** The stored outcome if the payload is the same, a conflict if it is not. */
  function AnswerTo(known: TxRow, id: Uuid, row: TxRow, p: Payload): Result<Outcome, Failure> {
    if known.terms.payload == p then Ok(Outcome(id, row.status, row.result, row.failure, true))
    else Err(IdempotencyConflict)
  }

  /** A row of the same name or the same key is of another operation. */
  predicate Contradicts(r: TxRow, key: Name, p: Payload) {
    && r.terms.origin == External && r.terms.payload.provider == p.provider && r.terms.payload != p
    && (r.terms.payload.external == p.external || r.terms.key == key)
  }

  ghost predicate Conflicting(d: Db, key: Name, p: Payload) {
    exists id :: id in d.txs && Contradicts(d.txs[id], key, p)
  }

  lemma ConflictPersists(a: Db, b: Db, key: Name, p: Payload)
    requires TxsAdvance(a.txs, b.txs) && Conflicting(a, key, p)
    ensures Conflicting(b, key, p)
  {
    var id :| id in a.txs && Contradicts(a.txs[id], key, p);
    assert id in b.txs && Contradicts(b.txs[id], key, p);
  }

  lemma ConflictIsTaken(d: Db, key: Name, p: Payload)
    requires Conflicting(d, key, p)
    ensures Taken(d, key, p)
  {
    var id :| id in d.txs && Contradicts(d.txs[id], key, p);
    assert Names(d.txs[id], p.provider, p.external) || HoldsKey(d.txs[id], p.provider, key);
  }

  predicate Unnamed(d: Db, p: Payload) {
    Found(d.txs, p.provider, p.external, None)
  }

  /** No other row than id carries the name of p. */
  predicate OnlyName(txs: map<Uuid, TxRow>, p: Payload, id: Uuid) {
    id in txs && forall k :: k in txs && Names(txs[k], p.provider, p.external) ==> k == id
  }

  lemma FoundIsOnlyName(txs: map<Uuid, TxRow>, p: Payload, id: Uuid)
    requires Unique(txs) && Found(txs, p.provider, p.external, Some(id))
    ensures OnlyName(txs, p, id)
  {
    forall k | k in txs && Names(txs[k], p.provider, p.external) ensures k == id {
      assert SameName(txs[id], txs[k]);
    }
  }

  /** The lookup finds the row there has been all along. */
  lemma OnlyNameIsOwed(d: Db, now: Db, p: Payload, id: Uuid)
    requires TxsAdvance(d.txs, now.txs) && OnlyName(now.txs, p, id)
    ensures Owed(d, now, p, AnswerTo(now.txs[id], id, now.txs[id], p))
  {
    forall k | k in d.txs && Names(d.txs[k], p.provider, p.external)
      ensures k == id && now.txs[k].terms == d.txs[k].terms
    {
      assert Names(now.txs[k], p.provider, p.external);
    }
  }

  lemma UnfoundIsUnnamed(d: Db, now: Db, p: Payload)
    requires Later(d, now) && Unnamed(now, p)
    ensures Unnamed(d, p)
  {
    forall k | k in d.txs ensures !Names(d.txs[k], p.provider, p.external) {
      assert now.txs[k].terms == d.txs[k].terms;
    }
  }

  lemma OldRowIsFound(d: Db, now: Db, p: Payload, found: Option<Uuid>)
    requires Later(d, now) && Unique(now.txs) && Found(now.txs, p.provider, p.external, found)
    ensures found.Some? ==> Owed(d, now, p, AnswerTo(now.txs[found.value], found.value, now.txs[found.value], p))
    ensures found.None? ==> Unnamed(d, p)
  {
    if found.Some? {
      FoundIsOnlyName(now.txs, p, found.value);
      OnlyNameIsOwed(d, now, p, found.value);
    } else {
      UnfoundIsUnnamed(d, now, p);
    }
  }

  lemma UnnamedIsOwedNothing(d: Db, now: Db, p: Payload, r: Result<Outcome, Failure>)
    requires Unnamed(d, p)
    ensures Owed(d, now, p, r)
  {
  }

  lemma OwedEarlier(a: Db, b: Db, now: Db, p: Payload, r: Result<Outcome, Failure>)
    requires Later(a, b) && Owed(b, now, p, r)
    ensures Owed(a, now, p, r)
  {
    forall id | id in a.txs && Names(a.txs[id], p.provider, p.external)
      ensures id in b.txs && Names(b.txs[id], p.provider, p.external) && b.txs[id].terms == a.txs[id].terms
    {
    }
  }

  lemma RetryingIsOwedNothing(d: Db, now: Db, p: Payload, r: Result<Outcome, Failure>)
    requires Owed(d, now, p, r) && r.Err? && Retryable(r.error)
    ensures Unnamed(d, p)
  {
  }

  /** A row that is due is parked: nobody commits a PENDING row. */
  lemma DueRowIsParked(d: Db, op: Op)
    requires DbInv(d) && !op.isNew && op.id in d.txs && op.row == d.txs[op.id] && !op.row.status.IsTerminal()
    requires op.ended == Ended(d.txs)
    ensures OpHeld(d, op) && Drafted(op)
  {
    assert Holds(RowsClaim, d);
    assert RowHolds(d.txs[op.id]);
  }

  /** A resumption: the tables at the claim, the reads, and the commit with the tables it was
      made on. */
  datatype Resumption = Resumption(from: Db, seen: Reads, at: Db, c: Commit)

  /** The commit makes the plan owed to reads made since the claim; if it parks, nothing of
      the name it refers to had come to an end at the claim. */
  ghost predicate Resumes(from: Db, seen: Reads, at: Db, op: Op, c: Commit) {
    OwedTo(from, seen, at, op, c) && (c.plan.Park? ==> Unfinished(from.txs, op.Payload()))
  }

  /** From the tables `start` on, the resumptions of the log were committed one after the
      other, and then the tables became `now`. */
  ghost predicate LogSince(start: Db, log: seq<Resumption>, now: Db) {
    if log == [] then Later(start, now)
    else
      var r := log[|log| - 1];
      LogSince(start, log[..|log| - 1], r.from) && IsResumption(r) && Later(Apply(r.at, r.c), now)
  }

  ghost predicate IsResumption(r: Resumption) {
    && Later(r.from, r.at) && Legal(r.at, r.c)
    && r.c.Settled? && !r.c.op.isNew && Resumes(r.from, r.seen, r.at, r.c.op, r.c)
  }

  function PublicationOf(r: Resumption): Published {
    Published(r.at, Apply(r.at, r.c))
  }

  /** What the resumptions of a log have made visible. */
  function Publications(log: seq<Resumption>): seq<Published> {
    if log == [] then [] else Publications(log[..|log| - 1]) + [PublicationOf(log[|log| - 1])]
  }

  lemma PublicationsAppend(mark: seq<Published>, log: seq<Resumption>, r: Resumption)
    ensures mark + Publications(log + [r]) == mark + Publications(log) + [PublicationOf(r)]
  {
    var more := log + [r];
    assert more[|more| - 1] == r && more[..|more| - 1] == log;
  }

  lemma NothingMoreLogged(start: Db, log: seq<Resumption>, d: Db, now: Db)
    requires LogSince(start, log, d) && Later(d, now)
    ensures LogSince(start, log, now)
  {
    if log == [] {
      LaterTransitive(start, d, now);
    } else {
      var r := log[|log| - 1];
      LaterTransitive(Apply(r.at, r.c), d, now);
    }
  }

  lemma NothingLogged(start: Db)
    ensures LogSince(start, [], start)
  {
    LaterReflexive(start);
  }

  lemma CommitIsLogged(start: Db, log: seq<Resumption>, r: Resumption)
    requires LogSince(start, log, r.from) && IsResumption(r)
    ensures LogSince(start, log + [r], Apply(r.at, r.c))
  {
    var more := log + [r];
    assert more[|more| - 1] == r && more[..|more| - 1] == log;
    LaterReflexive(Apply(r.at, r.c));
  }

  /** A round adds its resumption to the log if it has committed one. */
  lemma RoundIsLogged(start: Db, past: seq<Resumption>, d: Db, op: Op, r: Resumption, now: Db, commits: bool)
    requires LogSince(start, past, d) && Later(d, r.from) && Later(r.from, r.at)
    requires now == if commits then Apply(r.at, r.c) else r.at
    requires commits ==> !op.isNew && Legal(r.at, r.c) && Resumes(r.from, r.seen, r.at, op, r.c)
    ensures LogSince(start, past, r.from)
    ensures LogSince(start, if commits then past + [r] else past, now)
  {
    NothingMoreLogged(start, past, d, r.from);
    if commits {
      CommitIsLogged(start, past, r);
    } else {
      NothingMoreLogged(start, past, r.from, now);
    }
  }

  lemma LaterThrice(start: Db, d: Db, at: Db, now: Db)
    requires Later(start, d) && Later(d, at) && Later(at, now)
    ensures Later(start, now) && Later(d, now) && Later(start, at)
  {
    LaterTransitive(d, at, now);
    LaterTransitive(start, d, at);
    LaterTransitive(start, d, now);
  }

  // ----- losing races -----------------------------------------------------------------

  /** The operation's name or key already has a row. */
  predicate Taken(d: Db, key: Name, p: Payload) {
    !Found(d.txs, p.provider, p.external, None) || !FoundKey(d.txs, p.provider, key, None)
  }

  function VersionAt(d: Db, w: Uuid): int {
    if w in d.wallets then d.wallets[w].version else 0
  }

  /** What makes an attempt worth repeating: somebody stored the operation, or moved the wallet. */
  predicate Contended(a: Db, b: Db, key: Name, p: Payload) {
    Taken(b, key, p) || VersionAt(a, p.wallet) < VersionAt(b, p.wallet)
  }

  lemma VersionsGrow(a: Db, b: Db, w: Uuid)
    requires Later(a, b) && DbInv(b)
    ensures VersionAt(a, w) <= VersionAt(b, w)
  {
    assert Holds(WalletsClaim, b);
    if w in b.wallets {
      assert WalletHolds(b.wallets[w]);
    }
    if w in a.wallets {
      assert Older(a.wallets[w], b.wallets[w]);
    }
  }

  /** A movement that lost its race was overtaken by another movement of the wallet. */
  lemma LostRaceMovedWallet(start: Db, seen: Reads, end: Db, w: Uuid)
    requires InTurn(start, seen, end) && DbInv(end)
    requires w in seen.wallet.wallets && w in end.wallets && end.wallets[w].version != seen.wallet.wallets[w].version
    ensures VersionAt(start, w) < VersionAt(end, w)
  {
    LaterTransitive(seen.wallet, seen.reference, seen.same);
    LaterTransitive(seen.wallet, seen.same, seen.cross);
    LaterTransitive(seen.wallet, seen.cross, end);
    assert Older(seen.wallet.wallets[w], end.wallets[w]);
    assert Holds(WalletsClaim, end);
    assert WalletHolds(end.wallets[w]);
    if w in start.wallets {
      assert Older(start.wallets[w], seen.wallet.wallets[w]);
    }
  }

  lemma OnlyRacesAreRetried(d: Db, op: Op, seen: WalletRow, plan: Plan, now: Time, entry: Uuid, f: Failure)
    requires MoveFails(d, op, seen, plan, now, entry, f)
    ensures Retryable(f) ==> seen.id in d.wallets && d.wallets[seen.id].version != seen.version
    ensures f == Invalid ==> op.id == NIL
  {
  }

  lemma FailuresToRetry(start: Db, seen: Reads, end: Db, op: Op, plan: Plan, now: Time, entry: Uuid, f: Failure)
    requires InTurn(start, seen, end) && DbInv(end) && op.Payload().wallet in seen.wallet.wallets
    requires var w := seen.wallet.wallets[op.Payload().wallet];
             w.id == op.Payload().wallet && MoveFails(end, op, w, plan, now, entry, f)
    ensures Retryable(f) ==> VersionAt(start, op.Payload().wallet) < VersionAt(end, op.Payload().wallet)
    ensures f == Invalid ==> op.id == NIL
  {
    OnlyRacesAreRetried(end, op, seen.wallet.wallets[op.Payload().wallet], plan, now, entry, f);
    if Retryable(f) {
      LostRaceMovedWallet(start, seen, end, op.Payload().wallet);
    }
  }

  /** What neither lookup finds was not there before them. */
  lemma NotTakenBefore(start: Db, d: Db, e: Db, key: Name, p: Payload)
    requires Later(start, d) && Later(start, e)
    requires Found(d.txs, p.provider, p.external, None) && FoundKey(e.txs, p.provider, key, None)
    ensures !Taken(start, key, p)
  {
    forall id | id in start.txs
      ensures !Names(start.txs[id], p.provider, p.external) && !HoldsKey(start.txs[id], p.provider, key)
    {
      assert id in d.txs && d.txs[id].terms == start.txs[id].terms;
      assert id in e.txs && e.txs[id].terms == start.txs[id].terms;
    }
  }

  // ----- what was owed ------------------------------------------------------------------

  /** The commit makes the plan owed to reads taken between `start` and `end`. */
  ghost predicate OwedTo(start: Db, seen: Reads, end: Db, op: Op, c: Commit) {
    && InTurn(start, seen, end) && op.Payload().wallet in seen.wallet.wallets
    && c.Settled? && c.op == op
    && c.seen == seen.wallet.wallets[op.Payload().wallet] && c.plan == OwedPlan(op, seen)
  }

  lemma InTurnEarlier(start: Db, d: Db, seen: Reads, end: Db)
    requires Later(start, d) && InTurn(d, seen, end)
    ensures InTurn(start, seen, end)
  {
    LaterTransitive(start, d, seen.wallet);
  }

  lemma OwedEarlierToo(start: Db, d: Db, seen: Reads, end: Db, op: Op, c: Commit)
    requires Later(start, d) && OwedTo(d, seen, end, op, c)
    ensures OwedTo(start, seen, end, op, c)
  {
    InTurnEarlier(start, d, seen, end);
  }

  lemma UnfinishedBefore(a: map<Uuid, TxRow>, b: map<Uuid, TxRow>, p: Payload)
    requires TxsAdvance(a, b) && Unfinished(b, p)
    ensures Unfinished(a, p)
  {
    forall id | id in a && IsNamed(a[id], p.provider, p.reference)
      ensures a[id].status == Pending || a[id].status == PendingReference
    {
      assert id in b && Advanced(a[id], b[id]);
    }
  }

  /** What is parked was open when its attempt began, and before. */
  lemma ParkedWasOpen(start: Db, began: Db, d: Db, c: Commit)
    requires DbInv(d) && Legal(d, c) && c.Settled? && c.plan.Park?
    requires Later(start, began) && Later(began, d) && c.op.ended == Ended(began.txs)
    ensures Unfinished(began.txs, c.op.Payload()) && Unfinished(start.txs, c.op.Payload())
  {
    InvRows(d);
    ParkingBeganOpen(d, c);
    BeganUnfinished(began.txs, d.txs, c.op);
    UnfinishedBefore(start.txs, began.txs, c.op.Payload());
  }

  /** Any commit with the plan Park began open. */
  lemma ParkedBeganOpen(d: Db, c: Commit)
    requires RowsInv(d) && Legal(d, c) && c.Settled?
    ensures c.plan.Park? ==> BeganOpen(d.txs, c.op)
  {
    if c.plan.Park? {
      ParkingBeganOpen(d, c);
    }
  }

  lemma AmountIsNatural(d: Db, op: Op)
    requires DbInv(d) && OpHeld(d, op) && Drafted(op)
    ensures 0 <= op.Payload().amount
  {
    assert Holds(RowsClaim, d);
    HeldIsValid(d, op);
  }

  lemma HeldWalletExists(d: Db, op: Op)
    requires DbInv(d) && OpHeld(d, op)
    ensures op.Payload().wallet in d.wallets
  {
    assert Holds(RowsClaim, d);
  }

  /** A second answer, after whatever commits, is the first: same transaction, same status,
      same balance, same code. */
  lemma AnswersAgree(a: Db, b: Db, p: Payload, first: Outcome, second: Outcome)
    requires DbInv(b) && Later(a, b)
    requires first.tx in a.txs && second.tx in b.txs
    requires IsNamed(a.txs[first.tx], p.provider, p.external) && IsNamed(b.txs[second.tx], p.provider, p.external)
    requires Tells(first, first.tx, a.txs[first.tx]) && Tells(second, second.tx, b.txs[second.tx])
    requires first.status in {Processed, Rejected, Failed}
    ensures second.tx == first.tx && second.status == first.status
    ensures second.balance == first.balance && second.failure == first.failure
  {
    assert first.tx in b.txs && Advanced(a.txs[first.tx], b.txs[first.tx]);
    NamedOnce(b, first.tx, second.tx, p.provider, p.external);
  }
}
