/** The wager service, statement by statement, while other processes commit between its
    statements. Each method is proved against the commits of Tables: whatever happened in
    between, what it leaves to commit is a commit the operation is entitled to. */
module Service {
  import opened Domain
  import opened Rules
  import opened Tables
  import opened Invariants
  import opened Progress
  import opened Safety
  import opened Laws
  import opened Interleaving
  import opened Atomicity
  import opened Moneys
  import opened Wallets
  import opened Transactions
  import opened Databases
  import opened Conclusions
  import opened Backoffs
  import opened Hashing

  class WagerService {
    const db: Database
    const retries: Limit
    const base: int
    const cap: int

    constructor (db: Database, retries: int, base: int, cap: int)
      ensures this.db == db && this.retries == (if retries < 1 then 5 else retries) && this.base == base
              && this.cap == cap
    {
      this.db, this.retries, this.base, this.cap := db, if retries < 1 then 5 else retries, base, cap;
    }

    ghost predicate Working(op: Op)
      reads db
    {
      && db.Valid() && db.Reading() && db.hold.op == Some(op)
      && Drafted(op)
    }

    /** What resolving a reference has established. */
    ghost predicate ResolvedAs(op: Op, seen: WalletRow, r: Resolution)
      reads db
    {
      && Working(op)
      && (r.Available? ==> r.ref in db.committed.txs && r.refKind == db.committed.txs[r.ref].terms.payload.kind)
      && PlanHolds(db.committed, op, seen, PlanFor(op.Payload().kind, r))
    }

    /** The tests on the referenced row alone. */
    method CheckReference(p: Payload, ref: TxRow) returns (verdict: Option<Resolution>)
      ensures match AfterReference(p, Some(ref))
              case Some(plan) => verdict == Some(AsResolution(plan))
              case None => verdict == None
    {
      if ref.status == Pending || ref.status == PendingReference { return Some(Unavailable); }
      if ref.status != Processed { return Some(Definitive(ReferenceNotProcessed)); }
      if !ReferenceKindFits(p.kind, ref.terms.payload.kind) { return Some(Definitive(ReferenceMismatch)); }
      if !ReferenceAgrees(p, ref.terms.payload) { return Some(Definitive(ReferenceMismatch)); }
      if p.kind.IsReversal() && ref.terms.payload.amount != p.amount {
        return Some(Definitive(ReferenceAmountMismatch));
      }
      return None;
    }

    /** The lookup of the reference. */
    method ReadReference(p: Payload, ghost op: Op, ghost seen: WalletRow) returns (found: Option<Uuid>)
      requires p == op.Payload() && Working(op) && SeenHolds(db.committed, p, seen)
      modifies db`committed, db`view, db`turn
      ensures Working(op) && Later(old(db.committed), db.committed) && SeenHolds(db.committed, p, seen)
      ensures found == Lookup(View(db.committed.txs, op), p.provider, p.reference)
      ensures found.Some? ==> found.value in db.view.txs
                              && db.view.txs[found.value] == View(db.committed.txs, op)[found.value]
      ensures ReferenceTells(db.committed, op, seen, found)
    {
      db.Yield();
      found := db.GetByProviderExternal(p.provider, p.reference);
      ReferenceRead(old(db.committed), db.committed, op, seen, found);
    }

    /** Validates the referenced transaction; the wallet has been read before. */
    method ResolveReference(t: Transaction, ghost op: Op, ghost seen: WalletRow)
      returns (r: Resolution, ghost reference: Db, ghost same: Db)
      requires Working(op) && t.Row() == op.row && SeenHolds(db.committed, op.Payload(), seen)
      modifies db`committed, db`view, db`turn
      ensures ResolvedAs(op, seen, r) && r == ResolutionOf(op, reference, same, db.committed)
      ensures Later(old(db.committed), reference) && Later(reference, same) && Later(same, db.committed)
    {
      var p := t.terms.payload;
      var found := ReadReference(p, op, seen);
      reference, same := db.committed, db.committed;
      LaterReflexive(reference);
      if found.None? {
        return Unavailable, reference, same;
      }
      var ref := db.view.txs[found.value];
      var verdict := CheckReference(p, ref);
      if verdict.Some? {
        return verdict.value, reference, same;
      }
      r, same := LookForReversals(p, found.value, ref.terms.payload.kind, op, seen);
    }

    method IsReversed(id: Uuid, kind: Kind) returns (reversed: bool)
      ensures reversed == HasReversal(db.view.txs, id, kind)
    {
      var found := db.FindReversal(id, kind);
      return found.Some?;
    }

    /** The lookup of a reversal of the operation's own kind. */
    method ReadSame(p: Payload, id: Uuid, ghost op: Op, ghost seen: WalletRow) returns (taken: bool)
      requires p == op.Payload() && Working(op) && SeenHolds(db.committed, p, seen) && Refers(db.committed.txs, p, id)
      modifies db`committed, db`view, db`turn
      ensures Working(op) && Later(old(db.committed), db.committed)
      ensures SeenHolds(db.committed, p, seen) && Refers(db.committed.txs, p, id)
      ensures db.committed.txs[id].terms == old(db.committed).txs[id].terms
      ensures taken == HasReversal(View(db.committed.txs, op), id, p.kind)
      ensures SameTells(db.committed, op, seen, id)
    {
      ghost var start := db.committed;
      db.Yield();
      SeenPersists(start, db.committed, p, seen);
      RefersPersists(start.txs, db.committed.txs, p, id);
      taken := IsReversed(id, p.kind);
      SameDecides(db.committed, op, seen, id);
    }

    /** A reference is closed by an operation of the same kind. */
    method LookForReversals(p: Payload, id: Uuid, refKind: Kind, ghost op: Op, ghost seen: WalletRow)
      returns (r: Resolution, ghost same: Db)
      requires p == op.Payload() && Working(op) && SeenHolds(db.committed, op.Payload(), seen)
      requires Refers(db.committed.txs, op.Payload(), id) && refKind == db.committed.txs[id].terms.payload.kind
      modifies db`committed, db`view, db`turn
      ensures ResolvedAs(op, seen, r) && r == ReversalsOf(op, id, refKind, same, db.committed)
      ensures Later(old(db.committed), same) && Later(same, db.committed)
    {
      var taken := ReadSame(p, id, op, seen);
      same := db.committed;
      LaterReflexive(same);
      if taken {
        return Definitive(ReversalConflict), same;
      }
      if refKind == Bet {
        r := LookForCross(p, id, op, seen);
        return;
      }
      return Available(id, refKind), same;
    }

    /** A BET is also closed to one kind of reversal by the other. */
    method LookForCross(p: Payload, id: Uuid, ghost op: Op, ghost seen: WalletRow) returns (r: Resolution)
      requires p == op.Payload() && Working(op) && SeenHolds(db.committed, p, seen)
      requires Refers(db.committed.txs, p, id) && db.committed.txs[id].terms.payload.kind == Bet
      requires seen.version == db.committed.wallets[seen.id].version ==> !HasReversal(db.committed.txs, id, p.kind)
      modifies db`committed, db`view, db`turn
      ensures ResolvedAs(op, seen, r) && Later(old(db.committed), db.committed)
      ensures r == if HasReversal(View(db.committed.txs, op), id, CrossKind(p.kind)) then Definitive(ReversalConflict)
                   else Available(id, Bet)
    {
      ghost var start := db.committed;
      db.Yield();
      assert Holds(LinksClaim, db.committed);
      NoSamePersists(start, db.committed, p, seen, id);
      var cross := IsReversed(id, CrossKind(p.kind));
      CrossDecides(db.committed, op, seen, id);
      if cross {
        return Definitive(ReversalConflict);
      }
      return Available(id, Bet);
    }

    // ----- the statements that write --------------------------------------------------

    /** The row is stored as rejected and the rejection announced. */
    method Reject(t: Transaction, code: Code, observed: Option<int>, now: Time)
      returns (r: Result<Outcome, Failure>, ghost told: Uuid)
      requires db.Valid()
      modifies t, db`view, db`turn
      ensures db.Valid()
      ensures Storable(old(db.view), t.id, old(t.Row())) ==> r.Ok?
      ensures r.Ok? ==>
                && t.Row() == Refused(old(t.Row()), code, observed, now)
                && r.value == OutcomeOf(t.id, t.Row(), false)
                && EventIdFree(old(db.view).outbox, told)
                && db.view == Stored(old(db.view), t.id, t.Row(), told, TxRejected(t.id, code), now)
      ensures r.Ok? ==> r.value == Outcome(t.id, Rejected, observed, Some(code), false)
    {
      told := NIL;
      var refused := t.MarkRejected(code, observed, now);
      if refused.Some? { return Err(Terminal), told; }
      var error := db.UpdateTx(t.id, t.Row());
      if error.Some? { return Err(error.value), told; }
      told := db.InsertOutbox(TxRejected(t.id, code), now);
      return Ok(Outcome(t.id, Rejected, observed, Some(code), false)), told;
    }

    /** The row is stored as processed, announced, and whoever waits for it is woken. */
    method MarkProcessed(t: Transaction, balance: int, now: Time)
      returns (r: Result<Outcome, Failure>, ghost told: Uuid)
      requires db.Valid()
      modifies t, db`view, db`turn
      ensures db.Valid()
      ensures r.Ok? ==>
                && t.Row() == Finished(old(t.Row()), balance, old(t.reference), now)
                && r.value == OutcomeOf(t.id, t.Row(), false)
                && ReversalFree(old(db.view), t.id, t.Row())
                && EventIdFree(old(db.view).outbox, told)
                && db.view == Woke(Stored(old(db.view), t.id, t.Row(), told, TxProcessed(t.id, balance), now), t.terms,
                                   now)
      ensures r.Ok? ==> r.value == Outcome(t.id, Processed, Some(balance), None, false)
      ensures r.Err? ==>
                && (r.error == Terminal || r.error == DuplicateReversal)
                && (!Storable(old(db.view), t.id, old(t.Row()))
                    || !ReversalFree(old(db.view), t.id, Finished(old(t.Row()), balance, old(t.reference), now)))
    {
      told := NIL;
      var refused := t.MarkProcessed(balance, now);
      if refused.Some? { return Err(Terminal), told; }
      var error := db.UpdateTx(t.id, t.Row());
      if error.Some? { return Err(error.value), told; }
      told := db.InsertOutbox(TxProcessed(t.id, balance), now);
      WakeWaiting(t.terms, now);
      return Ok(Outcome(t.id, Processed, Some(balance), None, false)), told;
    }

    /** Internal operations have no name to wait for. */
    method WakeWaiting(terms: Terms, now: Time)
      requires db.Valid()
      modifies db`view
      ensures db.Valid() && db.view == Woke(old(db.view), terms, now)
    {
      if terms.origin == External {
        ghost var txs := db.view.txs;
        db.Wake(terms.payload.provider, terms.payload.external, now);
        assert db.view.txs == WakeDependents(txs, terms.payload.provider, terms.payload.external, now);
      }
    }

    /** When a parked row is looked at again. */
    function RetryInstant(attempts: nat, now: Time): Time {
      now + Doubled(base, attempts, cap)
    }

    method NextAttempt(attempts: nat, now: Time) returns (next: Time)
      ensures next == RetryInstant(attempts, now)
      ensures 0 < base && Safe(base, cap) ==> next == now + Min(base * Pow2(attempts), cap)
    {
      var wait := Backoff(base, cap, attempts + 1);
      next := now + wait;
      if 0 < base && Safe(base, cap) {
        SafeDoubling(base, attempts, cap);
      }
    }

    /** Parks the operation until its reference may be there, or gives it up. The wait is
        what the doublings in the register come to: with safe settings base * 2^attempts, at
        most the cap. Only an instant of zero is refused. */
    method ScheduleReferenceRetry(t: Transaction, now: Time)
      returns (r: Result<Outcome, Failure>, next: Time, ghost told: Uuid)
      requires db.Valid()
      modifies t, db`view, db`turn
      ensures db.Valid()
      ensures Storable(old(db.view), t.id, old(t.Row())) ==>
                (r.Err? <==> old(t.attempts) + 1 < MAX_ATTEMPTS && RetryInstant(old(t.attempts), now) == 0)
                && (r.Err? ==> r.error == Invalid)
      ensures r.Ok? ==> ParkEffect(old(db.view), db.view, t.id, old(t.Row()), t.Row(), told, next, now)
      ensures old(t.attempts) + 1 < MAX_ATTEMPTS && r.Ok? ==> next == RetryInstant(old(t.attempts), now)
      ensures old(t.attempts) + 1 < MAX_ATTEMPTS && r.Ok? && 0 < base && Safe(base, cap) ==>
                next == now + Min(base * Pow2(old(t.attempts)), cap)
      ensures r.Ok? && old(t.result) == None && old(t.failure) == None ==> r.value == OutcomeOf(t.id, t.Row(), false)
    {
      next, told := now, NIL;
      if t.attempts + 1 >= MAX_ATTEMPTS {
        r, told := Reject(t, ReferenceNotFound, None, now);
        return;
      }
      if t.status == Pending {
        var refused := t.MarkPendingReference(now);
        if refused.Some? { return Err(Terminal), next, told; }
      }
      next := NextAttempt(t.attempts, now);
      var late := t.ScheduleRetry(next, now);
      if late.Some? { return Err(if late.value == InvalidArgument then Invalid else Terminal), next, told; }
      var error := db.UpdateTx(t.id, t.Row());
      if error.Some? { return Err(error.value), next, told; }
      told := db.InsertOutbox(TxPendingReference(t.id, t.attempts, next), now);
      return Ok(Outcome(t.id, PendingReference, None, None, false)), next, told;
    }

    /** The aggregate's own movement. */
    method Shift(w: Wallet, direction: Direction, amount: Money, now: Time)
      returns (moved: Result<BalanceChange, WalletError>)
      requires w.Valid() && IsInt64(amount.amount)
      modifies w
      ensures w.Valid()
      ensures match MoveRow(old(w.Row()), direction, amount, now)
              case Err(e) => moved == Err(e) && w.Row() == old(w.Row())
              case Ok(row) => moved == Ok(BalanceChange(old(w.Row()).balance, row.balance)) && w.Row() == row
    {
      if direction == Debit {
        moved := w.Debit(amount, now);
      } else {
        moved := w.Credit(amount, now);
      }
    }

    /** Moves the wallet: the guarded update comes first, so that a lost race leaves nothing
        behind; then the ledger entry, the balance event and the final status. */
    method Move(t: Transaction, w: Wallet, direction: Direction, ref: Option<Uuid>, now: Time, entryId: Uuid)
      returns (r: Result<Outcome, Failure>, ghost ids: Ids)
      requires db.Valid() && w.Valid() && IsInt64(t.terms.payload.amount)
      modifies t, w, db`view, db`turn
      ensures db.Valid() && ids.entry == entryId
      ensures MoveDone(old(db.view), db.view, t.id, old(t.Row()), t.Row(), old(w.Row()), direction, ref, now, ids, r)
    {
      var p := t.terms.payload;
      var expected := w.version;
      var amount := Money(p.amount, p.currency);
      ids := Ids(entryId, NIL, NIL);
      var moved := Shift(w, direction, amount, now);
      if moved.Err? {
        if moved.error == NotEnough {
          ghost var told;
          r, told := Reject(t, FundsCode(p.kind), Some(w.balance.amount), now);
          ids := Ids(entryId, NIL, told);
          return;
        }
        return Err(MoneyRange), ids;
      }
      r, ids := Post(t, w, expected, moved.value, direction, ref, now, entryId, old(w.Row()));
    }

    /** The statements of a movement that the wallet has accepted. */
    method Post(t: Transaction, w: Wallet, expected: int, change: BalanceChange, direction: Direction,
                ref: Option<Uuid>, now: Time, entryId: Uuid, ghost was: WalletRow)
      returns (r: Result<Outcome, Failure>, ghost ids: Ids)
      requires db.Valid() && expected == was.version && change == BalanceChange(was.balance, w.balance.amount)
      requires MoveRow(was, direction, Money(t.terms.payload.amount, t.terms.payload.currency), now) == Ok(w.Row())
      requires w.Valid() && 0 <= was.balance <= MAX_INT64
      modifies t, db`view, db`turn
      ensures db.Valid() && ids.entry == entryId && w.Row() == old(w.Row())
      ensures match r
              case Ok(out) =>
                && out == OutcomeOf(t.id, t.Row(), false)
                && PostEffect(old(db.view), db.view, t.id, old(t.Row()), t.Row(), was, w.Row(), direction, ref, now,
                              ids)
              case Err(f) => PostRefused(old(db.view), t.id, old(t.Row()), was, w.Row(), ref, now, entryId, f)
    {
      var p := t.terms.payload;
      ids := Ids(entryId, NIL, NIL);
      var lost := db.UpdateBalance(w.Row(), expected);
      if lost.Some? { return Err(lost.value), ids; }
      var amount := Money(p.amount, p.currency);
      var before, after := Money(change.before, w.currency), Money(change.after, w.currency);
      if !ValidateEntry(w.id, t.id, direction, amount, before, after, now) { return Err(Invalid), ids; }
      var entry := EntryRow(entryId, w.id, t.id, direction, p.amount, change.before, change.after, now);
      r, ids := Book(t, entry, w.version, ref);
    }

    /** The row of a movement as it will be stored. */
    ghost function Settling(row: TxRow, e: EntryRow, ref: Option<Uuid>): TxRow {
      Finished(row, e.after, if ref.Some? then ref else row.reference, e.createdAt)
    }

    /** The statements of a movement after the guarded update of the wallet. */
    method Book(t: Transaction, e: EntryRow, version: int, ref: Option<Uuid>)
      returns (r: Result<Outcome, Failure>, ghost ids: Ids)
      requires db.Valid() && e.tx == t.id
      modifies t, db`view, db`turn
      ensures db.Valid() && ids.entry == e.id
      ensures r.Err? ==>
                || (r.error == Storage
                    && (!EntryIdFree(old(db.view).ledger, e.id) || !UnpostedIn(old(db.view).ledger, e.wallet, e.tx)))
                || ((r.error == Terminal || r.error == DuplicateReversal)
                    && (!Storable(old(db.view), t.id, old(t.Row()))
                        || !ReversalFree(old(db.view), t.id, Settling(old(t.Row()), e, ref))))
      ensures r.Ok? ==>
                && EntryIdFree(old(db.view).ledger, e.id) && UnpostedIn(old(db.view).ledger, e.wallet, e.tx)
                && IdsAreNew(old(db.view).outbox, ids)
                && t.Row() == Settling(old(t.Row()), e, ref)
                && r.value == OutcomeOf(t.id, t.Row(), false)
                && ReversalFree(old(db.view), t.id, t.Row())
      ensures r.Ok? ==>
                var booked := Booked(old(db.view), e, version, ids.moved);
                db.view == Woke(Stored(booked, t.id, t.Row(), ids.told, TxProcessed(t.id, e.after), e.createdAt),
                                t.terms, e.createdAt)
    {
      ids := Ids(e.id, NIL, NIL);
      if ref.Some? {
        t.SetReferenceResolution(ref.value, e.createdAt);
      }
      var taken := db.InsertLedger(e);
      if taken.Some? { return Err(taken.value), ids; }
      ghost var outbox := db.view.outbox;
      ghost var told;
      ghost var moved := db.InsertOutbox(BalanceEvent(e, version), e.createdAt);
      r, told := MarkProcessed(t, e.after, e.createdAt);
      ids := Ids(e.id, moved, told);
      if r.Ok? {
        NextIdIsNew(outbox, OutboxRow(moved, BalanceEvent(e, version), e.createdAt), told);
      }
    }

    // ----- conclusions ----------------------------------------------------------------

    /** What the open transaction has written is a commit the operation is entitled to. */
    ghost predicate Concluded(op: Op, c: Commit, out: Outcome)
      reads db
    {
      && db.Valid() && db.hold.op == Some(op)
      && c.Settled? && c.op == op && c.delivery == None && Legal(db.committed, c)
      && db.view == WithClaim(Apply(db.committed, c), db.hold.claim)
      && out == OutcomeOf(op.id, c.Row(), false)
    }

    /** The others commit once more before the statements that write; the plan outlives it. */
    method Settle(ghost w: WalletRow, ghost plan: Plan, ghost op: Op)
      requires Working(op) && PlanHolds(db.committed, op, w, plan)
      modifies db`committed, db`view, db`turn
      ensures Working(op) && PlanHolds(db.committed, op, w, plan)
      ensures Later(old(db.committed), db.committed)
      ensures Unresolved(op) && Storable(db.view, op.id, op.row)
      ensures RowsHold(db.committed)
    {
      ghost var start := db.committed;
      db.Yield();
      assert Holds(LinksClaim, db.committed) && Holds(RowsClaim, db.committed);
      PlanPersists(start, db.committed, op, w, plan);
      HeldRowIsUnresolved(db.committed, op);
      OverlayStorable(db.committed, db.hold, op);
    }

    method ConcludeRejection(t: Transaction, w: WalletRow, code: Code, now: Time, ghost op: Op)
      returns (r: Result<Outcome, Failure>, ghost c: Commit)
      requires Working(op) && t.id == op.id && t.Row() == op.row
      requires PlanHolds(db.committed, op, w, Deny(code))
      modifies t, db`committed, db`view, db`turn
      ensures Later(old(db.committed), db.committed)
      ensures r.Ok? && Concluded(op, c, r.value) && Chose(c, w, Deny(code), now)
    {
      Settle(w, Deny(code), op);
      ghost var told;
      r, told := Reject(t, code, Some(w.balance), now);
      c := Settled(op, w, Deny(code), now, Ids(NIL, NIL, told), now, None);
      RejectionIsCommit(db.committed, db.hold, c);
    }

    method ConcludeAcceptance(t: Transaction, w: WalletRow, now: Time, ghost op: Op)
      returns (r: Result<Outcome, Failure>, ghost c: Commit)
      requires Working(op) && t.id == op.id && t.Row() == op.row
      requires PlanHolds(db.committed, op, w, Accept)
      modifies t, db`committed, db`view, db`turn
      ensures Later(old(db.committed), db.committed)
      ensures r.Ok? && Concluded(op, c, r.value) && Chose(c, w, Accept, now)
    {
      Settle(w, Accept, op);
      ghost var told;
      r, told := MarkProcessed(t, w.balance, now);
      c := Settled(op, w, Accept, now, Ids(NIL, NIL, told), now, None);
      AcceptanceIsCommit(db.committed, db.hold, c);
    }

    method ConcludeParking(t: Transaction, ghost w: WalletRow, now: Time, ghost op: Op)
      returns (r: Result<Outcome, Failure>, ghost c: Commit)
      requires Working(op) && t.id == op.id && t.Row() == op.row
      requires PlanHolds(db.committed, op, w, Park)
      modifies t, db`committed, db`view, db`turn
      ensures Later(old(db.committed), db.committed) && Chose(c, w, Park, now)
      ensures r.Err? <==> op.row.attempts + 1 < MAX_ATTEMPTS && RetryInstant(op.row.attempts, now) == 0
      ensures if r.Ok? then Concluded(op, c, r.value) else db.Valid() && r.error == Invalid
      ensures op.row.attempts + 1 < MAX_ATTEMPTS && r.Ok? ==> c.next == RetryInstant(op.row.attempts, now)
      ensures op.row.attempts + 1 < MAX_ATTEMPTS && r.Ok? && 0 < base && Safe(base, cap) ==>
                c.next == now + Min(base * Pow2(op.row.attempts), cap)
    {
      Settle(w, Park, op);
      var next;
      ghost var told;
      r, next, told := ScheduleReferenceRetry(t, now);
      c := Settled(op, w, Park, now, Ids(NIL, NIL, told), next, None);
      if r.Ok? {
        ParkingIsCommit(db.committed, db.hold, c, db.view, t.Row());
      }
    }

    /** The id is one the service draws. */
    ghost predicate Drawn(id: Uuid) {
      exists n: nat :: db.ids(n) == id
    }

    /** The instant is one the clock shows. */
    ghost predicate Shown(now: Time) {
      exists n: nat :: db.clock(n) == now
    }

    method SettleMove(ghost w: WalletRow, ghost plan: Plan, ghost op: Op)
      requires Working(op) && PlanHolds(db.committed, op, w, plan) && plan.Move?
      modifies db`committed, db`view, db`turn
      ensures Working(op) && PlanHolds(db.committed, op, w, plan) && Unresolved(op)
      ensures Later(old(db.committed), db.committed)
      ensures IsInt64(op.Payload().amount) && 0 < op.Payload().amount && op.Payload().currency == w.currency
    {
      Settle(w, plan, op);
      MoverIsSound(db.committed, op, w, plan);
    }

    method DrawId() returns (id: Uuid)
      requires db.Valid()
      modifies db`turn
      ensures db.Valid() && id != NIL && Drawn(id)
    {
      ghost var n := db.turn;
      id := db.NewId();
      assert db.ids(n) == id;
    }

    method Instant() returns (now: Time)
      requires db.Valid()
      modifies db`turn
      ensures db.Valid() && 0 < now && Shown(now)
    {
      ghost var n := db.turn;
      now := db.Now();
      assert db.clock(n) == now;
    }

    method ConcludeMove(t: Transaction, w: Wallet, direction: Direction, ref: Option<Uuid>, now: Time, ghost op: Op)
      returns (r: Result<Outcome, Failure>, ghost c: Commit)
      requires Working(op) && t.id == op.id && t.Row() == op.row && w.Valid() && 0 < now
      requires PlanHolds(db.committed, op, w.Row(), Plan.Move(direction, ref))
      modifies t, w, db`committed, db`view, db`turn
      ensures db.Valid() && Later(old(db.committed), db.committed)
      ensures Chose(c, old(w.Row()), Plan.Move(direction, ref), now)
      ensures r.Ok? ==> Concluded(op, c, r.value)
      ensures Drawn(c.ids.entry)
      ensures r.Err? ==> MoveFails(db.committed, op, c.seen, c.plan, now, c.ids.entry, r.error)
    {
      ghost var seen, plan := w.Row(), Plan.Move(direction, ref);
      SettleMove(seen, plan, op);
      var entryId := DrawId();
      ghost var ids;
      r, ids := Move(t, w, direction, ref, now, entryId);
      c := Settled(op, seen, plan, now, ids, now, None);
      MoveEnds(db.committed, db.hold, c, db.view, t.Row(), r);
    }

    /** The one way in which parking fails: the retry would be due at the zero instant. */
    predicate ParkFails(op: Op, plan: Plan, now: Time, f: Failure) {
      plan.Park? && f == Invalid && op.row.attempts + 1 < MAX_ATTEMPTS && RetryInstant(op.row.attempts, now) == 0
    }

    /** How an operation ends: with the plan it owes to what it has read, or, if that plan
        moves money or parks, with one of the few failures these can meet. */
    ghost predicate EndsAs(op: Op, seen: WalletRow, plan: Plan, now: Time, r: Result<Outcome, Failure>, c: Commit)
      reads db
    {
      && Chose(c, seen, plan, now)
      && (r.Ok? ==> Concluded(op, c, r.value))
      && (r.Ok? && plan.Park? && op.row.attempts + 1 < MAX_ATTEMPTS ==> c.next == RetryInstant(op.row.attempts, now))
      && (r.Err? ==> db.Valid() && (MoveFails(db.committed, op, seen, plan, now, c.ids.entry, r.error)
                                    || ParkFails(op, plan, now, r.error)))
      && (r.Err? && plan.Move? ==> Drawn(c.ids.entry))
    }

    /** The kind-specific rules, for a row this transaction has inserted or claimed. */
    method ApplyOperation(t: Transaction, now: Time, ghost op: Op)
      returns (r: Result<Outcome, Failure>, ghost c: Commit, ghost seen: Reads)
      requires 0 < now
      requires Working(op) && t.id == op.id && t.Row() == op.row
      modifies t, db`committed, db`view, db`turn
      ensures InTurn(old(db.committed), seen, db.committed) && Later(old(db.committed), db.committed)
      ensures Applied(op, now, r, c, seen)
      ensures if r.Ok? then Concluded(op, c, r.value) && HasReason(db.committed, c, c.Row()) else db.Valid()
    {
      c := Replayed(Delivery("", Malformed("")));
      var row := ReadWallet(t.terms.payload.wallet, op);
      ghost var d := db.committed;
      seen := Reads(d, d, d, d);
      LaterReflexive(d);
      if row.None? {
        return Err(WalletMissing), c, seen;
      }
      r, c, seen := ApplyToWallet(t, row.value, now, op);
      LaterInTurn(d, seen, db.committed);
      LaterTransitive(old(db.committed), d, db.committed);
      if r.Ok? {
        InvRows(db.committed);
        CommitHasReason(db.committed, c);
      }
    }

    /** The first read of an operation. */
    method ReadWallet(id: Uuid, ghost op: Op) returns (row: Option<WalletRow>)
      requires Working(op) && id == op.Payload().wallet
      modifies db`committed, db`view, db`turn
      ensures Working(op) && Later(old(db.committed), db.committed)
      ensures row == if id in db.committed.wallets then Some(db.committed.wallets[id]) else None
      ensures row.Some? ==> ReadTells(db.committed, op, row.value)
    {
      db.Yield();
      ghost var d := db.committed;
      row := db.GetWallet(id);
      assert Holds(WalletsClaim, d) && Holds(RowsClaim, d);
      if row.Some? {
        WalletReadDecides(d, op);
      }
    }

    /** The wallet must be the player's and of the currency; then the kind decides. */
    method ApplyToWallet(t: Transaction, w: WalletRow, now: Time, ghost op: Op)
      returns (r: Result<Outcome, Failure>, ghost c: Commit, ghost seen: Reads)
      requires 0 < now
      requires Working(op) && t.id == op.id && t.Row() == op.row
      requires op.Payload().wallet in db.committed.wallets && w == db.committed.wallets[op.Payload().wallet]
      requires ReadTells(db.committed, op, w)
      modifies t, db`committed, db`view, db`turn
      ensures seen.wallet == old(db.committed) && InTurn(old(db.committed), seen, db.committed)
      ensures EndsAs(op, w, OwedPlan(op, seen), now, r, c)
    {
      var p := t.terms.payload;
      ghost var d := db.committed;
      seen := Reads(d, d, d, d);
      LaterReflexive(d);
      if w.player != p.player {
        r, c := ConcludeRejection(t, w, WalletPlayerMismatch, now, op);
      } else if w.currency != p.currency {
        r, c := ConcludeRejection(t, w, Code.CurrencyMismatch, now, op);
      } else if NeedsReference(p) {
        r, c, seen := ApplyReferring(t, w, now, op);
      } else {
        r, c := ApplyDirect(t, w, now, op);
      }
    }

    /** An operation ends with what it owes to its reads. */
    ghost predicate Applied(op: Op, now: Time, r: Result<Outcome, Failure>, c: Commit, seen: Reads)
      reads db
    {
      var wallet := op.Payload().wallet;
      if wallet !in seen.wallet.wallets then db.Valid() && r == Err(WalletMissing)
      else
        && seen.wallet.wallets[wallet].id == wallet
        && EndsAs(op, seen.wallet.wallets[wallet], OwedPlan(op, seen), now, r, c)
    }

    /** LOSS, BET and a WIN of its own. */
    method ApplyDirect(t: Transaction, seen: WalletRow, now: Time, ghost op: Op)
      returns (r: Result<Outcome, Failure>, ghost c: Commit)
      requires Working(op) && t.id == op.id && t.Row() == op.row && 0 < now
      requires WalletHolds(seen) && !NeedsReference(op.Payload())
      requires PlanHolds(db.committed, op, seen, DirectPlan(op.Payload()))
      modifies t, db`committed, db`view, db`turn
      ensures Later(old(db.committed), db.committed)
      ensures EndsAs(op, seen, DirectPlan(op.Payload()), now, r, c)
    {
      var kind := t.terms.payload.kind;
      if kind == Loss {
        r, c := ConcludeAcceptance(t, seen, now, op);
      } else {
        var w := new Wallet.Rehydrate(seen);
        r, c := ConcludeMove(t, w, if kind == Bet then Debit else Credit, None, now, op);
      }
    }

    /** WIN with a reference, REFUND and ROLLBACK. */
    method ApplyReferring(t: Transaction, w: WalletRow, now: Time, ghost op: Op)
      returns (r: Result<Outcome, Failure>, ghost c: Commit, ghost seen: Reads)
      requires 0 < now
      requires Working(op) && t.id == op.id && t.Row() == op.row
      requires SeenHolds(db.committed, op.Payload(), w)
      modifies t, db`committed, db`view, db`turn
      ensures seen.wallet == old(db.committed) && InTurn(old(db.committed), seen, db.committed)
      ensures EndsAs(op, w, PlanFor(op.Payload().kind, ResolutionOf(op, seen.reference, seen.same, seen.cross)), now, r,
                    c)
    {
      var resolution;
      ghost var reference, same;
      LaterReflexive(db.committed);
      resolution, reference, same := ResolveReference(t, op, w);
      seen := Reads(old(db.committed), reference, same, db.committed);
      r, c := ApplyResolution(t, w, resolution, now, op);
    }

    method ApplyResolution(t: Transaction, w: WalletRow, resolution: Resolution, now: Time, ghost op: Op)
      returns (r: Result<Outcome, Failure>, ghost c: Commit)
      requires 0 < now
      requires Working(op) && t.id == op.id && t.Row() == op.row
      requires WalletHolds(w) && ResolvedAs(op, w, resolution)
      modifies t, db`committed, db`view, db`turn
      ensures Later(old(db.committed), db.committed)
      ensures EndsAs(op, w, PlanFor(op.Payload().kind, resolution), now, r, c)
    {
      if resolution.Available? {
        r, c := ApplyReversal(t, w, resolution.ref, resolution.refKind, now, op);
      } else if resolution.Unavailable? {
        r, c := ConcludeParking(t, w, now, op);
      } else {
        r, c := ConcludeRejection(t, w, resolution.code, now, op);
      }
    }

    /** A linked WIN credits; a reversed BET is given back, a reversed WIN or REFUND is
        taken back. */
    method ApplyReversal(t: Transaction, seen: WalletRow, ref: Uuid, refKind: Kind, now: Time, ghost op: Op)
      returns (r: Result<Outcome, Failure>, ghost c: Commit)
      requires Working(op) && t.id == op.id && t.Row() == op.row && WalletHolds(seen) && 0 < now
      requires PlanHolds(db.committed, op, seen, Resolved(op.Payload().kind, ref, refKind))
      modifies t, db`committed, db`view, db`turn
      ensures Later(old(db.committed), db.committed)
      ensures EndsAs(op, seen, Resolved(op.Payload().kind, ref, refKind), now, r, c)
    {
      var kind := t.terms.payload.kind;
      if !kind.IsReversal() || refKind == Bet {
        var w := new Wallet.Rehydrate(seen);
        r, c := ConcludeMove(t, w, Credit, Some(ref), now, op);
      } else if refKind == Win || refKind == Refund {
        var w := new Wallet.Rehydrate(seen);
        r, c := ConcludeMove(t, w, Debit, Some(ref), now, op);
      } else {
        r, c := ConcludeRejection(t, seen, ReferenceMismatch, now, op);
      }
    }

    // ----- submissions ----------------------------------------------------------------

    /** The answer to a submission whose operation already has a row. */
    ghost predicate Replays(key: Name, p: Payload, out: Outcome)
      reads db
    {
      && db.Valid() && db.Reading() && db.hold.op == None
      && out.tx in db.committed.txs
      && IsNamed(db.committed.txs[out.tx], p.provider, p.external) && db.committed.txs[out.tx].terms.payload == p
      && Tells(out, out.tx, db.committed.txs[out.tx]) && out.replay
    }

    method Replay(id: Uuid, p: Payload) returns (r: Result<Outcome, Failure>)
      requires db.Valid() && db.Reading() && db.hold.op == None
      requires id in db.committed.txs && db.committed.txs[id].terms.origin == External && IsInt64(p.amount)
      ensures r.Ok? <==> db.committed.txs[id].terms.payload == p
      ensures r.Err? ==> r.error == IdempotencyConflict
      ensures r.Ok? ==>
                var row, out := db.committed.txs[id], r.value;
                && out.tx == id && out.status == row.status && out.balance == row.result
                && out.failure == row.failure && out.replay
    {
      var existing := db.view.txs[id];
      assert Holds(RowsClaim, db.committed);
      assert RowHolds(db.committed.txs[id]);
      HashTellsPayloadsApart(existing.terms.payload, p);
      if PayloadHash(existing.terms.payload) != PayloadHash(p) {
        return Err(IdempotencyConflict);
      }
      return Ok(OutcomeOf(id, existing, true));
    }

    /** The lookups before the insertion, by external id and then by key. */
    method FindExisting(key: Name, p: Payload) returns (answer: Option<Result<Outcome, Failure>>)
      requires db.Valid() && db.Reading() && db.hold.op == None && IsInt64(p.amount)
      modifies db`committed, db`view, db`turn
      ensures db.Valid() && db.Reading() && Later(old(db.committed), db.committed)
      ensures answer.Some? && answer.value.Ok? ==> Replays(key, p, answer.value.value)
      ensures if answer.Some? then Owed(old(db.committed), db.committed, p, answer.value)
              else Unnamed(old(db.committed), p)
      ensures answer.Some? ==> answer.value.Ok? || answer.value.error == IdempotencyConflict
      ensures answer.None? ==> !Taken(old(db.committed), key, p)
      ensures answer == Some(Err(IdempotencyConflict)) ==> Conflicting(db.committed, key, p)
    {
      ghost var d0 := db.committed;
      db.Yield();
      ghost var d1 := db.committed;
      var existing := db.GetByProviderExternal(p.provider, p.external);
      assert Holds(UniqueClaim, d1);
      OldRowIsFound(d0, d1, p, existing);
      if existing.Some? {
        var r := Replay(existing.value, p);
        assert r.Err? ==> Contradicts(db.committed.txs[existing.value], key, p);
        return Some(r);
      }
      db.Yield();
      LaterTransitive(d0, d1, db.committed);
      var byKey := db.GetByProviderIdempotencyKey(p.provider, key);
      if byKey.None? {
        NotTakenBefore(d0, d1, db.committed, key, p);
        return None;
      }
      if db.view.txs[byKey.value].terms.payload.external != p.external {
        assert Contradicts(db.committed.txs[byKey.value], key, p);
        return Some(Err(IdempotencyConflict));
      }
      var r := Replay(byKey.value, p);
      assert r.Err? ==> Contradicts(db.committed.txs[byKey.value], key, p);
      return Some(r);
    }

    /** How an attempt leaves the transaction it runs in. */
    ghost predicate Tried(key: Name, p: Payload, r: Result<Outcome, Failure>, op: Op, c: Commit)
      reads db
    {
      && DbInv(db.committed)
      && (r.Err? ==> db.Valid())
      && (r.Ok? && r.value.replay ==> Replays(key, p, r.value))
      && (r.Ok? && !r.value.replay ==>
            Concluded(op, c, r.value) && op.isNew && op.row.terms.key == key && op.Payload() == p)
    }

    // ----- why an attempt fails ---------------------------------------------------------

    /** Why an operation at work fails, in terms of the tables, of the clock and of the ids
        drawn: nothing else stops one. */
    ghost predicate Cause(start: Db, seen: Reads, end: Db, op: Op, f: Failure) {
      var p := op.Payload();
      match f
      case VersionConflict => VersionAt(start, p.wallet) < VersionAt(end, p.wallet)
      case MoneyRange => TooMuch(start, seen, end, p)
      case FundsCheck => TooEarly(end, p)
      case Storage => exists n: nat :: !EntryIdFree(end.ledger, db.ids(n))
      case Invalid => op.id == NIL || Doubled(base, op.row.attempts, cap) < 0
      case _ => false
    }

    /** The balance read, with the amount, leaves int64. */
    ghost predicate TooMuch(start: Db, seen: Reads, end: Db, p: Payload) {
      && InTurn(start, seen, end) && p.wallet in seen.wallet.wallets
      && MAX_INT64 < seen.wallet.wallets[p.wallet].balance + p.amount
    }

    /** The clock has shown an instant before the wallet was opened. */
    ghost predicate TooEarly(end: Db, p: Payload) {
      p.wallet in end.wallets && exists n: nat :: db.clock(n) < end.wallets[p.wallet].createdAt
    }

    /** Only a lost race is tried again, and it moved the wallet. */
    lemma FailureIsExplained(start: Db, seen: Reads, end: Db, op: Op, plan: Plan, now: Time, entry: Uuid, f: Failure)
      requires InTurn(start, seen, end) && DbInv(end) && op.Payload().wallet in seen.wallet.wallets && 0 < now
      requires Shown(now) && (plan.Move? ==> Drawn(entry)) && 0 <= op.Payload().amount
      requires var w := seen.wallet.wallets[op.Payload().wallet];
               w.id == op.Payload().wallet
                   && (MoveFails(end, op, w, plan, now, entry, f) || ParkFails(op, plan, now, f))
      ensures Cause(start, seen, end, op, f)
    {
      if !ParkFails(op, plan, now, f) {
        FailuresToRetry(start, seen, end, op, plan, now, entry, f);
        MovementIsExplained(start, seen, end, op, plan, now, entry, f);
      }
    }

    lemma MovementIsExplained(start: Db, seen: Reads, end: Db, op: Op, plan: Plan, now: Time, entry: Uuid, f: Failure)
      requires InTurn(start, seen, end) && op.Payload().wallet in seen.wallet.wallets
      requires Shown(now) && plan.Move? && Drawn(entry) && 0 <= op.Payload().amount
      requires var w := seen.wallet.wallets[op.Payload().wallet];
               w.id == op.Payload().wallet && MoveFails(end, op, w, plan, now, entry, f)
      ensures f == VersionConflict || Cause(start, seen, end, op, f)
    {
      var n: nat :| db.clock(n) == now;
      var k: nat :| db.ids(k) == entry;
    }

    lemma CauseEarlier(start: Db, d: Db, seen: Reads, end: Db, op: Op, f: Failure)
      requires Later(start, d) && DbInv(d) && Cause(d, seen, end, op, f)
      ensures Cause(start, seen, end, op, f)
    {
      VersionsGrow(start, d, op.Payload().wallet);
      if f == MoneyRange {
        InTurnEarlier(start, d, seen, end);
      }
    }

    /** Why a submission fails. */
    ghost predicate SubmissionFails(start: Db, seen: Reads, end: Db, key: Name, p: Payload, f: Failure) {
      match f
      case Invalid => !IsSubmittable(key, p) || RefersInVain(p) || base < 0 || cap < 0
      case IdempotencyConflict => Conflicting(end, key, p)
      case VersionConflict => VersionAt(start, p.wallet) + retries <= VersionAt(end, p.wallet)
      case MoneyRange => TooMuch(start, seen, end, p)
      case FundsCheck => TooEarly(end, p)
      case Storage => NotInserted(start, end, p)
      case _ => false
    }

    lemma SubmissionFailsEarlier(start: Db, d: Db, seen: Reads, end: Db, key: Name, p: Payload, f: Failure)
      requires Later(start, d) && SubmissionFails(d, seen, end, key, p, f) && f != VersionConflict
      ensures SubmissionFails(start, seen, end, key, p, f)
    {
      if f == MoneyRange {
        InTurnEarlier(start, d, seen, end);
      }
      assert p.wallet !in d.wallets ==> p.wallet !in start.wallets;
    }

    // ----- one attempt ------------------------------------------------------------------

    /** One attempt, inside a transaction or savepoint that is undone if it fails. */
    method ProcessOnce(key: Name, p: Payload)
      returns (r: Result<Outcome, Failure>, ghost op: Op, ghost c: Commit, ghost seen: Reads)
      requires db.Valid() && db.Reading() && db.hold.op == None && IsInt64(p.amount)
      modifies db`committed, db`view, db`turn, db`hold
      ensures Later(old(db.committed), db.committed) && db.hold.claim == old(db.hold.claim)
      ensures Tried(key, p, r, op, c)
      ensures if r.Ok? && !r.value.replay then Unnamed(old(db.committed), p)
              else Owed(old(db.committed), db.committed, p, r)
      ensures r.Ok? && !r.value.replay ==> Fresh(old(db.committed), seen, db.committed, p, op, c)
      ensures r.Err? && Retryable(r.error) ==>
                !Taken(old(db.committed), key, p) && Contended(old(db.committed), db.committed, key, p)
      ensures r.Err? && !Retryable(r.error) ==>
                SubmissionFails(old(db.committed), seen, db.committed, key, p, r.error)
      ensures Conflicting(old(db.committed), key, p) ==> Rebuffed(r)
    {
      ghost var d0 := db.committed;
      op, c := Op(0, false, PendingRow(key, p, 0), {}), Replayed(Delivery("", Malformed("")));
      seen := Reads(d0, d0, d0, d0);
      var now := Instant();
      var answer := FindExisting(key, p);
      if Conflicting(d0, key, p) {
        ConflictIsTaken(d0, key, p);
      }
      if answer.Some? {
        return answer.value, op, c, seen;
      }
      ghost var d := db.committed;
      r, op, c, seen := ProcessNew(key, p, now);
      LaterTransitive(d0, d, db.committed);
      NewTells(d0, d, seen, db.committed, key, p, r, op, c);
    }

    /** What neither lookup has found. */
    method ProcessNew(key: Name, p: Payload, now: Time)
      returns (r: Result<Outcome, Failure>, ghost op: Op, ghost c: Commit, ghost seen: Reads)
      requires db.Valid() && db.Reading() && db.hold.op == None && 0 < now && Shown(now)
      modifies db`committed, db`view, db`turn, db`hold
      ensures Later(old(db.committed), db.committed) && db.hold.claim == old(db.hold.claim)
      ensures Tried(key, p, r, op, c) && (r.Ok? ==> !r.value.replay)
      ensures NewHolds(old(db.committed), seen, db.committed, key, p, r, op, c)
    {
      if !ValidExternal(key, p) {
        ghost var d := db.committed;
        LaterReflexive(d);
        return Err(Invalid), Op(0, false, PendingRow(key, p, 0), {}), Replayed(Delivery("", Malformed(""))),
               Reads(d, d, d, d);
      }
      r, op, c, seen := InsertAndApply(key, p, now);
    }

    ghost predicate NewHolds(start: Db, seen: Reads, end: Db, key: Name, p: Payload,
                             r: Result<Outcome, Failure>, op: Op, c: Commit) {
      && (r.Ok? ==> Fresh(start, seen, end, p, op, c))
      && (r.Err? && Retryable(r.error) ==> Contended(start, end, key, p))
      && (r.Err? && !Retryable(r.error) ==> SubmissionFails(start, seen, end, key, p, r.error))
    }

    lemma NewTells(start: Db, d: Db, seen: Reads, end: Db, key: Name, p: Payload,
                   r: Result<Outcome, Failure>, op: Op, c: Commit)
      requires Later(start, d) && DbInv(d) && NewHolds(d, seen, end, key, p, r, op, c)
      ensures NewHolds(start, seen, end, key, p, r, op, c)
    {
      ContendedEarlier(start, d, end, key, p);
      if r.Ok? {
        FreshEarlier(start, d, seen, end, p, op, c);
      } else if !Retryable(r.error) {
        SubmissionFailsEarlier(start, d, seen, end, key, p, r.error);
      }
    }

    lemma ContendedEarlier(start: Db, d: Db, end: Db, key: Name, p: Payload)
      requires Later(start, d) && DbInv(d)
      ensures Contended(d, end, key, p) ==> Contended(start, end, key, p)
    {
      VersionsGrow(start, d, p.wallet);
    }

    /** A reused name or key: a conflict, unless the operation itself turns out to be stored. */
    ghost predicate Rebuffed(r: Result<Outcome, Failure>) {
      r == Err(IdempotencyConflict) || (r.Ok? && r.value.replay)
    }

    /** A new operation makes the plan owed to its reads; if it parks, nothing of the name it
        refers to had come to an end at the start. */
    ghost predicate Fresh(start: Db, seen: Reads, end: Db, p: Payload, op: Op, c: Commit) {
      OwedTo(start, seen, end, op, c) && (c.plan.Park? ==> Unfinished(start.txs, p))
    }

    lemma FreshEarlier(start: Db, d: Db, seen: Reads, end: Db, p: Payload, op: Op, c: Commit)
      requires Later(start, d) && Fresh(d, seen, end, p, op, c)
      ensures Fresh(start, seen, end, p, op, c)
    {
      OwedEarlierToo(start, d, seen, end, op, c);
      if c.plan.Park? {
        UnfinishedBefore(start.txs, d.txs, p);
      }
    }

    /** ApplyOperation for callers that ask why it failed. */
    method ApplyWatched(t: Transaction, now: Time, ghost op: Op)
      returns (r: Result<Outcome, Failure>, ghost c: Commit, ghost seen: Reads)
      requires 0 < now && Shown(now)
      requires Working(op) && t.id == op.id && t.Row() == op.row
      modifies t, db`committed, db`view, db`turn
      ensures Later(old(db.committed), db.committed)
      ensures if r.Ok? then Concluded(op, c, r.value) && OwedTo(old(db.committed), seen, db.committed, op, c)
              else db.Valid() && Cause(old(db.committed), seen, db.committed, op, r.error)
      ensures r.Ok? && c.plan.Park? ==> BeganOpen(db.committed.txs, op)
    {
      ghost var d := db.committed;
      HeldWalletExists(d, op);
      AmountIsNatural(d, op);
      r, c, seen := ApplyOperation(t, now, op);
      assert op.Payload().wallet in seen.wallet.wallets;
      if r.Err? {
        FailureIsExplained(d, seen, db.committed, op, OwedPlan(op, seen), now, c.ids.entry, r.error);
      } else {
        InvRows(db.committed);
        ParkedBeganOpen(db.committed, c);
      }
    }

    method InsertAndApply(key: Name, p: Payload, now: Time)
      returns (r: Result<Outcome, Failure>, ghost op: Op, ghost c: Commit, ghost seen: Reads)
      requires db.Valid() && db.Reading() && db.hold.op == None && ValidExternal(key, p) && 0 < now && Shown(now)
      modifies db`committed, db`view, db`turn, db`hold
      ensures Later(old(db.committed), db.committed) && db.hold.claim == old(db.hold.claim) && DbInv(db.committed)
      ensures r.Err? ==> db.Valid()
      ensures r.Ok? ==> Concluded(op, c, r.value) && !r.value.replay
      ensures r.Ok? ==> op.isNew && op.row.terms.key == key && op.Payload() == p
      ensures NewHolds(old(db.committed), seen, db.committed, key, p, r, op, c)
    {
      c := Replayed(Delivery("", Malformed("")));
      ghost var start := db.committed;
      var id := DrawId();
      var t := new Transaction.NewExternal(id, key, p, now);
      var error;
      error, op := InsertNew(t);
      ghost var d := db.committed;
      seen := Reads(d, d, d, d);
      if error.Some? {
        return Err(error.value), op, c, seen;
      }
      r, c, seen := ApplyWatched(t, now, op);
      LaterTransitive(start, d, db.committed);
      if r.Ok? {
        FreshFromInsertion(start, d, seen, db.committed, op, c);
      } else {
        FreshFailure(start, d, seen, db.committed, key, op, r.error);
      }
    }

    /** The insertion of the row: refused only because its name or key is taken, or for lack
        of a wallet, or because its id is. */
    method InsertNew(t: Transaction) returns (error: Option<Failure>, ghost op: Op)
      requires db.Valid() && db.Reading() && db.hold.op == None && Drawn(t.id)
      requires t.Row() == PendingRow(t.terms.key, t.terms.payload, t.terms.createdAt)
      requires ValidExternal(t.terms.key, t.terms.payload)
      modifies db`committed, db`view, db`turn, db`hold
      ensures Later(old(db.committed), db.committed) && db.hold.claim == old(db.hold.claim) && db.Valid()
      ensures op == Op(t.id, true, t.Row(), Tables.Ended(db.committed.txs))
      ensures error.None? ==> Working(op)
      ensures error.Some? && Retryable(error.value) ==> Taken(db.committed, t.terms.key, t.terms.payload)
      ensures error.Some? && !Retryable(error.value) ==>
                error.value == Storage && NotInserted(old(db.committed), db.committed, t.terms.payload)
    {
      ghost var n: nat :| db.ids(n) == t.id;
      ghost var start := db.committed;
      db.Yield();
      ghost var d := db.committed;
      op := Op(t.id, true, t.Row(), Tables.Ended(d.txs));
      error := db.InsertTx(t.id, t.Row());
      assert error == Some(Storage) ==> db.ids(n) in d.txs || t.terms.payload.wallet !in d.wallets;
      assert t.terms.payload.wallet in start.wallets ==> t.terms.payload.wallet in d.wallets;
    }

    ghost predicate NotInserted(start: Db, end: Db, p: Payload) {
      p.wallet !in start.wallets || exists n: nat :: db.ids(n) in end.txs || !EntryIdFree(end.ledger, db.ids(n))
    }

    lemma FreshFromInsertion(start: Db, d: Db, seen: Reads, end: Db, op: Op, c: Commit)
      requires Later(start, d) && Later(d, end) && DbInv(end) && Legal(end, c)
      requires OwedTo(d, seen, end, op, c) && op.ended == Tables.Ended(d.txs)
      ensures Fresh(start, seen, end, op.Payload(), op, c)
    {
      OwedEarlierToo(start, d, seen, end, op, c);
      if c.plan.Park? {
        ParkedWasOpen(start, d, end, c);
      }
    }

    lemma FreshFailure(start: Db, d: Db, seen: Reads, end: Db, key: Name, op: Op, f: Failure)
      requires Later(start, d) && DbInv(d) && op.id != NIL && op.row.attempts == 0
      requires Cause(d, seen, end, op, f)
      ensures !Retryable(f) ==> SubmissionFails(start, seen, end, key, op.Payload(), f)
      ensures Retryable(f) ==> VersionAt(start, op.Payload().wallet) < VersionAt(end, op.Payload().wallet)
    {
      CauseEarlier(start, d, seen, end, op, f);
      CauseOfFailure(start, seen, end, key, op, f);
    }

    lemma CauseOfFailure(start: Db, seen: Reads, end: Db, key: Name, op: Op, f: Failure)
      requires op.id != NIL && op.row.attempts == 0 && Cause(start, seen, end, op, f)
      ensures !Retryable(f) ==> SubmissionFails(start, seen, end, key, op.Payload(), f)
      ensures Retryable(f) ==> VersionAt(start, op.Payload().wallet) < VersionAt(end, op.Payload().wallet)
    {
      if !Retryable(f) {
        CauseOfSubmission(start, seen, end, key, op, f);
      }
    }

    lemma CauseOfSubmission(start: Db, seen: Reads, end: Db, key: Name, op: Op, f: Failure)
      requires op.id != NIL && op.row.attempts == 0 && f != VersionConflict
      requires Cause(start, seen, end, op, f)
      ensures SubmissionFails(start, seen, end, key, op.Payload(), f)
    {
      if f == Storage {
        var n: nat :| !EntryIdFree(end.ledger, db.ids(n));
        assert NotInserted(start, end, op.Payload());
      }
    }

    /** The committed tables answer for the operation with this very outcome. */
    ghost predicate Answered(p: Payload, out: Outcome)
      reads db
    {
      && out.tx in db.committed.txs
      && IsNamed(db.committed.txs[out.tx], p.provider, p.external) && db.committed.txs[out.tx].terms.payload == p
      && Tells(out, out.tx, db.committed.txs[out.tx])
    }

    /** What a submission leaves behind: nothing if it failed or was a replay; else the
        commit of its operation, or, when nested, that commit about to be made. */
    ghost predicate Submitted(key: Name, p: Payload, r: Result<Outcome, Failure>, at: Db, op: Op, c: Commit)
      reads db
    {
      && (r.Err? ==> db.Valid() && db.Clear())
      && (r.Ok? && r.value.replay ==> db.Clear())
      && (0 < db.depth || r.Err? || r.value.replay ==> Tried(key, p, r, op, c))
      && (r.Ok? && db.depth == 0 ==> Answered(p, r.value))
      && (r.Ok? && !r.value.replay ==> c.Settled? && c.op == op && Tells(r.value, op.id, c.Row()))
      && (r.Ok? && db.depth == 0 && !r.value.replay ==>
            && op.isNew && op.row.terms.key == key && op.Payload() == p
            && db.Valid() && db.Clear() && Legal(at, c) && db.committed == Apply(at, c))
    }

    /** What the submission has made visible: its one commit, and nothing if it failed, was a
        replay or is nested in another transaction. */
    ghost predicate Logged(before: seq<Published>, r: Result<Outcome, Failure>, at: Db, c: Commit)
      reads db
    {
      db.log == if r.Err? || 0 < db.depth then before
                else before + [Published(at, if r.value.replay then at else Apply(at, c))]
    }

    /** A successful attempt becomes visible to all if it was not nested in another. */
    method Deliver(ghost op: Op, ghost c: Commit, ghost out: Outcome)
      requires 0 < db.depth && Concluded(op, c, out) && op.isNew && (db.depth == 1 ==> db.hold.claim == None)
      modifies db`committed, db`hold, db`depth, db`log
      ensures db.depth == old(db.depth) - 1 && db.hold.claim == old(db.hold.claim)
      ensures Later(old(db.committed), db.committed) && Logged(old(db.log), Ok(out), old(db.committed), c)
      ensures Submitted(op.row.terms.key, op.Payload(), Ok(out), old(db.committed), op, c)
    {
      ghost var d := db.committed;
      CommitKeepsInv(d, c);
      LaterReflexive(d);
      OutcomeIsStored(d, c);
      db.Release();
    }

    /** The end of WithinTransaction: commit or release on success, else undo. */
    method Close(key: Name, p: Payload, r: Result<Outcome, Failure>, ghost op: Op, ghost c: Commit)
      requires 0 < db.depth && Tried(key, p, r, op, c) && (db.depth == 1 ==> db.hold.claim == None)
      modifies db`committed, db`view, db`hold, db`depth, db`log
      ensures db.depth == old(db.depth) - 1 && db.hold.claim == old(db.hold.claim)
      ensures Submitted(key, p, r, old(db.committed), op, c) && Logged(old(db.log), r, old(db.committed), c)
      ensures if r.Ok? && !r.value.replay then Later(old(db.committed), db.committed)
              else db.committed == old(db.committed)
    {
      if r.Err? {
        db.Rollback(None);
      } else if r.value.replay {
        db.Release();
      } else {
        Deliver(op, c, r.value);
      }
    }

    /** WithinTransaction around one attempt. */
    method Attempt(key: Name, p: Payload)
      returns (r: Result<Outcome, Failure>, ghost at: Db, ghost op: Op, ghost c: Commit, ghost seen: Reads)
      requires db.Valid() && db.Clear() && IsInt64(p.amount)
      modifies db`committed, db`view, db`turn, db`hold, db`depth, db`log
      ensures db.depth == old(db.depth) && db.hold.claim == old(db.hold.claim)
      ensures Later(old(db.committed), at) && Later(old(db.committed), db.committed)
      ensures Submitted(key, p, r, at, op, c) && Logged(old(db.log), r, at, c)
      ensures Owed(old(db.committed), db.committed, p, r)
      ensures r.Ok? && !r.value.replay ==> Fresh(old(db.committed), seen, at, p, op, c)
      ensures r.Err? && Retryable(r.error) ==>
                !Taken(old(db.committed), key, p) && Contended(old(db.committed), db.committed, key, p)
      ensures r.Err? && !Retryable(r.error) ==>
                SubmissionFails(old(db.committed), seen, db.committed, key, p, r.error)
      ensures Conflicting(old(db.committed), key, p) ==> Rebuffed(r)
    {
      db.Begin();
      r, op, c, seen := ProcessOnce(key, p);
      at := db.committed;
      Close(key, p, r, op, c);
      ClosedOwes(old(db.committed), at, db.committed, p, r);
    }

    /** What an attempt has committed or left alone still answers for the names known before. */
    lemma ClosedOwes(start: Db, at: Db, end: Db, p: Payload, r: Result<Outcome, Failure>)
      requires Later(start, at)
      requires if r.Ok? && !r.value.replay then Later(at, end) && Unnamed(start, p)
               else end == at && Owed(start, at, p, r)
      ensures Later(start, end) && Owed(start, end, p, r)
    {
      if r.Ok? && !r.value.replay {
        LaterTransitive(start, at, end);
        UnnamedIsOwedNothing(start, end, p, r);
      }
    }

    /** Applies an operation once, whatever the number of attempts: on fresh tables after
        each lost race, up to the limit. */
    method Process(key: Name, p: Payload)
      returns (r: Result<Outcome, Failure>, ghost at: Db, ghost op: Op, ghost c: Commit, ghost seen: Reads)
      requires db.Valid() && db.Clear() && IsInt64(p.amount)
      modifies db`committed, db`view, db`turn, db`hold, db`depth, db`log
      ensures db.depth == old(db.depth) && db.hold.claim == old(db.hold.claim)
      ensures Later(old(db.committed), at) && Later(old(db.committed), db.committed)
      ensures Submitted(key, p, r, at, op, c) && Logged(old(db.log), r, at, c)
      ensures !IsSubmittable(key, p) ==> r == Err(Invalid)
      ensures IsSubmittable(key, p) ==> Owed(old(db.committed), db.committed, p, r)
      ensures IsSubmittable(key, p) && Conflicting(old(db.committed), key, p) ==> Rebuffed(r)
      ensures r.Err? ==> SubmissionFails(old(db.committed), seen, db.committed, key, p, r.error)
      ensures r.Ok? && (r.value.replay || db.depth == 0) ==>
                && r.value.tx in db.committed.txs
                && var row := db.committed.txs[r.value.tx];
                   && row.terms.origin == External && row.terms.payload == p
                   && r.value.status == row.status && r.value.balance == row.result && r.value.failure == row.failure
      ensures r.Ok? && !r.value.replay ==> Fresh(old(db.committed), seen, at, p, op, c)
    {
      SubmittableIffValid(key, p);
      if !ValidCommand(key, p) {
        r, at, op, c, seen := TurnAway(key, p);
        return;
      }
      r, at, op, c, seen := ProcessValid(key, p);
    }

    method TurnAway(key: Name, p: Payload)
      returns (r: Result<Outcome, Failure>, ghost at: Db, ghost op: Op, ghost c: Commit, ghost seen: Reads)
      requires db.Valid() && db.Clear()
      ensures Later(db.committed, at) && Later(db.committed, db.committed)
      ensures r == Err(Invalid) && Submitted(key, p, r, at, op, c)
    {
      ghost var d := db.committed;
      LaterReflexive(d);
      return Err(Invalid), d, Op(0, false, PendingRow(key, p, 0), {}), Replayed(Delivery("", Malformed(""))),
             Reads(d, d, d, d);
    }

    /** The attempts of a submission. */
    method ProcessValid(key: Name, p: Payload)
      returns (r: Result<Outcome, Failure>, ghost at: Db, ghost op: Op, ghost c: Commit, ghost seen: Reads)
      requires db.Valid() && db.Clear() && IsInt64(p.amount)
      modifies db`committed, db`view, db`turn, db`hold, db`depth, db`log
      ensures db.depth == old(db.depth) && db.hold.claim == old(db.hold.claim)
      ensures Later(old(db.committed), at) && Later(old(db.committed), db.committed)
      ensures Submitted(key, p, r, at, op, c) && Logged(old(db.log), r, at, c)
      ensures Owed(old(db.committed), db.committed, p, r)
      ensures Conflicting(old(db.committed), key, p) ==> Rebuffed(r)
      ensures r.Err? ==> SubmissionFails(old(db.committed), seen, db.committed, key, p, r.error)
      ensures r.Ok? && (r.value.replay || db.depth == 0) ==> Answered(p, r.value)
      ensures r.Ok? && !r.value.replay ==> Fresh(old(db.committed), seen, at, p, op, c)
    {
      at, op, c := db.committed, Op(0, false, PendingRow(key, p, 0), {}), Replayed(Delivery("", Malformed("")));
      seen := Reads(at, at, at, at);
      LaterReflexive(db.committed);
      var attempt := 0;
      while attempt <= retries
        invariant attempt <= retries + 1
        invariant db.depth == old(db.depth) && db.hold.claim == old(db.hold.claim)
        invariant db.Valid() && db.Clear() && Later(old(db.committed), db.committed) && Later(old(db.committed), at)
        invariant db.log == old(db.log)
        invariant 0 < attempt ==> Unnamed(old(db.committed), p) && !Conflicting(old(db.committed), key, p)
        invariant VersionAt(old(db.committed), p.wallet) + attempt
                  <= VersionAt(db.committed, p.wallet) + (if Taken(db.committed, key, p) then 1 else 0)
      {
        ghost var d := db.committed;
        r, at, op, c, seen := Attempt(key, p);
        LaterTransitive(old(db.committed), d, at);
        LaterTransitive(old(db.committed), d, db.committed);
        AttemptAnswers(old(db.committed), d, db.committed, key, p, r);
        AttemptTells(old(db.committed), d, seen, at, db.committed, key, p, r, op, c);
        if r.Ok? || !Retryable(r.error) {
          return;
        }
        VersionsGrow(d, db.committed, p.wallet);
        attempt := attempt + 1;
      }
      UnnamedIsOwedNothing(old(db.committed), db.committed, p, Err(VersionConflict));
      return Err(VersionConflict), at, op, c, seen;
    }

    /** What an attempt that started at d means for a submission that started before: what was
        known then is answered, */
    lemma AttemptAnswers(start: Db, d: Db, end: Db, key: Name, p: Payload, r: Result<Outcome, Failure>)
      requires Later(start, d) && Owed(d, end, p, r)
      requires r.Err? && Retryable(r.error) ==> !Taken(d, key, p)
      requires Conflicting(d, key, p) ==> Rebuffed(r)
      ensures Owed(start, end, p, r)
      ensures r.Err? && Retryable(r.error) ==> Unnamed(start, p) && !Conflicting(start, key, p)
      ensures Conflicting(start, key, p) ==> Rebuffed(r)
    {
      OwedEarlier(start, d, end, p, r);
      ConflictBefore(start, d, key, p);
      if r.Err? && Retryable(r.error) {
        RetryingIsOwedNothing(start, end, p, r);
      }
    }

    /** and what is new or fails does so for its reasons. */
    lemma AttemptTells(start: Db, d: Db, seen: Reads, at: Db, end: Db, key: Name, p: Payload,
                       r: Result<Outcome, Failure>, op: Op, c: Commit)
      requires Later(start, d)
      requires r.Ok? && !r.value.replay ==> Fresh(d, seen, at, p, op, c)
      requires r.Err? && !Retryable(r.error) ==> SubmissionFails(d, seen, end, key, p, r.error)
      ensures r.Ok? && !r.value.replay ==> Fresh(start, seen, at, p, op, c)
      ensures r.Err? && !Retryable(r.error) ==> SubmissionFails(start, seen, end, key, p, r.error)
    {
      if r.Ok? && !r.value.replay {
        FreshEarlier(start, d, seen, at, p, op, c);
      } else if r.Err? && !Retryable(r.error) {
        SubmissionFailsEarlier(start, d, seen, end, key, p, r.error);
      }
    }

    lemma ConflictBefore(start: Db, d: Db, key: Name, p: Payload)
      requires Later(start, d)
      ensures Conflicting(start, key, p) ==> Conflicting(d, key, p) && Taken(d, key, p)
    {
      if Conflicting(start, key, p) {
        ConflictPersists(start, d, key, p);
        ConflictIsTaken(d, key, p);
      }
    }

    // ----- resumptions ----------------------------------------------------------------

    /** Within the transaction that has claimed row `op`. */
    ghost predicate Claimed(op: Op)
      reads db
    {
      db.Valid() && db.Reading() && db.hold == Hold(Some(op), None) && !op.isNew && db.depth == 1
    }

    /** A savepoint with the operation in it. */
    method ApplyInSavepoint(t: Transaction, ghost op: Op)
      returns (r: Result<Outcome, Failure>, ghost c: Commit, ghost seen: Reads)
      requires Claimed(op) && Drafted(op) && t.id == op.id && t.Row() == op.row
      modifies t, db`committed, db`view, db`turn, db`depth
      ensures db.depth == 2 && Later(old(db.committed), db.committed)
      ensures if r.Ok? then Concluded(op, c, r.value) && OwedTo(old(db.committed), seen, db.committed, op, c)
              else db.Valid() && Cause(old(db.committed), seen, db.committed, op, r.error)
    {
      db.Begin();
      var now := Instant();
      r, c, seen := ApplyWatched(t, now, op);
    }

    method Reload(id: Uuid, ghost op: Op) returns (t: Transaction)
      requires Claimed(op) && id == op.id
      ensures fresh(t) && t.id == id && t.Row() == op.row && Drafted(op)
    {
      t := new Transaction.Rehydrate(id, db.view.txs[id]);
    }

    /** One attempt on a claimed row, in a savepoint: undone, it leaves the claim. */
    method AttemptResumption(id: Uuid, ghost op: Op)
      returns (r: Result<Outcome, Failure>, ghost c: Commit, ghost seen: Reads)
      requires Claimed(op) && id == op.id
      modifies db`committed, db`view, db`turn, db`hold, db`depth, db`log
      ensures Later(old(db.committed), db.committed) && db.log == old(db.log)
      ensures if r.Ok? then Concluded(op, c, r.value) && db.depth == 1 && db.hold.claim == None
              else Claimed(op) && Cause(old(db.committed), seen, db.committed, op, r.error)
      ensures r.Ok? ==> OwedTo(old(db.committed), seen, db.committed, op, c)
    {
      var t := Reload(id, op);
      var savepoint := db.hold.op;
      r, c, seen := ApplyInSavepoint(t, op);
      CloseSavepoint(r, savepoint, op, c);
    }

    /** Undone, the savepoint leaves the claim; released, what it has written. */
    method CloseSavepoint(r: Result<Outcome, Failure>, savepoint: Option<Op>, ghost op: Op, ghost c: Commit)
      requires db.depth == 2 && db.hold == Hold(Some(op), None) && !op.isNew && savepoint == Some(op)
      requires if r.Ok? then Concluded(op, c, r.value) else db.Valid()
      modifies db`committed, db`view, db`hold, db`depth, db`log
      ensures db.committed == old(db.committed) && db.log == old(db.log)
      ensures if r.Ok? then Concluded(op, c, r.value) && db.depth == 1 && db.hold.claim == None else Claimed(op)
    {
      if r.Err? {
        db.Rollback(savepoint);
      } else {
        db.Release();
      }
    }

    /** Claims the oldest due row and resumes it with the plan owed to reads made since the
        claim: it is parked again only if what it refers to had not ended at the claim. Unless
        it reports a success nothing has been written; it claims nothing only if nothing is
        due, and gives up only if the wallet has moved at each of its attempts. */
    method ResumeOne(locked: set<Uuid>)
      returns (claimed: bool, error: Option<Failure>, ghost from: Db, ghost op: Op, ghost at: Db, ghost c: Commit,
               ghost seen: Reads)
      requires db.Valid() && db.Clear() && db.depth == 0
      modifies db`committed, db`view, db`turn, db`hold, db`depth, db`log
      ensures db.Valid() && db.Clear() && db.depth == 0
      ensures Later(old(db.committed), from) && Later(from, at) && Later(at, db.committed)
      ensures if claimed then FirstDue(from, op.id, db.clock(old(db.turn)), locked) && op.row == from.txs[op.id]
              else error.None? && db.committed == at == from && NothingDue(from, db.clock(old(db.turn)), locked)
      ensures claimed && error.None? ==> !op.isNew && Legal(at, c) && db.committed == Apply(at, c)
      ensures claimed && error.None? ==> Resumes(from, seen, at, op, c)
      ensures error.Some? ==> db.committed == at && Cause(from, seen, at, op, error.value)
      ensures db.log == if error.Some? then old(db.log)
                        else old(db.log) + [Published(at, if claimed then Apply(at, c) else at)]
      ensures error == Some(VersionConflict) ==>
                VersionAt(from, op.Payload().wallet) + retries + 1 <= VersionAt(at, op.Payload().wallet)
    {
      claimed, error, c := false, None, Replayed(Delivery("", Malformed("")));
      var id;
      id, op := ClaimDue(locked);
      from, at := db.committed, db.committed;
      seen := Reads(at, at, at, at);
      LaterReflexive(at);
      if id.None? {
        db.Release();
        return;
      }
      claimed := true;
      error, at, c, seen := ResumeClaimed(id.value, op);
    }

    /** Opens the transaction and claims the oldest due row nobody else has locked. */
    method ClaimDue(locked: set<Uuid>) returns (id: Option<Uuid>, ghost op: Op)
      requires db.Valid() && db.Clear() && db.depth == 0
      modifies db`committed, db`view, db`turn, db`hold, db`depth
      ensures db.Valid() && Later(old(db.committed), db.committed) && db.depth == 1
      ensures match id
              case None => db.Clear() && db.hold.claim == None
                           && NothingDue(db.committed, db.clock(old(db.turn)), locked)
              case Some(k) =>
                && FirstDue(db.committed, k, db.clock(old(db.turn)), locked)
                && op == Op(k, false, db.committed.txs[k], Tables.Ended(db.committed.txs)) && Claimed(op)
    {
      db.Begin();
      var now := db.Now();
      db.Yield();
      op := Op(0, false, PendingRow("", Payload("", "", 0, 0, "", "", Bet, 0, "", ""), 0), {});
      id := db.ClaimOne(now, locked);
      if id.Some? {
        op := Op(id.value, false, db.view.txs[id.value], Tables.Ended(db.committed.txs));
        DueRowIsParked(db.committed, op);
      }
    }

    /** The attempts on a claimed row, up to the limit. */
    method TryResumption(id: Uuid, ghost op: Op)
      returns (r: Result<Outcome, Failure>, ghost c: Commit, ghost seen: Reads)
      requires Claimed(op) && id == op.id
      modifies db`committed, db`view, db`turn, db`hold, db`depth, db`log
      ensures Later(old(db.committed), db.committed) && db.log == old(db.log)
      ensures if r.Ok? then Concluded(op, c, r.value) && db.depth == 1 && db.hold.claim == None
              else Claimed(op) && Cause(old(db.committed), seen, db.committed, op, r.error)
      ensures r.Ok? ==> OwedTo(old(db.committed), seen, db.committed, op, c)
      ensures r == Err(VersionConflict) ==>
                VersionAt(old(db.committed), op.Payload().wallet) + retries + 1
                <= VersionAt(db.committed, op.Payload().wallet)
    {
      ghost var start := db.committed;
      var attempt := 0;
      seen := Reads(start, start, start, start);
      LaterReflexive(start);
      while attempt <= retries
        invariant attempt <= retries + 1
        invariant Claimed(op) && Later(start, db.committed) && db.log == old(db.log)
        invariant VersionAt(start, op.Payload().wallet) + attempt <= VersionAt(db.committed, op.Payload().wallet)
      {
        ghost var d := db.committed;
        r, c, seen := AttemptResumption(id, op);
        LaterTransitive(start, d, db.committed);
        AttemptOfResumption(start, d, seen, db.committed, op, c, r);
        if r.Ok? || !Retryable(r.error) {
          return;
        }
        attempt := attempt + 1;
      }
      return Err(VersionConflict), Replayed(Delivery("", Malformed(""))), seen;
    }

    lemma AttemptOfResumption(start: Db, d: Db, seen: Reads, end: Db, op: Op, c: Commit, r: Result<Outcome, Failure>)
      requires Later(start, d) && DbInv(d)
      requires if r.Ok? then OwedTo(d, seen, end, op, c) else Cause(d, seen, end, op, r.error)
      ensures if r.Ok? then OwedTo(start, seen, end, op, c) else Cause(start, seen, end, op, r.error)
      ensures r.Err? && Retryable(r.error) ==> VersionAt(d, op.Payload().wallet) < VersionAt(end, op.Payload().wallet)
    {
      if r.Ok? {
        OwedEarlierToo(start, d, seen, end, op, c);
      } else {
        CauseEarlier(start, d, seen, end, op, r.error);
        RetriesHaveMoved(d, seen, end, op, r.error);
      }
    }

    lemma RetriesHaveMoved(d: Db, seen: Reads, end: Db, op: Op, f: Failure)
      requires Cause(d, seen, end, op, f)
      ensures Retryable(f) ==> VersionAt(d, op.Payload().wallet) < VersionAt(end, op.Payload().wallet)
    {
    }

    /** The attempts on a claimed row, and the end of its transaction. */
    method ResumeClaimed(id: Uuid, ghost op: Op)
      returns (error: Option<Failure>, ghost at: Db, ghost c: Commit, ghost seen: Reads)
      requires Claimed(op) && id == op.id && op.ended == Tables.Ended(db.committed.txs)
      modifies db`committed, db`view, db`turn, db`hold, db`depth, db`log
      ensures db.Valid() && db.Clear() && db.depth == 0
      ensures Later(old(db.committed), at) && Later(at, db.committed)
      ensures if error.None? then Legal(at, c) && db.committed == Apply(at, c)
              else db.committed == at && Cause(old(db.committed), seen, at, op, error.value)
      ensures error.None? ==> Resumes(old(db.committed), seen, at, op, c)
      ensures db.log == if error.None? then old(db.log) + [Published(at, Apply(at, c))] else old(db.log)
      ensures error == Some(VersionConflict) ==>
                VersionAt(old(db.committed), op.Payload().wallet) + retries + 1 <= VersionAt(at, op.Payload().wallet)
    {
      ghost var from := db.committed;
      var r;
      r, c, seen := TryResumption(id, op);
      at := db.committed;
      if r.Err? {
        LaterReflexive(at);
        db.Rollback(None);
        return Some(r.error), at, c, seen;
      }
      LegalResumes(from, seen, at, op, c);
      Publish(op, c, r.value);
      return None, at, c, seen;
    }

    /** What the transaction has written becomes visible to all. */
    method Publish(ghost op: Op, ghost c: Commit, ghost out: Outcome)
      requires Concluded(op, c, out) && db.depth == 1 && db.hold.claim == None
      modifies db`committed, db`hold, db`depth, db`log
      ensures db.Valid() && db.Clear() && db.depth == 0
      ensures db.committed == Apply(old(db.committed), c) && Later(old(db.committed), db.committed)
      ensures db.log == old(db.log) + [Published(old(db.committed), db.committed)]
    {
      CommitKeepsInv(db.committed, c);
      db.Release();
    }

    lemma LegalResumes(from: Db, seen: Reads, at: Db, op: Op, c: Commit)
      requires Later(from, at) && DbInv(at) && Legal(at, c) && OwedTo(from, seen, at, op, c)
      requires op.ended == Tables.Ended(from.txs)
      ensures Resumes(from, seen, at, op, c)
    {
      if c.plan.Park? {
        LaterReflexive(from);
        ParkedWasOpen(from, from, at, c);
      }
    }

    /** Up to `limit` resumptions, one transaction each; the first failure ends the round. It
        ends early without one only when nothing is due. */
    method ResumeDue(limit: int, locked: set<Uuid>)
      returns (resumed: nat, error: Option<Failure>, ghost log: seq<Resumption>, ghost when: Time,
               ghost last: Resumption)
      requires db.Valid() && db.Clear() && db.depth == 0
      modifies db`committed, db`view, db`turn, db`hold, db`depth, db`log
      ensures db.Valid() && db.Clear() && db.depth == 0
      ensures resumed == |log| && resumed <= (if limit < 0 then 0 else limit)
      ensures LogSince(old(db.committed), log, db.committed)
      ensures resumed < limit && error.None? ==> Shown(when) && NothingDue(db.committed, when, locked)
      ensures error.Some? ==> Shown(when) && FailsAfter(old(db.committed), log, last, when, locked, error.value)
      ensures resumed < limit && error.None? ==>
                db.log == old(db.log) + Publications(log) + [Published(db.committed, db.committed)]
      ensures limit <= resumed || error.Some? ==> db.log == old(db.log) + Publications(log)
    {
      ghost var start, mark := db.committed, db.log;
      resumed, error, log, when := 0, None, [], 0;
      last := Resumption(start, Reads(start, start, start, start), start, Replayed(Delivery("", Malformed(""))));
      NothingLogged(start);
      var i := 0;
      while i < limit
        invariant 0 <= i <= (if limit < 0 then 0 else limit) && resumed == i == |log| && error.None?
        invariant db.Valid() && db.Clear() && db.depth == 0
        invariant LogSince(start, log, db.committed) && db.log == mark + Publications(log)
      {
        ghost var past := log;
        var claimed;
        claimed, error, log, when, last := Round(locked, start, past);
        if error.Some? || !claimed {
          return;
        }
        PublicationsAppend(mark, past, last);
        resumed, i := resumed + 1, i + 1;
      }
    }

    /** After the logged resumptions the oldest due row was claimed, and its resumption failed
        with a cause. */
    ghost predicate FailsAfter(start: Db, log: seq<Resumption>, last: Resumption, when: Time, locked: set<Uuid>,
                               f: Failure) {
      LogSince(start, log, last.from) && Later(last.from, last.at) && Fails(last, when, locked, f)
    }

    /** The oldest due row was claimed, and its resumption failed with a cause. */
    ghost predicate Fails(last: Resumption, when: Time, locked: set<Uuid>, f: Failure) {
      exists op: Op :: FirstDue(last.from, op.id, when, locked) && Cause(last.from, last.seen, last.at, op, f)
                       && op.row == last.from.txs[op.id]
    }

    /** One resumption, logged if it commits. */
    method Round(locked: set<Uuid>, ghost start: Db, ghost past: seq<Resumption>)
      returns (claimed: bool, error: Option<Failure>, ghost log: seq<Resumption>, ghost when: Time,
               ghost last: Resumption)
      requires db.Valid() && db.Clear() && db.depth == 0
      requires LogSince(start, past, db.committed)
      modifies db`committed, db`view, db`turn, db`hold, db`depth, db`log
      ensures db.Valid() && db.Clear() && db.depth == 0
      ensures LogSince(start, log, db.committed) && Shown(when)
      ensures log == if claimed && error.None? then past + [last] else past
      ensures !claimed ==> error.None? && NothingDue(db.committed, when, locked)
      ensures error.Some? ==> claimed && FailsAfter(start, past, last, when, locked, error.value)
      ensures error.Some? ==> db.log == old(db.log)
      ensures !claimed ==> db.log == old(db.log) + [Published(db.committed, db.committed)]
      ensures claimed && error.None? ==> db.log == old(db.log) + [PublicationOf(last)]
    {
      ghost var d := db.committed;
      ghost var from, op, at, c, seen;
      when := db.clock(db.turn);
      claimed, error, from, op, at, c, seen := ResumeOne(locked);
      last := Resumption(from, seen, at, c);
      log := if claimed && error.None? then past + [last] else past;
      RoundIsLogged(start, past, d, op, last, db.committed, claimed && error.None?);
    }
  }
}
