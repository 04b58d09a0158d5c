/** The database as one connection sees it. Statements run one at a time; before each of
    them any other process may commit. What the open transaction has inserted or locked is
    held until it ends: nobody else can take the same keys or change a claimed row. */
module Databases {
  import opened Domain
  import opened Tables
  import opened Progress
  import opened Safety
  import opened Interleaving

  datatype Failure =
    | Invalid
    | WalletMissing
    | WalletExists
    | VersionConflict
    | DuplicateExternal
    | DuplicateKey
    | DuplicateReversal
    | IdempotencyConflict
    | FundsCheck
    | MoneyRange
    | Terminal
    | Storage

  /** What the open transaction holds: its own operation and the message it has claimed. */
  datatype Hold = Hold(op: Option<Op>, claim: Option<Delivery>)

  predicate OpHeld(db: Db, op: Op) {
    EndedHolds(db.txs, op.ended) &&
    if op.isNew then Insertable(db, op.id, op.row)
    else op.id in db.txs && db.txs[op.id] == op.row && op.row.status == PendingReference
  }

  predicate Respected(db: Db, h: Hold) {
    && (h.op.Some? ==> OpHeld(db, h.op.value))
    && (h.claim.Some? ==> h.claim.value.message !in db.inbox)
  }

  function WithOp(db: Db, op: Option<Op>): Db {
    if op.Some? then db.(txs := View(db.txs, op.value)) else db
  }

  function WithClaim(db: Db, claim: Option<Delivery>): Db {
    if claim.Some? then db.(inbox := db.inbox[claim.value.message := InboxRow(claim.value.body, false)]) else db
  }

  /** The committed tables and, on top, what the transaction has written. */
  function Overlay(db: Db, h: Hold): Db {
    WithClaim(WithOp(db, h.op), h.claim)
  }

  predicate Owns(w: WalletRow, player: Uuid, currency: Name) {
    w.player == player && w.currency == currency
  }

  predicate Owned(wallets: map<Uuid, WalletRow>, player: Uuid, currency: Name) {
    exists id :: id in wallets && Owns(wallets[id], player, currency)
  }

  predicate Opens(r: TxRow, wallet: Uuid) {
    r.terms.payload.kind == Opening && r.terms.payload.wallet == wallet
  }

  predicate HasOpeningRow(txs: map<Uuid, TxRow>, wallet: Uuid) {
    exists k :: k in txs && Opens(txs[k], wallet)
  }

  predicate Due(d: Db, id: Uuid, now: Time) {
    id in d.txs && !d.txs[id].status.IsTerminal() && d.txs[id].due.Some? && d.txs[id].due.value <= now
  }

  /** Not final, and its next attempt is not in the future. */
  predicate Awaits(r: TxRow, now: Time) {
    (r.status == Pending || r.status == PendingReference) && r.due.Some? && r.due.value <= now
  }

  predicate DueBefore(a: TxRow, b: TxRow)
    requires a.due.Some? && b.due.Some?
  {
    a.due.value < b.due.value || (a.due.value == b.due.value && a.terms.createdAt <= b.terms.createdAt)
  }

  ghost predicate NothingDue(d: Db, now: Time, locked: set<Uuid>) {
    forall id :: id in d.txs && Awaits(d.txs[id], now) ==> id in locked
  }

  /** Of those nobody has locked, the row with the earliest due time, the older of two. */
  ghost predicate FirstDue(d: Db, id: Uuid, now: Time, locked: set<Uuid>) {
    && id in d.txs && Awaits(d.txs[id], now) && id !in locked
    && forall k :: k in d.txs && Awaits(d.txs[k], now) && k !in locked ==>
         || d.txs[id].due.value < d.txs[k].due.value
         || (d.txs[id].due.value == d.txs[k].due.value && d.txs[id].terms.createdAt <= d.txs[k].terms.createdAt)
  }

  /** Other processes, as any function of the moment and of the tables that keeps the
      invariant, moves the tables on, and respects what is held: every continuation of an
      interleaved run is such a step (Interleaving.RunKeepsInv and RunAdvances). */
  ghost predicate Environment(others: (nat, Hold, Db) -> Db) {
    forall n: nat, h: Hold, d: Db :: DbInv(d) ==> Moves(h, d, others(n, h, d))
  }

  ghost predicate Moves(h: Hold, d: Db, e: Db) {
    DbInv(e) && Later(d, e) && (Respected(d, h) ==> Respected(e, h))
  }

  function Silence(n: nat, h: Hold, d: Db): Db { d }

  /** Nobody else at all is one such environment. */
  lemma SilenceIsAnEnvironment()
    ensures Environment(Silence)
  {
    forall n: nat, h: Hold, d: Db | DbInv(d) ensures Moves(h, d, Silence(n, h, d)) {
      LaterReflexive(d);
    }
  }

  /** And so is every continuation of an interleaved run that leaves alone what is held. */
  lemma RunsAreMoves(steps: seq<Step>, more: seq<Step>, h: Hold)
    requires Respected(Run(steps).db, h) ==> Respected(Run(steps + more).db, h)
    ensures Moves(h, Run(steps).db, Run(steps + more).db)
  {
    RunKeepsInv(steps + more);
    RunAdvances(steps, more);
  }

  /** The clock has started, ids are never NIL, and an event id is a new one. */
  ghost predicate Sources(clock: nat -> Time, ids: nat -> Uuid, eventIds: (nat, seq<OutboxRow>) -> Uuid) {
    && (forall n: nat :: 0 < clock(n) && ids(n) != NIL)
    && forall n: nat, outbox: seq<OutboxRow> :: EventIdFree(outbox, eventIds(n, outbox))
  }

  /** The ids of a posting's two events. */
  predicate IdsAreNew(outbox: seq<OutboxRow>, ids: Ids) {
    EventIdFree(outbox, ids.moved) && EventIdFree(outbox, ids.told) && ids.moved != ids.told
  }

  lemma NextIdIsNew(outbox: seq<OutboxRow>, row: OutboxRow, told: Uuid)
    requires EventIdFree(outbox + [row], told)
    ensures EventIdFree(outbox, told) && told != row.id
  {
    var more := outbox + [row];
    assert more[|outbox|] == row;
    forall i | 0 <= i < |outbox| ensures outbox[i].id != told {
      assert more[i] == outbox[i];
    }
  }

  /** What one end of an outermost transaction made of the committed tables. */
  datatype Published = Published(before: Db, after: Db)

  class Database {
    var committed: Db
    ghost var log: seq<Published>
    var view: Db
    var hold: Hold
    var depth: nat
    var turn: nat
    const others: (nat, Hold, Db) -> Db
    const clock: nat -> Time
    const ids: nat -> Uuid
    const eventIds: (nat, seq<OutboxRow>) -> Uuid

    ghost predicate Valid()
      reads this
    {
      DbInv(committed) && Environment(others) && Respected(committed, hold) && Sources(clock, ids, eventIds)
    }

    /** Nothing written yet but what is held. */
    predicate Reading()
      reads this
    {
      view == Overlay(committed, hold)
    }

    /** Nothing is open, or only what the caller had open before. */
    predicate Clear()
      reads this
    {
      Reading() && hold.op == None && (depth == 0 ==> hold.claim == None)
    }

    constructor (others: (nat, Hold, Db) -> Db, clock: nat -> Time, ids: nat -> Uuid,
                 eventIds: (nat, seq<OutboxRow>) -> Uuid)
      requires Environment(others) && Sources(clock, ids, eventIds)
      ensures Valid() && Reading() && committed == EMPTY && depth == 0 && hold == Hold(None, None) && log == []
    {
      this.others, this.clock, this.ids, this.eventIds := others, clock, ids, eventIds;
      committed, view, hold, depth, turn, log := EMPTY, EMPTY, Hold(None, None), 0, 0, [];
      EmptyInv();
    }

    /** Other processes commit. */
    method Yield()
      requires Valid() && Reading()
      modifies this`committed, this`view, this`turn
      ensures Valid() && Reading() && Later(old(committed), committed)
    {
      committed := others(turn, hold, committed);
      turn := turn + 1;
      view := Overlay(committed, hold);
    }

    method Now() returns (now: Time)
      requires Valid()
      modifies this`turn
      ensures Valid() && 0 < now == clock(old(turn))
    {
      now := clock(turn);
      turn := turn + 1;
    }

    method NewId() returns (id: Uuid)
      requires Valid()
      modifies this`turn
      ensures Valid() && NIL != id == ids(old(turn))
    {
      id := ids(turn);
      turn := turn + 1;
    }

    // ----- transactions and savepoints ------------------------------------------------

    method Begin()
      modifies this`depth
      ensures depth == old(depth) + 1
    {
      depth := depth + 1;
    }

    /** The savepoint, or the whole transaction, is undone; what was held when it began
        stays held. */
    method Rollback(op: Option<Op>)
      requires 0 < depth
      modifies this`view, this`hold, this`depth
      ensures depth == old(depth) - 1
      ensures hold == (if depth == 0 then Hold(None, None) else Hold(op, old(hold).claim))
      ensures Reading()
    {
      depth := depth - 1;
      hold := if depth == 0 then Hold(None, None) else Hold(op, hold.claim);
      view := Overlay(committed, hold);
    }

    /** A savepoint is released; the outermost transaction becomes visible to all. */
    method Release()
      requires 0 < depth
      modifies this`committed, this`hold, this`depth, this`log
      ensures depth == old(depth) - 1
      ensures log == if depth == 0 then old(log) + [Published(old(committed), old(view))] else old(log)
      ensures if depth == 0 then committed == view && hold == Hold(None, None)
              else committed == old(committed) && hold == old(hold)
    {
      depth := depth - 1;
      if depth == 0 {
        log := log + [Published(committed, view)];
        committed := view;
        hold := Hold(None, None);
      }
    }

    // ----- wallets --------------------------------------------------------------------

    method GetWallet(id: Uuid) returns (r: Option<WalletRow>)
      ensures r == if id in view.wallets then Some(view.wallets[id]) else None
    {
      r := if id in view.wallets then Some(view.wallets[id]) else None;
    }

    method GetByPlayerAndCurrency(player: Uuid, currency: Name) returns (found: bool)
      ensures found <==> Owned(view.wallets, player, currency)
    {
      found := exists id :: id in view.wallets && Owns(view.wallets[id], player, currency);
    }

    /** INSERT: the primary key and one wallet per player and currency. */
    method CreateWallet(w: WalletRow) returns (error: Option<Failure>)
      modifies this`view
      ensures error == (if w.id in old(view).wallets then Some(Storage)
                        else if Owned(old(view).wallets, w.player, w.currency) then Some(WalletExists)
                        else None)
      ensures view == if error.None? then old(view).(wallets := old(view).wallets[w.id := w]) else old(view)
    {
      if w.id in view.wallets { return Some(Storage); }
      if exists id :: id in view.wallets && Owns(view.wallets[id], w.player, w.currency) { return Some(WalletExists); }
      view := view.(wallets := view.wallets[w.id := w]);
      return None;
    }

    /** UPDATE ... WHERE id AND version: zero rows mean another writer won. */
    method UpdateBalance(w: WalletRow, expected: int) returns (error: Option<Failure>)
      modifies this`view
      ensures error == (if w.id !in old(view).wallets || old(view).wallets[w.id].version != expected
                        then Some(VersionConflict)
                        else if w.balance < 0 || w.updatedAt < old(view).wallets[w.id].createdAt then Some(FundsCheck)
                        else None)
      ensures view == if error.None?
                      then
                        var bumped := Bumped(old(view).wallets[w.id], w.balance, w.updatedAt);
                        old(view).(wallets := old(view).wallets[w.id := bumped])
                      else old(view)
    {
      if w.id !in view.wallets || view.wallets[w.id].version != expected { return Some(VersionConflict); }
      if w.balance < 0 || w.updatedAt < view.wallets[w.id].createdAt { return Some(FundsCheck); }
      view := view.(wallets := view.wallets[w.id := Bumped(view.wallets[w.id], w.balance, w.updatedAt)]);
      return None;
    }

    // ----- transactions ---------------------------------------------------------------

    method GetByProviderExternal(provider: Name, external: Name) returns (found: Option<Uuid>)
      ensures Found(view.txs, provider, external, found)
    {
      if exists id :: id in view.txs && Names(view.txs[id], provider, external) {
        var id :| id in view.txs && Names(view.txs[id], provider, external);
        return Some(id);
      }
      return None;
    }

    method GetByProviderIdempotencyKey(provider: Name, key: Name) returns (found: Option<Uuid>)
      ensures FoundKey(view.txs, provider, key, found)
    {
      if exists id :: id in view.txs && HoldsKey(view.txs[id], provider, key) {
        var id :| id in view.txs && HoldsKey(view.txs[id], provider, key);
        return Some(id);
      }
      return None;
    }

    /** SELECT of a processed row by its resolved reference and its kind. */
    method FindReversal(ref: Uuid, kind: Kind) returns (found: Option<Uuid>)
      ensures match found
              case Some(id) =>
                && id in view.txs && view.txs[id].status == Processed
                && view.txs[id].reference == Some(ref) && view.txs[id].terms.payload.kind == kind
              case None =>
                forall id :: id in view.txs && view.txs[id].status == Processed && view.txs[id].reference == Some(ref)
                  ==> view.txs[id].terms.payload.kind != kind
    {
      if exists id :: id in view.txs && Reverses(view.txs[id], ref, kind) {
        var id :| id in view.txs && Reverses(view.txs[id], ref, kind);
        return Some(id);
      }
      return None;
    }

    /** INSERT: the primary key, the two unique indexes, then the foreign key to the wallet. */
    method InsertTx(id: Uuid, r: TxRow) returns (error: Option<Failure>)
      modifies this`view, this`hold
      ensures error.None? <==> Insertable(old(view), id, r)
      ensures error.Some? ==> error.value in {Storage, DuplicateExternal, DuplicateKey}
      ensures error == Some(DuplicateExternal) <==>
                id !in old(view).txs && !Found(old(view).txs, r.terms.payload.provider, r.terms.payload.external, None)
      ensures error == Some(Storage) ==> id in old(view).txs || r.terms.payload.wallet !in old(view).wallets
      ensures error == Some(DuplicateKey) ==> !FoundKey(old(view).txs, r.terms.payload.provider, r.terms.key, None)
      ensures view == if error.None? then old(view).(txs := old(view).txs[id := r]) else old(view)
      ensures hold == if error.None? then old(hold).(op := Some(Op(id, true, r, Ended(old(view).txs)))) else old(hold)
    {
      var p := r.terms.payload;
      if id in view.txs { return Some(Storage); }
      if exists k :: k in view.txs && Names(view.txs[k], p.provider, p.external) { return Some(DuplicateExternal); }
      if exists k :: k in view.txs && HoldsKey(view.txs[k], p.provider, r.terms.key) { return Some(DuplicateKey); }
      if p.wallet !in view.wallets { return Some(Storage); }
      hold := hold.(op := Some(Op(id, true, r, Ended(view.txs))));
      view := view.(txs := view.txs[id := r]);
      return None;
    }

    /** INSERT of an opening: the primary key, the wallet, and one opening per wallet. */
    method InsertOpening(id: Uuid, r: TxRow) returns (error: Option<Failure>)
      modifies this`view
      ensures error.None? <==> id !in old(view).txs && r.terms.payload.wallet in old(view).wallets
                               && !HasOpeningRow(old(view).txs, r.terms.payload.wallet)
      ensures error.Some? ==> error.value == Storage
      ensures view == if error.None? then old(view).(txs := old(view).txs[id := r]) else old(view)
    {
      if id in view.txs || r.terms.payload.wallet !in view.wallets { return Some(Storage); }
      if exists k :: k in view.txs && Opens(view.txs[k], r.terms.payload.wallet) { return Some(Storage); }
      view := view.(txs := view.txs[id := r]);
      return None;
    }

    /** The oldest due row that nobody else has locked, now locked by this transaction. */
    method ClaimOne(now: Time, locked: set<Uuid>) returns (r: Option<Uuid>)
      modifies this`hold
      ensures match r
              case None => hold == old(hold) && NothingDue(view, now, locked)
              case Some(id) =>
                && FirstDue(view, id, now, locked)
                && hold == old(hold).(op := Some(Op(id, false, view.txs[id], Ended(view.txs))))
    {
      r := None;
      var rest := view.txs.Keys;
      while rest != {}
        invariant rest <= view.txs.Keys && hold == old(hold)
        invariant r.None? ==> forall k :: k !in rest && Due(view, k, now) ==> k in locked
        invariant r.Some? ==> Due(view, r.value, now) && r.value !in locked
        invariant r.Some? ==> forall k :: k !in rest && Due(view, k, now) && k !in locked
                                          ==> DueBefore(view.txs[r.value], view.txs[k])
        decreases rest
      {
        var id :| id in rest;
        rest := rest - {id};
        if Due(view, id, now) && id !in locked && (r.None? || !DueBefore(view.txs[r.value], view.txs[id])) {
          r := Some(id);
        }
      }
      if r.Some? {
        hold := hold.(op := Some(Op(r.value, false, view.txs[r.value], Ended(view.txs))));
      }
    }

    /** UPDATE ... WHERE the row is not final, under the index on processed reversals. */
    method UpdateTx(id: Uuid, r: TxRow) returns (error: Option<Failure>)
      modifies this`view
      ensures error.None? <==>
                id in old(view).txs && !old(view).txs[id].status.IsTerminal() && ReversalFree(old(view), id, r)
      ensures error.Some? ==> error.value == Terminal || error.value == DuplicateReversal
      ensures view == if error.None? then old(view).(txs := old(view).txs[id := r.(terms := old(view).txs[id].terms)])
                      else old(view)
    {
      if id !in view.txs || view.txs[id].status.IsTerminal() { return Some(Terminal); }
      if !ReversalFree(view, id, r) { return Some(DuplicateReversal); }
      view := view.(txs := view.txs[id := r.(terms := view.txs[id].terms)]);
      return None;
    }

    /** UPDATE of whatever is parked on the transaction of that name: due at once, and
        nothing else of it changes. */
    method Wake(provider: Name, external: Name, now: Time)
      modifies this`view
      ensures view == old(view).(txs := view.txs) && view.txs.Keys == old(view).txs.Keys
      ensures forall id :: id in view.txs ==>
                var was := old(view).txs[id];
                if was.status == PendingReference && was.terms.payload.provider == provider
                   && was.terms.payload.reference == external
                then view.txs[id] == was.(due := Some(now), updatedAt := now) && Awaits(view.txs[id], now)
                else view.txs[id] == was
    {
      view := view.(txs := map id | id in view.txs :: Woken(view.txs[id], provider, external, now));
    }

    // ----- ledger, outbox, inbox ------------------------------------------------------

    method InsertLedger(e: EntryRow) returns (error: Option<Failure>)
      modifies this`view
      ensures error.None? <==> EntryIdFree(old(view).ledger, e.id) && UnpostedIn(old(view).ledger, e.wallet, e.tx)
      ensures error.Some? ==> error.value == Storage
      ensures view == if error.None? then old(view).(ledger := old(view).ledger + [e]) else old(view)
    {
      if !EntryIdFree(view.ledger, e.id) || !UnpostedIn(view.ledger, e.wallet, e.tx) { return Some(Storage); }
      view := view.(ledger := view.ledger + [e]);
      return None;
    }

    /** Stores an event under a new id of its own. */
    method InsertOutbox(e: Event, now: Time) returns (id: Uuid)
      requires Valid()
      modifies this`view, this`turn
      ensures Valid() && EventIdFree(old(view).outbox, id)
      ensures view == old(view).(outbox := old(view).outbox + [OutboxRow(id, e, now)])
    {
      id := eventIds(turn, view.outbox);
      turn := turn + 1;
      view := view.(outbox := view.outbox + [OutboxRow(id, e, now)]);
    }

    /** INSERT ... ON CONFLICT DO NOTHING: None if claimed, else the row already there. */
    method ClaimInbox(message: Name, body: Body) returns (existing: Option<InboxRow>)
      modifies this`view, this`hold
      ensures existing == if message in old(view).inbox then Some(old(view).inbox[message]) else None
      ensures view == if existing.None?
                      then old(view).(inbox := old(view).inbox[message := InboxRow(body, false)])
                      else old(view)
      ensures hold == if existing.None? then old(hold).(claim := Some(Delivery(message, body))) else old(hold)
    {
      if message in view.inbox { return Some(view.inbox[message]); }
      view := view.(inbox := view.inbox[message := InboxRow(body, false)]);
      hold := hold.(claim := Some(Delivery(message, body)));
      return None;
    }

    method CompleteInbox(message: Name) returns (error: Option<Failure>)
      modifies this`view
      ensures error.None? <==> message in old(view).inbox
      ensures view == if error.None?
                      then
                        var completed := old(view).inbox[message].(completed := true);
                        old(view).(inbox := old(view).inbox[message := completed])
                      else old(view)
    {
      if message !in view.inbox { return Some(Storage); }
      view := view.(inbox := view.inbox[message := view.inbox[message].(completed := true)]);
      return None;
    }
  }
}
