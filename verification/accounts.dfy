/** The wallet service: opening a wallet as one atomic unit, reading its ledger, and
    rebuilding its balance from the ledger. */
module Accounts {
  import opened Domain
  import opened Tables
  import opened Invariants
  import opened Progress
  import opened Safety
  import opened Moneys
  import opened Wallets
  import opened Databases
  import opened Paging
  import opened Guarantees

  // ----- totals -----------------------------------------------------------------------

  function CreditOf(e: EntryRow, w: Uuid): int {
    if e.wallet == w && e.direction == Credit then e.amount else 0
  }

  function DebitOf(e: EntryRow, w: Uuid): int {
    if e.wallet == w && e.direction == Debit then e.amount else 0
  }

  function Credits(ledger: seq<EntryRow>, w: Uuid): int {
    if ledger == [] then 0 else Credits(ledger[..|ledger| - 1], w) + CreditOf(ledger[|ledger| - 1], w)
  }

  function Debits(ledger: seq<EntryRow>, w: Uuid): int {
    if ledger == [] then 0 else Debits(ledger[..|ledger| - 1], w) + DebitOf(ledger[|ledger| - 1], w)
  }

  function Entries(ledger: seq<EntryRow>, w: Uuid): nat {
    if ledger == [] then 0 else Entries(ledger[..|ledger| - 1], w) + (if ledger[|ledger| - 1].wallet == w then 1 else 0)
  }

  datatype Totals = Totals(currency: Name, stored: int, credits: int, debits: int, entries: int)

  datatype Reconciliation = Reconciliation(
    wallet: Uuid,
    stored: Money,
    calculated: Money,
    difference: Money,
    consistent: bool,
    checked: int)

  lemma {:induction false} SumIsCreditsLessDebits(ledger: seq<EntryRow>, w: Uuid)
    requires Chained(ledger)
    ensures SumOf(ledger, w) == Credits(ledger, w) - Debits(ledger, w)
    ensures 0 <= Debits(ledger, w) <= Credits(ledger, w)
  {
    ChainedIsSum(ledger, w);
    if ledger != [] {
      SumIsCreditsLessDebits(ledger[..|ledger| - 1], w);
    }
  }

  /** In every state the protocol reaches the totals agree with the stored balance. */
  lemma TotalsAgree(d: Db, w: Uuid)
    requires DbInv(d) && w in d.wallets
    ensures d.wallets[w].balance == Credits(d.ledger, w) - Debits(d.ledger, w)
    ensures 0 <= Debits(d.ledger, w) <= Credits(d.ledger, w)
    ensures 0 <= d.wallets[w].balance <= MAX_INT64 && d.wallets[w].currency != NO_NAME
  {
    InvLedger(d);
    assert WalletMatches(d, w);
    ChainedIsSum(d.ledger, w);
    SumIsCreditsLessDebits(d.ledger, w);
    assert Holds(WalletsClaim, d);
    assert WalletHolds(d.wallets[w]);
  }

  class WalletService {
    const db: Database

    constructor (db: Database)
      ensures this.db == db
    {
      this.db := db;
    }

    // ----- opening --------------------------------------------------------------------

    ghost predicate Drawn(id: Uuid) {
      exists n: nat :: db.ids(n) == id
    }

    method DrawId() returns (id: Uuid)
      requires db.Valid()
      modifies db`turn
      ensures db.Valid() && id != NIL && Drawn(id)
    {
      ghost var n := db.turn;
      id := db.NewId();
      assert db.ids(n) == id;
    }

    /** One of the ids the service draws is in use already. */
    ghost predicate IdIsTaken(d: Db) {
      exists n: nat :: db.ids(n) in d.wallets || db.ids(n) in d.txs || !EntryIdFree(d.ledger, db.ids(n))
    }

    /** The player has a wallet in the currency. */
    ghost predicate IsOwned(d: Db, player: Uuid, currency: Name) {
      exists id :: id in d.wallets && d.wallets[id].player == player && d.wallets[id].currency == currency
    }

    /** Creates a wallet with, if the initial balance is positive, its OPENING transaction,
        ledger credit and events in the same commit. */
    method Open(player: Uuid, initial: Money) returns (r: Result<WalletRow, Failure>, ghost at: Db, ghost c: Commit)
      requires db.Valid() && db.Clear() && db.depth == 0 && IsInt64(initial.amount)
      modifies db`committed, db`view, db`turn, db`hold, db`depth, db`log
      ensures db.Valid() && db.Clear() && db.depth == 0 && Later(old(db.committed), db.committed)
      ensures r == Err(Invalid) <==> player == NIL || !initial.IsValid() || initial.amount < 0
      ensures r.Ok? ==> Legal(at, c) && c.Opened? && c.wallet == r.value && db.committed == Apply(at, c)
      ensures r.Ok? ==>
                && r.value.player == player && r.value.currency == initial.currency
                && r.value.balance == initial.amount && r.value.version == 1
      ensures r.Err? ==> db.committed == at && r.error in {Invalid, WalletExists, Storage}
      ensures r == Err(WalletExists) ==> IsOwned(db.committed, player, initial.currency)
      ensures r == Err(Storage) ==> IdIsTaken(db.committed)
      ensures IsOwned(old(db.committed), player, initial.currency) ==> r.Err? && r.error != Storage
      ensures db.log == if r.Ok? then old(db.log) + [Published(at, Apply(at, c))] else old(db.log)
    {
      at, c := db.committed, Replayed(Delivery("", Malformed("")));
      LaterReflexive(at);
      if player == NIL || !initial.IsValid() || initial.amount < 0 {
        return Err(Invalid), at, c;
      }
      var existing, now := Look(player, initial.currency);
      ghost var d := db.committed;
      at := d;
      if existing {
        db.Rollback(None);
        return Err(WalletExists), at, c;
      }
      r, at, c := Create(player, initial, now);
      LaterTransitive(old(db.committed), d, db.committed);
    }

    /** Opens the transaction and looks for a wallet of the owner. */
    method Look(player: Uuid, currency: Name) returns (existing: bool, now: Time)
      requires db.Valid() && db.Clear() && db.depth == 0
      modifies db`committed, db`view, db`turn, db`depth
      ensures db.Valid() && db.Reading() && db.hold == Hold(None, None) && db.depth == 1 && 0 < now
      ensures Later(old(db.committed), db.committed)
      ensures existing <==> IsOwned(db.committed, player, currency)
      ensures IsOwned(old(db.committed), player, currency) ==> existing
    {
      db.Begin();
      now := db.Now();
      db.Yield();
      existing := db.GetByPlayerAndCurrency(player, currency);
      OwnedStaysOwned(old(db.committed), db.committed, player, currency);
    }

    /** Draws the ids and writes the rows. */
    method Create(player: Uuid, initial: Money, now: Time)
      returns (r: Result<WalletRow, Failure>, ghost at: Db, ghost c: Commit)
      requires db.Valid() && db.Reading() && db.hold == Hold(None, None) && db.depth == 1 && 0 < now
      requires player != NIL && initial.IsValid() && 0 <= initial.amount <= MAX_INT64
      modifies db`committed, db`view, db`turn, db`hold, db`depth, db`log
      ensures db.Valid() && db.Clear() && db.depth == 0 && Later(old(db.committed), db.committed)
      ensures Inserted(r, at, c, player, initial.currency)
      ensures r.Ok? ==>
                && r.value.player == player && r.value.currency == initial.currency
                && r.value.balance == initial.amount && r.value.version == 1
      ensures db.log == if r.Ok? then old(db.log) + [Published(at, Apply(at, c))] else old(db.log)
    {
      var id := DrawId();
      var tx := DrawId();
      var entry := DrawId();
      var w := new Wallet.Open(id, player, initial, now);
      r, at, c := Insert(w.Row(), tx, entry);
    }

    /** One legal commit of the wallet, or nothing and the reason. */
    ghost predicate Inserted(r: Result<WalletRow, Failure>, at: Db, c: Commit, player: Uuid, currency: Name)
      reads db
    {
      match r
      case Ok(w) => Legal(at, c) && c.Opened? && c.wallet == w && db.committed == Apply(at, c)
      case Err(f) =>
        && db.committed == at
        && ((f == Storage && IdIsTaken(db.committed)) || (f == WalletExists && IsOwned(db.committed, player, currency)))
    }

    /** The rest of the transaction of an opening. */
    method Insert(w: WalletRow, tx: Uuid, entry: Uuid)
      returns (r: Result<WalletRow, Failure>, ghost at: Db, ghost c: Commit)
      requires db.Valid() && db.Reading() && db.hold == Hold(None, None) && db.depth == 1
      requires WalletHolds(w) && w.version == 1 && w.createdAt == w.updatedAt
      requires Drawn(w.id) && Drawn(tx) && Drawn(entry)
      modifies db`committed, db`view, db`turn, db`hold, db`depth, db`log
      ensures db.Valid() && db.Clear() && db.depth == 0 && Later(old(db.committed), db.committed)
      ensures Inserted(r, at, c, w.player, w.currency) && (r.Ok? ==> r.value == w)
      ensures db.log == if r.Ok? then old(db.log) + [Published(at, Apply(at, c))] else old(db.log)
    {
      db.Yield();
      at := db.committed;
      var error;
      ghost var ids;
      error, ids := Write(w, tx, entry);
      c := Opened(w, tx, ids);
      if error.Some? {
        OpeningStops(at, w, tx, entry);
        db.Rollback(None);
        return Err(error.value), at, c;
      }
      Seal(c);
      LaterTransitive(old(db.committed), at, db.committed);
      return Ok(w), at, c;
    }

    /** A key of one of the three rows is taken. */
    predicate IsStopped(d: Db, w: Uuid, tx: Uuid, entry: Uuid) {
      || w in d.wallets || tx in d.txs || HasOpeningRow(d.txs, w)
      || !EntryIdFree(d.ledger, entry) || !UnpostedIn(d.ledger, w, tx)
    }

    /** A wallet that does not exist has no rows and no entries, so one of the ids is taken. */
    lemma OpeningStops(d: Db, w: WalletRow, tx: Uuid, entry: Uuid)
      requires DbInv(d) && Drawn(w.id) && Drawn(tx) && Drawn(entry)
      ensures IsStopped(d, w.id, tx, entry) ==> IdIsTaken(d)
      ensures Owned(d.wallets, w.player, w.currency) ==> IsOwned(d, w.player, w.currency)
    {
      var i: nat :| db.ids(i) == w.id;
      var j: nat :| db.ids(j) == tx;
      var k: nat :| db.ids(k) == entry;
      assert Holds(RowsClaim, d);
      InvLedger(d);
      OwnedIsOwned(d, w.player, w.currency);
      assert db.ids(i) in d.wallets || db.ids(j) in d.txs || !EntryIdFree(d.ledger, db.ids(k))
             || !IsStopped(d, w.id, tx, entry);
    }

    lemma OwnedIsOwned(d: Db, player: Uuid, currency: Name)
      ensures Owned(d.wallets, player, currency) <==> IsOwned(d, player, currency)
    {
      if IsOwned(d, player, currency) {
        var id :| id in d.wallets && d.wallets[id].player == player && d.wallets[id].currency == currency;
        assert Owns(d.wallets[id], player, currency);
      }
    }

    lemma OwnedStaysOwned(a: Db, b: Db, player: Uuid, currency: Name)
      requires Later(a, b)
      ensures IsOwned(a, player, currency) ==> IsOwned(b, player, currency)
      ensures IsOwned(b, player, currency) <==> Owned(b.wallets, player, currency)
    {
      OwnedIsOwned(b, player, currency);
      if IsOwned(a, player, currency) {
        var id :| id in a.wallets && a.wallets[id].player == player && a.wallets[id].currency == currency;
        assert id in b.wallets && Older(a.wallets[id], b.wallets[id]);
      }
    }

    /** The transaction commits what it has written. */
    method Seal(ghost c: Commit)
      requires db.Valid() && db.depth == 1 && Legal(db.committed, c) && db.view == Apply(db.committed, c)
      modifies db`committed, db`hold, db`depth, db`log
      ensures db.Valid() && db.Clear() && db.depth == 0
      ensures db.committed == Apply(old(db.committed), c) && Later(old(db.committed), db.committed)
      ensures db.log == old(db.log) + [Published(old(db.committed), db.committed)]
    {
      CommitKeepsInv(db.committed, c);
      db.Release();
    }

    /** The statements of an opening. */
    method Write(w: WalletRow, tx: Uuid, entry: Uuid) returns (error: Option<Failure>, ghost ids: Ids)
      requires db.Valid()
      modifies db`view, db`turn
      ensures db.Valid() && ids.entry == entry
      ensures error.None? ==>
                Passes(old(db.view), Opened(w, tx, ids)) && db.view == Apply(old(db.view), Opened(w, tx, ids))
      ensures error.Some? ==>
                || (error == Some(Storage) && IsStopped(old(db.view), w.id, tx, entry))
                || (error == Some(WalletExists) && Owned(old(db.view).wallets, w.player, w.currency))
    {
      ids := Ids(entry, NIL, NIL);
      error := db.CreateWallet(w);
      if error.Some? || w.balance <= 0 {
        QuietOpening(old(db.view).outbox, Opened(w, tx, ids));
        return;
      }
      error := db.InsertOpening(tx, OpeningRow(w));
      if error.Some? { return; }
      error := db.InsertLedger(EntryRow(entry, w.id, tx, Direction.Credit, w.balance, 0, w.balance, w.createdAt));
      if error.Some? { return; }
      var changed := BalanceChanged(w.id, tx, Direction.Credit, w.balance, 0, w.balance, w.version);
      ghost var moved := db.InsertOutbox(changed, w.createdAt);
      ghost var told := db.InsertOutbox(TxProcessed(tx, w.balance), w.createdAt);
      ids := Ids(entry, moved, told);
      NextIdIsNew(old(db.view).outbox, OutboxRow(moved, changed, w.createdAt), told);
      EventsOfOpening(old(db.view).outbox, Opened(w, tx, ids));
    }

    // ----- reading --------------------------------------------------------------------

    method Ledger(id: Uuid, cursor: Option<Cursor>, limit: int) returns (r: Result<Page, Failure>)
      requires db.Valid() && db.Clear() && db.depth == 0
      modifies db`committed, db`view, db`turn
      ensures db.Valid() && db.Clear() && Later(old(db.committed), db.committed)
      ensures r.Ok? <==> id in old(db.committed).wallets
      ensures id in old(db.committed).wallets ==> r == Ok(PageOf(db.committed.ledger, id, cursor, ServiceLimit(limit)))
      ensures r == Err(WalletMissing) || r.Ok?
    {
      var w := db.GetWallet(id);
      if w.None? {
        LaterReflexive(db.committed);
        return Err(WalletMissing);
      }
      db.Yield();
      var n := if limit <= 0 then 50 else limit;
      if n > 200 {
        n := 200;
      }
      var page := ListByWallet(db.view.ledger, id, cursor, n);
      return Ok(page);
    }

    /** One statement reads the stored balance and the sums; a sum beyond int64 cannot be
        scanned. */
    method TotalsByWallet(id: Uuid) returns (r: Result<Totals, Failure>)
      ensures if id !in db.view.wallets then r == Err(WalletMissing)
              else if !IsInt64(Credits(db.view.ledger, id)) || !IsInt64(Debits(db.view.ledger, id))
              then r == Err(Storage)
              else r == Ok(Totals(db.view.wallets[id].currency, db.view.wallets[id].balance,
                                  Credits(db.view.ledger, id), Debits(db.view.ledger, id), Entries(db.view.ledger, id)))
    {
      if id !in db.view.wallets { return Err(WalletMissing); }
      var w := db.view.wallets[id];
      var ledger := db.view.ledger;
      var credits, debits, entries, i := 0, 0, 0, 0;
      while i < |ledger|
        invariant 0 <= i <= |ledger|
        invariant credits == Credits(ledger[..i], id) && debits == Debits(ledger[..i], id)
                  && entries == Entries(ledger[..i], id)
      {
        assert ledger[..i + 1][..i] == ledger[..i];
        credits := credits + CreditOf(ledger[i], id);
        debits := debits + DebitOf(ledger[i], id);
        if ledger[i].wallet == id {
          entries := entries + 1;
        }
        i := i + 1;
      }
      assert ledger[..i] == ledger;
      if !IsInt64(credits) || !IsInt64(debits) { return Err(Storage); }
      return Ok(Totals(w.currency, w.balance, credits, debits, entries));
    }

    /** As long as the credits fit int64 nothing overflows and the books balance. */
    method Reconcile(id: Uuid) returns (r: Result<Reconciliation, Failure>)
      requires db.Valid() && db.Clear() && db.depth == 0
      ensures r == if id !in db.committed.wallets then Err(WalletMissing)
                   else if Credits(db.committed.ledger, id) > MAX_INT64 then Err(Storage)
                   else
                     var w := db.committed.wallets[id];
                     var stored := Money(w.balance, w.currency);
                     Ok(Reconciliation(id, stored, stored, Money(0, w.currency), true,
                                       Entries(db.committed.ledger, id)))
    {
      if id in db.view.wallets {
        TotalsAgree(db.committed, id);
      }
      var read := TotalsByWallet(id);
      if read.Err? { return Err(read.error); }
      var totals := read.value;
      var stored := Money(totals.stored, totals.currency);
      var calculated := Sub(Money(totals.credits, totals.currency), Money(totals.debits, totals.currency));
      if calculated.Err? { return Err(MoneyRange); }
      var difference := Sub(stored, calculated.value);
      if difference.Err? { return Err(MoneyRange); }
      var balanced := difference.value.amount == 0;
      return Ok(Reconciliation(id, stored, calculated.value, difference.value, balanced, totals.entries));
    }
  }

  lemma QuietOpening(outbox: seq<OutboxRow>, c: Commit)
    requires c.Opened?
    ensures c.wallet.balance <= 0 ==> outbox + BalanceRows(c) + TxRows(c) == outbox
  {
  }

  lemma EventsOfOpening(outbox: seq<OutboxRow>, c: Commit)
    requires c.Opened? && 0 < c.wallet.balance
    ensures var w := c.wallet;
            var changed := BalanceChanged(w.id, c.tx, Direction.Credit, w.balance, 0, w.balance, w.version);
            outbox + BalanceRows(c) + TxRows(c)
            == outbox + [OutboxRow(c.ids.moved, changed, w.createdAt)]
                      + [OutboxRow(c.ids.told, TxProcessed(c.tx, w.balance), w.createdAt)]
  {
    var w := c.wallet;
    var changed := BalanceChanged(w.id, c.tx, Direction.Credit, w.balance, 0, w.balance, w.version);
    assert BalanceRows(c) == [OutboxRow(c.ids.moved, changed, w.createdAt)];
    assert TxRows(c) == [OutboxRow(c.ids.told, TxProcessed(c.tx, w.balance), w.createdAt)];
  }
}
