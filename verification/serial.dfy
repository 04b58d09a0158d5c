/** Serial order: the wallets and the ledger are those of a machine that has only ever
    done one movement at a time. */
module Serial {
  import opened Domain
  import opened Rules
  import opened Tables
  import opened Safety
  import opened Interleaving

  /** A movement as a request: it says nothing about balances or versions. */
  datatype Record =
    | OpenRecord(wallet: Uuid, player: Uuid, currency: Name, amount: int, tx: Uuid, entry: Uuid, now: Time)
    | MoveRecord(wallet: Uuid, tx: Uuid, direction: Direction, amount: int, entry: Uuid, now: Time)

  datatype Book = Book(wallets: map<Uuid, WalletRow>, ledger: seq<EntryRow>)

  /** One movement on its own: None if the wallet, the funds or the range do not allow it. */
  function Post(book: Book, r: Record): Option<Book> {
    match r
    case OpenRecord(wallet, player, currency, amount, tx, entry, now) =>
      if wallet in book.wallets || amount < 0 || MAX_INT64 < amount then None
      else
        var w := WalletRow(wallet, player, currency, amount, 1, now, now);
        Some(Book(book.wallets[wallet := w],
                  if 0 < amount then book.ledger + [EntryRow(entry, wallet, tx, Credit, amount, 0, amount, now)]
                  else book.ledger))
    case MoveRecord(wallet, tx, direction, amount, entry, now) =>
      if wallet !in book.wallets then None
      else
        var w := book.wallets[wallet];
        var after := Moved(w.balance, direction, amount);
        if amount <= 0 || after < 0 || MAX_INT64 < after then None
        else Some(Book(book.wallets[wallet := Bumped(w, after, now)],
                       book.ledger + [EntryRow(entry, wallet, tx, direction, amount, w.balance, after, now)]))
  }

  /** The whole log from the empty book; None as soon as one movement is refused. */
  function Replay(log: seq<Record>): Option<Book> {
    if log == [] then Some(Book(map[], []))
    else
      var before := Replay(log[..|log| - 1]);
      if before.None? then None else Post(before.value, log[|log| - 1])
  }

  function RecordsOf(c: Commit): seq<Record> {
    match c
    case Opened(w, tx, ids) => [OpenRecord(w.id, w.player, w.currency, w.balance, tx, ids.entry, w.createdAt)]
    case Settled(op, seen, plan, now, ids, _, _) =>
      if !c.Posts() then []
      else [MoveRecord(op.Payload().wallet, op.id, plan.direction, op.Payload().amount, ids.entry, now)]
    case Replayed(_) => []
  }

  /** The openings and movements of a run, in commit order. */
  function Log(steps: seq<Step>): seq<Record> {
    if steps == [] then []
    else
      var c := CommitAt(Run(steps[..|steps| - 1]), steps[|steps| - 1]);
      Log(steps[..|steps| - 1]) + (if c.Some? then RecordsOf(c.value) else [])
  }

  /** A commit does to the book what its record does alone. */
  lemma CommitIsPost(db: Db, c: Commit)
    requires RowsInv(db) && Legal(db, c)
    ensures var book := Book(db.wallets, db.ledger); var after := Book(Apply(db, c).wallets, Apply(db, c).ledger);
            if RecordsOf(c) == [] then after == book
            else |RecordsOf(c)| == 1 && Post(book, RecordsOf(c)[0]) == Some(after)
  {
    if c.Settled? {
      OpIsValid(db, c.op);
    }
  }

  lemma ReplayAppend(log: seq<Record>, r: Record)
    requires Replay(log).Some?
    ensures Replay(log + [r]) == Post(Replay(log).value, r)
  {
    assert (log + [r])[..|log|] == log;
  }

  /** Main result: replaying the movements of any run one at a time, in the order they
      committed, passes every check and gives the very same wallets and ledger. */
  lemma {:induction false} RunIsSerializable(steps: seq<Step>)
    ensures Replay(Log(steps)) == Some(Book(Run(steps).db.wallets, Run(steps).db.ledger))
  {
    if steps != [] {
      var init := steps[..|steps| - 1];
      var s := Run(init);
      RunIsSerializable(init);
      RunKeepsInv(init);
      StepRefines(s, steps[|steps| - 1]);
      var c := CommitAt(s, steps[|steps| - 1]);
      if c.Some? {
        InvRows(s.db);
        CommitIsPost(s.db, c.value);
        if RecordsOf(c.value) != [] {
          assert RecordsOf(c.value) == [RecordsOf(c.value)[0]];
          ReplayAppend(Log(init), RecordsOf(c.value)[0]);
        } else {
          assert Log(steps) == Log(init);
        }
      } else {
        assert Log(steps) == Log(init);
      }
    }
  }
}
