/** The whole invariant of the tables, and that every legal commit keeps it. */
module Safety {
  import opened Domain
  import opened Tables
  import opened Invariants
  import opened Progress
  import opened Commits
  import opened Notices

  /** Rows and keys. */
  ghost predicate RowsInv(db: Db) {
    WalletsHold(db) && RowsHold(db) && Unique(db.txs) && LinksHold(db.txs) && Exclusive(db.txs)
  }

  /** The ledger and the balances. */
  ghost predicate LedgerInv(db: Db) {
    && EntriesHold(db.txs, db.ledger) && Once(db.ledger) && AllPosted(db.txs, db.ledger)
    && RefersBack(db.txs, db.ledger) && OpeningsFirst(db.txs, db.ledger) && Chained(db.ledger) && WalletsMatch(db)
  }

  /** What is announced, refused and acknowledged. */
  ghost predicate NoticeInv(db: Db) {
    && BalancesAnnounced(db) && TrailsHold(db) && EventsDiffer(db.outbox) && RejectionsHold(db) && InboxHolds(db)
  }

  /** The parts of the invariant, named so that a proof can ask for the one it needs. */
  datatype Claim = WalletsClaim | RowsClaim | UniqueClaim | LinksClaim | ExclusiveClaim | LedgerClaim | NoticeClaim

  ghost predicate Holds(claim: Claim, db: Db) {
    match claim
    case WalletsClaim => WalletsHold(db)
    case RowsClaim => RowsHold(db)
    case UniqueClaim => Unique(db.txs)
    case LinksClaim => LinksHold(db.txs)
    case ExclusiveClaim => Exclusive(db.txs)
    case LedgerClaim => LedgerInv(db)
    case NoticeClaim => NoticeInv(db)
  }

  ghost predicate DbInv(db: Db) {
    forall claim: Claim :: Holds(claim, db)
  }

  lemma InvRows(db: Db)
    requires DbInv(db)
    ensures RowsInv(db)
  {
    assert Holds(WalletsClaim, db) && Holds(RowsClaim, db) && Holds(UniqueClaim, db);
    assert Holds(LinksClaim, db) && Holds(ExclusiveClaim, db);
  }

  lemma InvLedger(db: Db)
    requires DbInv(db)
    ensures LedgerInv(db)
  {
    assert Holds(LedgerClaim, db);
  }

  lemma InvNotices(db: Db)
    requires DbInv(db)
    ensures NoticeInv(db)
  {
    assert Holds(NoticeClaim, db);
  }

  lemma InvOf(db: Db)
    requires RowsInv(db) && LedgerInv(db) && NoticeInv(db)
    ensures DbInv(db)
  {
    forall claim: Claim ensures Holds(claim, db) {
      match claim
      case WalletsClaim =>
      case RowsClaim =>
      case UniqueClaim =>
      case LinksClaim =>
      case ExclusiveClaim =>
      case LedgerClaim =>
      case NoticeClaim =>
    }
  }

  const EMPTY := Db(map[], map[], [], [], map[])

  lemma EmptyInv()
    ensures DbInv(EMPTY)
  {
    InvOf(EMPTY);
  }

  lemma CommitKeepsRowsInv(db: Db, c: Commit)
    requires RowsInv(db) && Legal(db, c)
    ensures RowsInv(Apply(db, c))
  {
    CommitKeepsWallets(db, c);
    CommitKeepsRows(db, c);
    CommitKeepsUnique(db, c);
    CommitKeepsLinks(db, c);
    CommitKeepsExclusive(db, c);
  }

  lemma CommitKeepsLedgerInv(db: Db, c: Commit)
    requires RowsInv(db) && LedgerInv(db) && Legal(db, c)
    ensures LedgerInv(Apply(db, c))
  {
    CommitKeepsEntries(db, c);
    CommitKeepsOnce(db, c);
    CommitKeepsAllPosted(db, c);
    CommitKeepsRefersBack(db, c);
    CommitKeepsOpeningsFirst(db, c);
    CommitKeepsChained(db, c);
    CommitKeepsMatch(db, c);
  }

  lemma CommitKeepsNoticeInv(db: Db, c: Commit)
    requires RowsInv(db) && LedgerInv(db) && NoticeInv(db) && Legal(db, c)
    ensures NoticeInv(Apply(db, c))
  {
    CommitKeepsBalancesAnnounced(db, c);
    CommitKeepsTrails(db, c);
    CommitKeepsEventsDiffer(db, c);
    CommitKeepsRejections(db, c);
    CommitKeepsInbox(db, c);
  }

  /** Every commit an operation is entitled to keeps the invariant and moves the tables on. */
  lemma CommitKeepsInv(db: Db, c: Commit)
    requires DbInv(db) && Legal(db, c)
    ensures DbInv(Apply(db, c)) && Later(db, Apply(db, c))
  {
    InvRows(db);
    InvLedger(db);
    InvNotices(db);
    CommitKeepsRowsInv(db, c);
    CommitKeepsLedgerInv(db, c);
    CommitKeepsNoticeInv(db, c);
    InvOf(Apply(db, c));
    CommitAdvances(db, c);
  }
}
