/** Every legal commit keeps what holds of the tables, and moves them forward. */
module Commits {
  import opened Domain
  import opened Rules
  import opened Tables
  import opened Invariants
  import opened Progress

  /** A row a commit does not settle: at most woken. */
  predicate Kept(r: TxRow, s: TxRow) {
    s == r || (r.status == PendingReference && s.due.Some? && s == r.(due := s.due, updatedAt := s.updatedAt))
  }

  predicate OthersKept(txs: map<Uuid, TxRow>, after: map<Uuid, TxRow>, id: Uuid) {
    forall k :: k in after && k != id ==> k in txs && Kept(txs[k], after[k])
  }

  lemma TxsShape(txs: map<Uuid, TxRow>, c: Commit)
    requires c.WritesTx()
    ensures TxsAfter(txs, c).Keys == txs.Keys + {c.TxId()}
    ensures TxsAfter(txs, c)[c.TxId()] == c.Row()
    ensures OthersKept(txs, TxsAfter(txs, c), c.TxId())
  {
  }

  /** The row a commit writes starts from the row it found, if any. */
  lemma RowShape(db: Db, c: Commit)
    requires c.WritesTx() && Legal(db, c)
    ensures c.TxId() in db.txs ==> !db.txs[c.TxId()].status.IsTerminal() && Advanced(db.txs[c.TxId()], c.Row())
  {
  }

  // ----- progress -------------------------------------------------------------------

  lemma CommitAdvancesWallets(db: Db, c: Commit)
    requires WalletsHold(db) && Legal(db, c)
    ensures WalletsAdvance(db.wallets, Apply(db, c).wallets)
  {
  }

  lemma CommitAdvancesTxs(db: Db, c: Commit)
    requires Legal(db, c)
    ensures TxsAdvance(db.txs, Apply(db, c).txs)
  {
    if c.WritesTx() {
      TxsShape(db.txs, c);
      RowShape(db, c);
    }
  }

  lemma CommitWitnessed(db: Db, c: Commit)
    requires WalletsHold(db) && Legal(db, c)
    ensures VersionsWitness(db, Apply(db, c))
  {
    if c.WritesTx() {
      TxsShape(db.txs, c);
      RowShape(db, c);
    }
  }

  lemma CommitAdvances(db: Db, c: Commit)
    requires WalletsHold(db) && Legal(db, c)
    ensures Later(db, Apply(db, c))
  {
    CommitAdvancesWallets(db, c);
    CommitAdvancesTxs(db, c);
    CommitWitnessed(db, c);
  }

  // ----- preservation ---------------------------------------------------------------

  lemma CommitKeepsWallets(db: Db, c: Commit)
    requires WalletsHold(db) && Legal(db, c)
    ensures WalletsHold(Apply(db, c))
  {
  }

  lemma MovedRowIsSound(db: Db, c: Commit)
    requires RowsHold(db) && Legal(db, c) && c.Settled? && c.plan.Move?
    ensures RowHolds(c.Row())
  {
    if c.Posts() {
      assert 0 <= c.Posting().after <= MAX_INT64;
    } else {
      assert c.plan.direction == Debit;
    }
  }

  lemma RowIsSound(db: Db, c: Commit)
    requires RowsHold(db) && Legal(db, c) && c.WritesTx()
    ensures RowHolds(c.Row())
  {
    if c.Opened? {
    } else if c.plan.Move? {
      MovedRowIsSound(db, c);
    } else {
      assert c.op.isNew ==> c.op.row.attempts == 0;
      assert !c.op.isNew ==> RowHolds(c.op.row);
    }
  }

  lemma KeptRowIsSound(r: TxRow, s: TxRow)
    requires RowHolds(r) && Kept(r, s)
    ensures RowHolds(s) && s.terms == r.terms
  {
  }

  /** Wallets are never deleted, and a commit's row names one of them. */
  lemma RowHasWallet(db: Db, c: Commit)
    requires RowsHold(db) && Legal(db, c)
    ensures forall w :: w in db.wallets ==> w in Apply(db, c).wallets
    ensures c.WritesTx() ==> c.Row().terms.payload.wallet in Apply(db, c).wallets
  {
    if c.Settled? && !c.op.isNew {
      assert db.txs[c.op.id].terms.payload.wallet in db.wallets;
    }
  }

  lemma CommitKeepsRows(db: Db, c: Commit)
    requires RowsHold(db) && Legal(db, c)
    ensures RowsHold(Apply(db, c))
  {
    RowHasWallet(db, c);
    if c.WritesTx() {
      TxsShape(db.txs, c);
      RowIsSound(db, c);
    }
    var after := Apply(db, c);
    forall id | id in after.txs
      ensures RowHolds(after.txs[id]) && after.txs[id].terms.payload.wallet in after.wallets
    {
      if !(c.WritesTx() && id == c.TxId()) {
        KeptRowIsSound(db.txs[id], after.txs[id]);
      }
    }
  }

  lemma TermsShape(db: Db, c: Commit)
    requires Legal(db, c) && c.WritesTx()
    ensures forall k :: k in db.txs ==> k in Apply(db, c).txs && Apply(db, c).txs[k].terms == db.txs[k].terms
    ensures forall k :: k in Apply(db, c).txs && k !in db.txs ==> k == c.TxId()
    ensures Apply(db, c).txs[c.TxId()].terms == c.Row().terms
  {
    TxsShape(db.txs, c);
    RowShape(db, c);
  }

  /** The unique indexes keep a new row apart from all others. */
  lemma NewcomerStandsApart(db: Db, c: Commit, k: Uuid)
    requires Legal(db, c) && c.WritesTx() && c.TxId() !in db.txs && k in db.txs
    ensures !SameName(db.txs[k], c.Row()) && !SameName(c.Row(), db.txs[k])
    ensures !SameKey(db.txs[k], c.Row()) && !SameKey(c.Row(), db.txs[k])
  {
  }

  lemma CommitKeepsUnique(db: Db, c: Commit)
    requires Unique(db.txs) && Legal(db, c)
    ensures Unique(Apply(db, c).txs)
  {
    if c.WritesTx() {
      TermsShape(db, c);
      var after := Apply(db, c).txs;
      forall i, j | i in after && j in after && (SameName(after[i], after[j]) || SameKey(after[i], after[j]))
        ensures i == j
      {
        if i in db.txs && j in db.txs {
          assert db.txs[i].terms == after[i].terms && db.txs[j].terms == after[j].terms;
        } else if i in db.txs {
          NewcomerStandsApart(db, c, i);
        } else if j in db.txs {
          NewcomerStandsApart(db, c, j);
        }
      }
    }
  }

  /** Terminal rows stay, so what has been resolved stays resolved. */
  lemma LinkPersists(a: map<Uuid, TxRow>, b: map<Uuid, TxRow>, r: TxRow)
    requires TxsAdvance(a, b) && Linked(a, r)
    ensures Linked(b, r)
  {
  }

  /** A new link is the one the plan has checked. */
  lemma RowIsLinked(db: Db, c: Commit)
    requires RowsHold(db) && Legal(db, c) && c.WritesTx()
    ensures Linked(db.txs, c.Row())
  {
  }

  lemma CommitKeepsLinks(db: Db, c: Commit)
    requires RowsHold(db) && LinksHold(db.txs) && Legal(db, c)
    ensures LinksHold(Apply(db, c).txs)
  {
    if c.WritesTx() {
      CommitAdvancesTxs(db, c);
      TxsShape(db.txs, c);
      RowIsLinked(db, c);
      var after := Apply(db, c).txs;
      forall k | k in after
        ensures Linked(after, after[k])
      {
        assert Linked(db.txs, after[k]);
        LinkPersists(db.txs, after, after[k]);
      }
    }
  }

  /** A rival is an operation the lookups would have found. */
  lemma UnblockedHasNoRival(txs: map<Uuid, TxRow>, kind: Kind, r: Uuid, k: Uuid)
    requires LinksHold(txs) && k in txs && r in txs && !Blocked(txs, kind, r)
    requires (kind.IsReversal() || kind == Win) && ReferenceKindFits(kind, txs[r].terms.payload.kind)
    ensures !(txs[k].status == Processed && txs[k].reference == Some(r)
              && (txs[k].terms.payload.kind == Win <==> kind == Win) && NeedsReference(txs[k].terms.payload))
  {
    assert Linked(txs, txs[k]);
    if txs[k].status == Processed && txs[k].reference == Some(r) {
      assert Reverses(txs[k], r, txs[k].terms.payload.kind);
    }
  }

  /** The version guard turns "no reversal when I looked" into "no reversal now". */
  lemma RowHasNoRival(db: Db, c: Commit, k: Uuid)
    requires Legal(db, c) && c.WritesTx()
    requires RowsHold(db) && LinksHold(db.txs)
    requires k in db.txs && k != c.TxId()
    ensures !Rivals(db.txs[k], c.Row())
  {
    assert RowHolds(db.txs[k]);
    RowReference(db, c);
    if c.Row().status == Processed && c.Row().reference.Some? {
      UnblockedHasNoRival(db.txs, c.Row().terms.payload.kind, c.Row().reference.value, k);
    }
  }

  lemma RowReference(db: Db, c: Commit)
    requires Legal(db, c) && c.WritesTx() && RowsHold(db)
    ensures c.Row().status == Processed && c.Row().reference.Some? ==>
              && NeedsReference(c.Row().terms.payload) && c.Row().reference.value in db.txs
              && ReferenceKindFits(c.Row().terms.payload.kind, db.txs[c.Row().reference.value].terms.payload.kind)
              && !Blocked(db.txs, c.Row().terms.payload.kind, c.Row().reference.value)
  {
  }

  lemma NewcomerIsNoRival(txs: map<Uuid, TxRow>, after: map<Uuid, TxRow>, id: Uuid)
    requires Exclusive(txs) && OthersKept(txs, after, id) && id in after
    requires forall k :: k in txs && k != id ==> !Rivals(txs[k], after[id])
    ensures Exclusive(after)
  {
    forall i, j | i in after && j in after && i != j
      ensures !Rivals(after[i], after[j])
    {
      if i != id && j != id {
        assert !Rivals(txs[i], txs[j]);
      } else if i != id {
        assert !Rivals(txs[i], after[id]);
      } else {
        assert !Rivals(txs[j], after[id]);
      }
    }
  }

  lemma CommitKeepsExclusive(db: Db, c: Commit)
    requires RowsHold(db) && LinksHold(db.txs) && Exclusive(db.txs) && Legal(db, c)
    ensures Exclusive(Apply(db, c).txs)
  {
    if c.WritesTx() {
      TxsShape(db.txs, c);
      forall k | k in db.txs && k != c.TxId()
        ensures !Rivals(db.txs[k], c.Row())
      {
        RowHasNoRival(db, c, k);
      }
      NewcomerIsNoRival(db.txs, Apply(db, c).txs, c.TxId());
    }
  }

  // ----- the ledger -----------------------------------------------------------------

  lemma EntryPersists(a: Db, b: Db, e: EntryRow)
    requires TxsAdvance(a.txs, b.txs) && LinksHold(a.txs) && EntryHolds(a.txs, e)
    ensures EntryHolds(b.txs, e) && b.txs[e.tx] == a.txs[e.tx]
  {
    assert Linked(a.txs, a.txs[e.tx]);
  }

  /** An operation that is carried out is an external one of positive amount. */
  lemma MoverIsExternal(db: Db, c: Commit)
    requires RowsHold(db) && Legal(db, c) && c.Settled?
    ensures ValidExternal(c.op.row.terms.key, c.op.Payload())
    ensures c.plan.Move? ==> 0 < c.op.Payload().amount
  {
    if !c.op.isNew {
      assert RowHolds(db.txs[c.op.id]);
    }
  }

  lemma PostingDirection(db: Db, c: Commit)
    requires RowsHold(db) && Legal(db, c) && c.Posts()
    ensures c.Posting().direction == DirectionOf(db.txs, c.Row())
  {
    if c.Settled? {
      MoverIsExternal(db, c);
    }
  }

  lemma DirectionPersists(a: map<Uuid, TxRow>, b: map<Uuid, TxRow>, r: TxRow)
    requires TxsAdvance(a, b) && Linked(a, r)
    ensures DirectionOf(a, r) == DirectionOf(b, r)
  {
  }

  lemma PostingHolds(db: Db, c: Commit)
    requires RowsHold(db) && LinksHold(db.txs) && Legal(db, c) && c.Posts()
    ensures EntryHolds(Apply(db, c).txs, c.Posting())
  {
    TxsShape(db.txs, c);
    CommitAdvancesTxs(db, c);
    RowIsLinked(db, c);
    PostingDirection(db, c);
    DirectionPersists(db.txs, Apply(db, c).txs, c.Row());
    if c.Settled? {
      MoverIsExternal(db, c);
    }
  }

  lemma CommitKeepsEntries(db: Db, c: Commit)
    requires RowsHold(db) && LinksHold(db.txs) && EntriesHold(db.txs, db.ledger) && Legal(db, c)
    ensures EntriesHold(Apply(db, c).txs, Apply(db, c).ledger)
  {
    CommitAdvancesTxs(db, c);
    var after := Apply(db, c);
    forall i | 0 <= i < |after.ledger|
      ensures EntryHolds(after.txs, after.ledger[i])
    {
      if i < |db.ledger| {
        assert EntryHolds(db.txs, db.ledger[i]);
        EntryPersists(db, after, db.ledger[i]);
      } else {
        PostingHolds(db, c);
      }
    }
  }

  lemma CommitKeepsOnce(db: Db, c: Commit)
    requires EntriesHold(db.txs, db.ledger) && Once(db.ledger) && Legal(db, c)
    ensures Once(Apply(db, c).ledger)
  {
    if c.Posts() {
      forall i | 0 <= i < |db.ledger|
        ensures db.ledger[i].tx != c.Posting().tx && db.ledger[i].id != c.Posting().id
      {
        assert EntryHolds(db.txs, db.ledger[i]);
        RowShape(db, c);
      }
    }
  }

  lemma PostedPersists(ledger: seq<EntryRow>, after: seq<EntryRow>, id: Uuid, n: int)
    requires ledger <= after && PostedBy(ledger, id, n)
    ensures PostedBy(after, id, n)
  {
    var j :| 0 <= j < n && ledger[j].tx == id;
    assert after[j].tx == id;
  }

  lemma StillPosted(db: Db, c: Commit, id: Uuid)
    requires AllPosted(db.txs, db.ledger) && Legal(db, c)
    requires id in db.txs && MovesMoney(db.txs[id])
    ensures PostedBy(Apply(db, c).ledger, id, |Apply(db, c).ledger|)
  {
    assert PostedBy(db.ledger, id, |db.ledger|);
    var j :| 0 <= j < |db.ledger| && db.ledger[j].tx == id;
    assert Apply(db, c).ledger[j].tx == id;
  }

  /** A row that becomes a carried-out movement is posted by the same commit. */
  lemma MovingRowIsPosted(db: Db, c: Commit)
    requires RowsHold(db) && Legal(db, c) && c.WritesTx() && MovesMoney(c.Row())
    ensures PostedBy(Apply(db, c).ledger, c.TxId(), |Apply(db, c).ledger|)
  {
    assert c.Posts();
    assert Apply(db, c).ledger[|db.ledger|].tx == c.TxId();
  }

  lemma CommitKeepsAllPosted(db: Db, c: Commit)
    requires RowsHold(db) && AllPosted(db.txs, db.ledger) && Legal(db, c)
    ensures AllPosted(Apply(db, c).txs, Apply(db, c).ledger)
  {
    var after := Apply(db, c);
    if c.WritesTx() {
      TxsShape(db.txs, c);
    }
    forall id | id in after.txs && MovesMoney(after.txs[id])
      ensures PostedBy(after.ledger, id, |after.ledger|)
    {
      if c.WritesTx() && id == c.TxId() {
        MovingRowIsPosted(db, c);
      } else {
        StillPosted(db, c, id);
      }
    }
  }

  lemma LinkIsPosted(txs: map<Uuid, TxRow>, ledger: seq<EntryRow>, r: TxRow)
    requires AllPosted(txs, ledger) && Linked(txs, r) && r.reference.Some? && NeedsReference(r.terms.payload)
    requires ReferenceKindFits(r.terms.payload.kind, txs[r.reference.value].terms.payload.kind)
    ensures PostedBy(ledger, r.reference.value, |ledger|)
  {
    assert MovesMoney(txs[r.reference.value]);
  }

  /** The reference of a new entry's transaction is already in the ledger. */
  lemma PostingRefersBack(db: Db, c: Commit)
    requires RowsHold(db) && AllPosted(db.txs, db.ledger) && Legal(db, c) && c.Posts()
    ensures c.Row().reference.Some? ==> PostedBy(db.ledger, c.Row().reference.value, |db.ledger|)
  {
    RowIsLinked(db, c);
    RowReference(db, c);
    if c.Row().reference.Some? {
      LinkIsPosted(db.txs, db.ledger, c.Row());
    }
  }

  lemma EntryStillRefersBack(db: Db, c: Commit, i: nat)
    requires EntriesHold(db.txs, db.ledger) && RefersBack(db.txs, db.ledger) && Legal(db, c)
    requires i < |db.ledger| && db.ledger[i].tx in Apply(db, c).txs && Apply(db, c).txs[db.ledger[i].tx].reference.Some?
    ensures PostedBy(Apply(db, c).ledger, Apply(db, c).txs[db.ledger[i].tx].reference.value, i)
  {
    CommitAdvancesTxs(db, c);
    assert EntryHolds(db.txs, db.ledger[i]);
    assert Advanced(db.txs[db.ledger[i].tx], Apply(db, c).txs[db.ledger[i].tx]);
    PostedPersists(db.ledger, Apply(db, c).ledger, db.txs[db.ledger[i].tx].reference.value, i);
  }

  lemma NewEntryRefersBack(db: Db, c: Commit)
    requires RowsHold(db) && AllPosted(db.txs, db.ledger) && Legal(db, c) && c.Posts()
    ensures var after := Apply(db, c);
            && |after.ledger| == |db.ledger| + 1 && after.ledger[|db.ledger|].tx == c.TxId() && c.TxId() in after.txs
            && after.txs[c.TxId()].reference == c.Row().reference
            && (c.Row().reference.Some? ==> PostedBy(after.ledger, c.Row().reference.value, |db.ledger|))
  {
    PostingRefersBack(db, c);
    TxsShape(db.txs, c);
    if c.Row().reference.Some? {
      PostedPersists(db.ledger, Apply(db, c).ledger, c.Row().reference.value, |db.ledger|);
    }
  }

  lemma CommitKeepsRefersBack(db: Db, c: Commit)
    requires RowsHold(db) && EntriesHold(db.txs, db.ledger)
    requires AllPosted(db.txs, db.ledger) && RefersBack(db.txs, db.ledger) && Legal(db, c)
    ensures RefersBack(Apply(db, c).txs, Apply(db, c).ledger)
  {
    var after := Apply(db, c);
    forall i | 0 <= i < |after.ledger| && after.ledger[i].tx in after.txs
        && after.txs[after.ledger[i].tx].reference.Some?
      ensures PostedBy(after.ledger, after.txs[after.ledger[i].tx].reference.value, i)
    {
      if i < |db.ledger| {
        assert after.ledger[i] == db.ledger[i];
        EntryStillRefersBack(db, c, i);
      } else {
        NewEntryRefersBack(db, c);
      }
    }
  }

  lemma PostingOpensOnce(db: Db, c: Commit)
    requires RowsHold(db) && WalletsMatch(db) && Legal(db, c) && c.Posts()
    requires IsOpening(Apply(db, c).txs, c.Posting().tx)
    ensures NoneBefore(Apply(db, c).ledger, |db.ledger|)
  {
    TxsShape(db.txs, c);
    if c.Settled? {
      MoverIsExternal(db, c);
    }
  }

  lemma EarlierOpeningStaysFirst(db: Db, c: Commit, i: nat)
    requires EntriesHold(db.txs, db.ledger) && OpeningsFirst(db.txs, db.ledger) && Legal(db, c)
    requires i < |db.ledger| && IsOpening(Apply(db, c).txs, db.ledger[i].tx)
    ensures NoneBefore(db.ledger, i)
  {
    CommitAdvancesTxs(db, c);
    assert EntryHolds(db.txs, db.ledger[i]);
    assert Advanced(db.txs[db.ledger[i].tx], Apply(db, c).txs[db.ledger[i].tx]);
  }

  lemma CommitKeepsOpeningsFirst(db: Db, c: Commit)
    requires RowsHold(db) && EntriesHold(db.txs, db.ledger) && WalletsMatch(db)
    requires OpeningsFirst(db.txs, db.ledger) && Legal(db, c)
    ensures OpeningsFirst(Apply(db, c).txs, Apply(db, c).ledger)
  {
    var after := Apply(db, c);
    forall i | 0 <= i < |after.ledger| && IsOpening(after.txs, after.ledger[i].tx)
      ensures NoneBefore(after.ledger, i)
    {
      if i < |db.ledger| {
        EarlierOpeningStaysFirst(db, c, i);
      } else {
        PostingOpensOnce(db, c);
      }
    }
  }

  // ----- balances -------------------------------------------------------------------

  /** Counting entries does not depend on rows that may still change. */
  lemma BumpsPersist(a: map<Uuid, TxRow>, b: map<Uuid, TxRow>, ledger: seq<EntryRow>, w: Uuid)
    requires TxsAdvance(a, b) && EntriesHold(a, ledger)
    ensures Bumps(a, ledger, w) == Bumps(b, ledger, w)
  {
    if ledger != [] {
      var init := ledger[..|ledger| - 1];
      assert EntryHolds(a, ledger[|ledger| - 1]);
      assert EntriesHold(a, init) by {
        forall i | 0 <= i < |init| ensures EntryHolds(a, init[i]) { assert init[i] == ledger[i]; }
      }
      BumpsPersist(a, b, init, w);
    }
  }

  lemma CommitKeepsChained(db: Db, c: Commit)
    requires RowsHold(db) && WalletsMatch(db) && Chained(db.ledger) && Legal(db, c)
    ensures Chained(Apply(db, c).ledger)
  {
    if c.Posts() {
      Extend(db.ledger, c.Posting());
      if c.Opened? {
        UnknownWallet(db.ledger, c.wallet.id);
      } else {
        MoverIsExternal(db, c);
        assert c.seen == db.wallets[c.seen.id];
      }
    }
  }

  lemma UnknownWallet(ledger: seq<EntryRow>, w: Uuid)
    requires forall i :: 0 <= i < |ledger| ==> ledger[i].wallet != w
    ensures BalanceOf(ledger, w) == 0 && SumOf(ledger, w) == 0
    ensures forall txs :: Bumps(txs, ledger, w) == 0
  {
    if ledger != [] {
      UnknownWallet(ledger[..|ledger| - 1], w);
    }
  }

  lemma OpeningKeepsMatch(db: Db, c: Commit, w: Uuid)
    requires EntriesHold(db.txs, db.ledger) && WalletsMatch(db) && Legal(db, c) && c.Posts() && c.Opened?
    requires w in Apply(db, c).wallets
    ensures WalletMatches(Apply(db, c), w)
  {
    CommitAdvancesTxs(db, c);
    Extend(db.ledger, c.Posting());
    BumpsPersist(db.txs, Apply(db, c).txs, db.ledger, w);
    TxsShape(db.txs, c);
    UnknownWallet(db.ledger, c.wallet.id);
  }

  lemma MovementKeepsMatch(db: Db, c: Commit, w: Uuid)
    requires RowsHold(db) && EntriesHold(db.txs, db.ledger) && WalletsMatch(db) && Legal(db, c)
    requires c.Posts() && c.Settled? && w in Apply(db, c).wallets
    ensures WalletMatches(Apply(db, c), w)
  {
    CommitAdvancesTxs(db, c);
    Extend(db.ledger, c.Posting());
    BumpsPersist(db.txs, Apply(db, c).txs, db.ledger, w);
    TxsShape(db.txs, c);
    MoverIsExternal(db, c);
    assert c.seen == db.wallets[c.seen.id];
  }

  lemma PostingMatches(db: Db, c: Commit, w: Uuid)
    requires RowsHold(db) && EntriesHold(db.txs, db.ledger) && WalletsMatch(db) && Legal(db, c) && c.Posts()
    requires w in Apply(db, c).wallets
    ensures WalletMatches(Apply(db, c), w)
  {
    if c.Opened? {
      OpeningKeepsMatch(db, c, w);
    } else {
      MovementKeepsMatch(db, c, w);
    }
  }

  /** Without a posting the ledger stays, and wallets with it. */
  lemma QuietMatches(db: Db, c: Commit, w: Uuid)
    requires EntriesHold(db.txs, db.ledger) && WalletsMatch(db) && Legal(db, c) && !c.Posts()
    requires w in Apply(db, c).wallets
    ensures WalletMatches(Apply(db, c), w)
  {
    CommitAdvancesTxs(db, c);
    BumpsPersist(db.txs, Apply(db, c).txs, db.ledger, w);
    if w in db.wallets {
      assert WalletMatches(db, w);
    } else {
      UnknownWallet(db.ledger, w);
    }
  }

  lemma WalletsRemain(db: Db, c: Commit)
    requires Legal(db, c)
    ensures c.Posts() ==> c.Posting().wallet in Apply(db, c).wallets
    ensures forall w :: w in db.wallets ==> w in Apply(db, c).wallets
  {
  }

  lemma LedgerHasWallets(db: Db, c: Commit)
    requires WalletsMatch(db) && Legal(db, c)
    ensures forall i :: 0 <= i < |Apply(db, c).ledger| ==> Apply(db, c).ledger[i].wallet in Apply(db, c).wallets
  {
    var after := Apply(db, c);
    WalletsRemain(db, c);
    forall i | 0 <= i < |after.ledger|
      ensures after.ledger[i].wallet in after.wallets
    {
      if i < |db.ledger| {
        assert after.ledger[i] == db.ledger[i];
      } else {
        assert after.ledger[i] == c.Posting();
      }
    }
  }

  lemma CommitKeepsMatch(db: Db, c: Commit)
    requires RowsHold(db) && EntriesHold(db.txs, db.ledger) && WalletsMatch(db) && Legal(db, c)
    ensures WalletsMatch(Apply(db, c))
  {
    var after := Apply(db, c);
    LedgerHasWallets(db, c);
    forall w | w in after.wallets
      ensures WalletMatches(after, w)
    {
      if c.Posts() {
        PostingMatches(db, c, w);
      } else {
        QuietMatches(db, c, w);
      }
    }
  }

  // ----- rejections and the inbox ---------------------------------------------------

  lemma RowRejectionHolds(db: Db, c: Commit)
    requires Legal(db, c) && c.WritesTx()
    ensures RejectionHolds(db, c.Row())
  {
  }

  lemma RejectionPersists(a: Db, b: Db, r: TxRow)
    requires Later(a, b) && RejectionHolds(a, r)
    ensures RejectionHolds(b, r)
  {
    if r.failure.Some? && Justified(a, r.terms.payload, r.failure.value) {
      JustifiedPersists(a, b, r.terms.payload, r.failure.value);
    }
  }

  lemma CommitKeepsRejections(db: Db, c: Commit)
    requires WalletsHold(db) && RejectionsHold(db) && Legal(db, c)
    ensures RejectionsHold(Apply(db, c))
  {
    var after := Apply(db, c);
    CommitAdvances(db, c);
    if c.WritesTx() {
      TxsShape(db.txs, c);
      RowRejectionHolds(db, c);
    }
    forall id | id in after.txs
      ensures RejectionHolds(after, after.txs[id])
    {
      assert RejectionHolds(db, after.txs[id]);
      RejectionPersists(db, after, after.txs[id]);
    }
  }

  lemma MessagePersists(a: map<Uuid, TxRow>, b: map<Uuid, TxRow>, m: InboxRow)
    requires TxsAdvance(a, b) && MessageHolds(a, m)
    ensures MessageHolds(b, m)
  {
    var id :| id in a && Carries(m.body, a[id]);
    assert id in b && Carries(m.body, b[id]);
  }

  lemma CommitKeepsInbox(db: Db, c: Commit)
    requires InboxHolds(db) && Legal(db, c)
    ensures InboxHolds(Apply(db, c))
  {
    var after := Apply(db, c);
    CommitAdvancesTxs(db, c);
    forall m | m in after.inbox
      ensures MessageHolds(after.txs, after.inbox[m])
    {
      if m in db.inbox && after.inbox[m] == db.inbox[m] {
        MessagePersists(db.txs, after.txs, db.inbox[m]);
      } else if c.Replayed? {
        MessagePersists(db.txs, after.txs, after.inbox[m]);
      } else {
        TxsShape(db.txs, c);
        assert Carries(after.inbox[m].body, after.txs[c.op.id]);
      }
    }
  }
}
