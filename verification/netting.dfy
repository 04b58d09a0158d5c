/** Reversals: what they may undo, how often, and what is left of an operation's money. */
module Netting {
  import opened Domain
  import opened Invariants
  import opened Safety

  /** Row id is a carried-out REFUND or ROLLBACK of row r. */
  predicate Undoes(txs: map<Uuid, TxRow>, id: Uuid, r: Uuid) {
    id in txs && txs[id].status == Processed && txs[id].terms.payload.kind.IsReversal() && txs[id].reference == Some(r)
  }

  predicate Undone(txs: map<Uuid, TxRow>, r: Uuid) {
    exists id :: id in txs && Undoes(txs, id, r)
  }

  /** A reversal of r stands that has not itself been rolled back. */
  predicate Voided(txs: map<Uuid, TxRow>, r: Uuid) {
    exists id :: id in txs && Undoes(txs, id, r) && !Undone(txs, id)
  }

  predicate InFamily(txs: map<Uuid, TxRow>, id: Uuid, root: Uuid) {
    id == root || Undoes(txs, id, root) || exists m :: m in txs && Undoes(txs, m, root) && Undoes(txs, id, m)
  }

  /** An operation, its reversals and theirs. */
  function Family(txs: map<Uuid, TxRow>, root: Uuid): set<Uuid> {
    set id | id in txs && InFamily(txs, id, root)
  }

  /** The signed money the ledger has moved for the transactions in `ids`. */
  function Net(ledger: seq<EntryRow>, ids: set<Uuid>): int {
    if ledger == [] then 0
    else
      var e := ledger[|ledger| - 1];
      Net(ledger[..|ledger| - 1], ids) + (if e.tx in ids then Signed(e) else 0)
  }

  lemma {:induction false} NetOfUnion(ledger: seq<EntryRow>, a: set<Uuid>, b: set<Uuid>)
    requires a !! b
    ensures Net(ledger, a + b) == Net(ledger, a) + Net(ledger, b)
  {
    if ledger != [] {
      NetOfUnion(ledger[..|ledger| - 1], a, b);
    }
  }

  lemma {:induction false} NetOfAbsent(ledger: seq<EntryRow>, id: Uuid)
    requires forall i :: 0 <= i < |ledger| ==> ledger[i].tx != id
    ensures Net(ledger, {id}) == 0
  {
    if ledger != [] {
      NetOfAbsent(ledger[..|ledger| - 1], id);
    }
  }

  lemma {:induction false} NetOfOne(ledger: seq<EntryRow>, i: nat)
    requires i < |ledger| && Once(ledger)
    ensures Net(ledger, {ledger[i].tx}) == Signed(ledger[i])
  {
    var last := |ledger| - 1;
    var init := ledger[..last];
    if i == last {
      forall k | 0 <= k < |init| ensures init[k].tx != ledger[i].tx {
        assert init[k] == ledger[k];
      }
      NetOfAbsent(init, ledger[i].tx);
    } else {
      assert Once(init) by {
        forall j, k | 0 <= j < |init| && 0 <= k < |init| && (init[j].tx == init[k].tx || init[j].id == init[k].id)
          ensures j == k
        {
          assert init[j] == ledger[j] && init[k] == ledger[k];
        }
      }
      assert init[i] == ledger[i];
      NetOfOne(init, i);
      assert ledger[last].tx != ledger[i].tx;
    }
  }

  /** A carried-out movement is in the ledger with its own sign and amount. */
  lemma NetOfRow(db: Db, id: Uuid)
    requires LedgerInv(db) && id in db.txs && MovesMoney(db.txs[id])
    ensures Net(db.ledger, {id})
            == (if DirectionOf(db.txs, db.txs[id]) == Credit then db.txs[id].terms.payload.amount
                else -db.txs[id].terms.payload.amount)
  {
    assert PostedBy(db.ledger, id, |db.ledger|);
    var i :| 0 <= i < |db.ledger| && db.ledger[i].tx == id;
    assert EntryHolds(db.txs, db.ledger[i]);
    NetOfOne(db.ledger, i);
  }

  /** What a reversal may point at. */
  lemma UndoingTarget(txs: map<Uuid, TxRow>, id: Uuid, r: Uuid)
    requires LinksHold(txs) && Undoes(txs, id, r)
    ensures r in txs && MovesMoney(txs[r]) && id != r
    ensures txs[r].terms.payload.kind in {Bet, Win, Refund}
    ensures txs[id].terms.payload.kind == Refund ==> txs[r].terms.payload.kind == Bet
    ensures txs[r].terms.payload.wallet == txs[id].terms.payload.wallet
    ensures txs[r].terms.payload.amount == txs[id].terms.payload.amount
    ensures DirectionOf(txs, txs[id]) != DirectionOf(txs, txs[r])
  {
    assert Linked(txs, txs[id]);
  }

  /** A reversal moves exactly the opposite of what it points at. */
  lemma UndoingIsOpposite(db: Db, id: Uuid, r: Uuid)
    requires LinksHold(db.txs) && LedgerInv(db) && Undoes(db.txs, id, r)
    ensures Net(db.ledger, {id}) == -Net(db.ledger, {r})
  {
    UndoingTarget(db.txs, id, r);
    NetOfRow(db, id);
    NetOfRow(db, r);
  }

  /** At most one reversal of each operation, counting REFUND and ROLLBACK together. */
  lemma UndoneOnce(txs: map<Uuid, TxRow>, i: Uuid, j: Uuid, r: Uuid)
    requires Exclusive(txs) && Undoes(txs, i, r) && Undoes(txs, j, r)
    ensures i == j
  {
    assert Rivals(txs[i], txs[j]);
  }

  /** Chains of reversals end after the reversal of a reversal. */
  lemma ChainsAreShort(txs: map<Uuid, TxRow>, a: Uuid, b: Uuid, c: Uuid)
    requires LinksHold(txs) && Undoes(txs, a, b) && Undoes(txs, b, c)
    ensures txs[a].terms.payload.kind == Rollback && txs[b].terms.payload.kind == Refund
    ensures c in txs && txs[c].terms.payload.kind == Bet
    ensures !Undone(txs, a)
  {
    UndoingTarget(txs, a, b);
    UndoingTarget(txs, b, c);
    forall id | id in txs
      ensures !Undoes(txs, id, a)
    {
      assert Linked(txs, txs[id]);
    }
  }

  lemma FamilyOfUndone(txs: map<Uuid, TxRow>, root: Uuid, x: Uuid)
    requires Exclusive(txs) && root in txs && Undoes(txs, x, root)
    ensures !Undone(txs, x) ==> Family(txs, root) == {root, x}
    ensures forall y :: Undoes(txs, y, x) ==> Family(txs, root) == {root, x, y}
  {
    forall id | Undoes(txs, id, root) ensures id == x {
      UndoneOnce(txs, id, x, root);
    }
    forall y | Undoes(txs, y, x)
      ensures Family(txs, root) == {root, x, y}
    {
      forall id | Undoes(txs, id, x) ensures id == y {
        UndoneOnce(txs, id, y, x);
      }
    }
  }

  lemma NetOfFamily(db: Db, root: Uuid)
    requires LinksHold(db.txs) && Exclusive(db.txs) && LedgerInv(db)
    requires root in db.txs
    ensures Net(db.ledger, Family(db.txs, root)) == (if Voided(db.txs, root) then 0 else Net(db.ledger, {root}))
  {
    if Undone(db.txs, root) {
      var x :| x in db.txs && Undoes(db.txs, x, root);
      NetOfUndoneFamily(db, root, x);
    } else {
      assert Family(db.txs, root) == {root};
    }
  }

  lemma NetOfUndoneFamily(db: Db, root: Uuid, x: Uuid)
    requires LinksHold(db.txs) && Exclusive(db.txs) && LedgerInv(db)
    requires root in db.txs && x in db.txs && Undoes(db.txs, x, root)
    ensures Voided(db.txs, root) <==> !Undone(db.txs, x)
    ensures Net(db.ledger, Family(db.txs, root)) == (if Undone(db.txs, x) then Net(db.ledger, {root}) else 0)
  {
    VoidedByItsOnlyReversal(db.txs, root, x);
    UndoingTarget(db.txs, x, root);
    UndoingIsOpposite(db, x, root);
    NetOfUnion(db.ledger, {root}, {x});
    assert {root} + {x} == {root, x};
    if Undone(db.txs, x) {
      var y :| y in db.txs && Undoes(db.txs, y, x);
      NetOfRestoredFamily(db, root, x, y);
    } else {
      FamilyOfUndone(db.txs, root, x);
    }
  }

  lemma VoidedByItsOnlyReversal(txs: map<Uuid, TxRow>, root: Uuid, x: Uuid)
    requires Exclusive(txs) && Undoes(txs, x, root)
    ensures Voided(txs, root) <==> !Undone(txs, x)
  {
    forall id | id in txs && Undoes(txs, id, root) ensures id == x {
      UndoneOnce(txs, id, x, root);
    }
  }

  /** A reversal that was rolled back leaves the operation's own money. */
  lemma NetOfRestoredFamily(db: Db, root: Uuid, x: Uuid, y: Uuid)
    requires LinksHold(db.txs) && Exclusive(db.txs) && LedgerInv(db)
    requires root in db.txs && Undoes(db.txs, x, root) && Undoes(db.txs, y, x)
    requires Net(db.ledger, {root, x}) == 0 && Net(db.ledger, {x}) == -Net(db.ledger, {root})
    ensures Net(db.ledger, Family(db.txs, root)) == Net(db.ledger, {root})
  {
    FamilyOfUndone(db.txs, root, x);
    UndoingTarget(db.txs, y, x);
    UndoingIsOpposite(db, y, x);
    ChainsAreShort(db.txs, y, x, root);
    NetOfUnion(db.ledger, {root, x}, {y});
    assert {root, x} + {y} == {root, x, y};
  }

  /** Conservation: whatever reversals and reversals of reversals were carried out, the
      money of a processed BET or WIN nets to its own movement, or to nothing exactly
      when a reversal of it stands. */
  lemma NetEffect(db: Db, root: Uuid)
    requires RowsInv(db) && LedgerInv(db)
    requires root in db.txs && db.txs[root].status == Processed && db.txs[root].terms.payload.kind in {Bet, Win}
    ensures var amount := db.txs[root].terms.payload.amount;
            Net(db.ledger, Family(db.txs, root))
            == (if Voided(db.txs, root) then 0 else if db.txs[root].terms.payload.kind == Bet then -amount else amount)
  {
    NetOfRow(db, root);
    NetOfFamily(db, root);
  }
}
