/** How the tables of a later moment relate to those of an earlier one, whatever
    operations committed in between: the facts a running operation may rely on. */
module Progress {
  import opened Domain
  import opened Rules
  import opened Tables
  import opened Invariants

  predicate WalletsAdvance(a: map<Uuid, WalletRow>, b: map<Uuid, WalletRow>) {
    forall w :: w in a ==> w in b && Older(a[w], b[w])
  }

  predicate Advanced(r: TxRow, s: TxRow) {
    && r.terms == s.terms
    && r.attempts <= s.attempts
    && (r.status.IsTerminal() ==> r == s)
  }

  predicate TxsAdvance(a: map<Uuid, TxRow>, b: map<Uuid, TxRow>) {
    forall id :: id in a ==> id in b && Advanced(a[id], b[id])
  }

  predicate Settles(a: map<Uuid, TxRow>, b: map<Uuid, TxRow>, id: Uuid) {
    id in b && b[id].status == Processed && b[id].reference.Some? && !(id in a && a[id].status.IsTerminal())
  }

  /** The heart of the protocol: no operation on a reference was carried out in a wallet
      whose version did not move. */
  predicate VersionsWitness(a: Db, b: Db) {
    forall id :: id in b.txs && Settles(a.txs, b.txs, id) && b.txs[id].terms.payload.wallet in a.wallets
                 && b.txs[id].terms.payload.wallet in b.wallets
      ==> a.wallets[b.txs[id].terms.payload.wallet].version < b.wallets[b.txs[id].terms.payload.wallet].version
  }

  predicate InboxAdvances(a: map<Name, InboxRow>, b: map<Name, InboxRow>) {
    forall m :: m in a ==> m in b && a[m] == b[m]
  }

  predicate Later(a: Db, b: Db) {
    && WalletsAdvance(a.wallets, b.wallets)
    && TxsAdvance(a.txs, b.txs)
    && VersionsWitness(a, b)
    && a.ledger <= b.ledger
    && a.outbox <= b.outbox
    && InboxAdvances(a.inbox, b.inbox)
  }

  lemma LaterReflexive(a: Db)
    ensures Later(a, a)
  {
  }

  lemma WalletsTransitive(a: map<Uuid, WalletRow>, b: map<Uuid, WalletRow>, c: map<Uuid, WalletRow>)
    requires WalletsAdvance(a, b) && WalletsAdvance(b, c)
    ensures WalletsAdvance(a, c)
  {
    forall w | w in a ensures w in c && Older(a[w], c[w]) {
      assert w in b && Older(a[w], b[w]);
    }
  }

  lemma TxsTransitive(a: map<Uuid, TxRow>, b: map<Uuid, TxRow>, c: map<Uuid, TxRow>)
    requires TxsAdvance(a, b) && TxsAdvance(b, c)
    ensures TxsAdvance(a, c)
  {
    forall id | id in a ensures id in c && Advanced(a[id], c[id]) {
      assert id in b && Advanced(a[id], b[id]);
    }
  }

  lemma WitnessTransitive(a: Db, b: Db, c: Db)
    requires WalletsAdvance(a.wallets, b.wallets) && WalletsAdvance(b.wallets, c.wallets)
    requires TxsAdvance(b.txs, c.txs)
    requires VersionsWitness(a, b) && VersionsWitness(b, c)
    ensures VersionsWitness(a, c)
  {
    forall id | id in c.txs && Settles(a.txs, c.txs, id) && c.txs[id].terms.payload.wallet in a.wallets
                && c.txs[id].terms.payload.wallet in c.wallets
      ensures a.wallets[c.txs[id].terms.payload.wallet].version < c.wallets[c.txs[id].terms.payload.wallet].version
    {
      var w := c.txs[id].terms.payload.wallet;
      assert w in b.wallets && Older(a.wallets[w], b.wallets[w]) && Older(b.wallets[w], c.wallets[w]);
      assert Settles(b.txs, c.txs, id) || Settles(a.txs, b.txs, id);
    }
  }

  lemma InboxTransitive(a: map<Name, InboxRow>, b: map<Name, InboxRow>, c: map<Name, InboxRow>)
    requires InboxAdvances(a, b) && InboxAdvances(b, c)
    ensures InboxAdvances(a, c)
  {
    forall m | m in a ensures m in c && a[m] == c[m] {
      assert m in b;
    }
  }

  lemma LaterTransitive(a: Db, b: Db, c: Db)
    requires Later(a, b) && Later(b, c)
    ensures Later(a, c)
  {
    WalletsTransitive(a.wallets, b.wallets, c.wallets);
    TxsTransitive(a.txs, b.txs, c.txs);
    WitnessTransitive(a, b, c);
    InboxTransitive(a.inbox, b.inbox, c.inbox);
  }

  // ----- what stays true ------------------------------------------------------------

  lemma ReversalsPersist(a: map<Uuid, TxRow>, b: map<Uuid, TxRow>, ref: Uuid, kind: Kind)
    requires TxsAdvance(a, b) && HasReversal(a, ref, kind)
    ensures HasReversal(b, ref, kind)
  {
    var id :| id in a && Reverses(a[id], ref, kind);
    assert id in b && Reverses(b[id], ref, kind);
  }

  lemma RefersPersists(a: map<Uuid, TxRow>, b: map<Uuid, TxRow>, p: Payload, r: Uuid)
    requires TxsAdvance(a, b) && Refers(a, p, r)
    ensures Refers(b, p, r) && b[r] == a[r]
  {
  }

  lemma BlockedPersists(a: map<Uuid, TxRow>, b: map<Uuid, TxRow>, kind: Kind, r: Uuid)
    requires TxsAdvance(a, b) && Blocked(a, kind, r)
    ensures Blocked(b, kind, r)
  {
    if HasReversal(a, r, kind) {
      ReversalsPersist(a, b, r, kind);
    } else {
      ReversalsPersist(a, b, r, CrossKind(kind));
    }
  }

  /** A reversal that was not there can only have appeared by moving the wallet. */
  lemma NoReversalPersists(a: Db, b: Db, w: Uuid, ref: Uuid, kind: Kind)
    requires Later(a, b) && LinksHold(b.txs)
    requires w in a.wallets && w in b.wallets && a.wallets[w].version == b.wallets[w].version
    requires ref in b.txs && b.txs[ref].terms.payload.wallet == w
    requires !HasReversal(a.txs, ref, kind)
    ensures !HasReversal(b.txs, ref, kind)
  {
    forall id | id in b.txs
      ensures !Reverses(b.txs[id], ref, kind)
    {
      assert Linked(b.txs, b.txs[id]);
      assert id in a.txs ==> !Reverses(a.txs[id], ref, kind) && Advanced(a.txs[id], b.txs[id]);
      assert Settles(a.txs, b.txs, id) ==> b.txs[id].terms.payload.wallet != w;
    }
  }

  lemma RefusalPersists(a: map<Uuid, TxRow>, b: map<Uuid, TxRow>, p: Payload, code: Code)
    requires TxsAdvance(a, b) && exists r :: RefusedBy(a, p, r, code)
    ensures exists r :: RefusedBy(b, p, r, code)
  {
    var r :| RefusedBy(a, p, r, code);
    assert r in b && Advanced(a[r], b[r]);
    assert RefusedBy(b, p, r, code);
  }

  lemma JustifiedPersists(a: Db, b: Db, p: Payload, code: Code)
    requires Later(a, b) && Justified(a, p, code)
    ensures Justified(b, p, code)
  {
    match code
    case ReversalConflict =>
      var r :| Refers(a.txs, p, r) && Blocked(a.txs, p.kind, r);
      RefersPersists(a.txs, b.txs, p, r);
      BlockedPersists(a.txs, b.txs, p.kind, r);
    case WalletPlayerMismatch =>
    case CurrencyMismatch =>
    case InsufficientFunds =>
    case ReversalInsufficientFunds =>
    case ReferenceNotFound =>
    case ReferenceNotProcessed => RefusalPersists(a.txs, b.txs, p, code);
    case ReferenceMismatch => RefusalPersists(a.txs, b.txs, p, code);
    case ReferenceAmountMismatch => RefusalPersists(a.txs, b.txs, p, code);
  }

  lemma OpennessPersists(a: map<Uuid, TxRow>, b: map<Uuid, TxRow>, ended: set<Uuid>, p: Payload)
    requires TxsAdvance(a, b) && EndedHolds(a, ended)
    ensures EndedHolds(b, ended)
    ensures WasOpen(a, ended, p.provider, p.reference) ==> WasOpen(b, ended, p.provider, p.reference)
  {
    forall id | id in ended ensures id in b && b[id] == a[id] {
      assert id in a && Advanced(a[id], b[id]);
    }
  }

  /** Plans survive the commits of others: this is why an operation may read the wallet
      first and look for reversals afterwards. */
  lemma PlanPersists(a: Db, b: Db, op: Op, seen: WalletRow, plan: Plan)
    requires Later(a, b) && LinksHold(b.txs)
    requires PlanHolds(a, op, seen, plan)
    ensures PlanHolds(b, op, seen, plan)
  {
    var p := op.Payload();
    match plan
    case Park => OpennessPersists(a.txs, b.txs, op.ended, p);
    case Accept =>
    case Deny(code) => JustifiedPersists(a, b, p, code);
    case Move(direction, None) =>
    case Move(direction, Some(r)) =>
      RefersPersists(a.txs, b.txs, p, r);
      if seen.version == b.wallets[p.wallet].version {
        NoReversalPersists(a, b, p.wallet, r, p.kind);
        if b.txs[r].terms.payload.kind == Bet {
          NoReversalPersists(a, b, p.wallet, r, CrossKind(p.kind));
        }
      }
  }
}
