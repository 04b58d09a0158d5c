/** What the service promises, for every run: any number of operations, in any order,
    interleaved statement by statement, retried, resumed, or cut off anywhere. */
module Guarantees {
  import opened Domain
  import opened Tables
  import opened Invariants
  import opened Progress
  import opened Commits
  import opened Notices
  import opened Laws
  import opened Safety
  import opened Interleaving
  import opened Netting

  // ----- reversals ------------------------------------------------------------------

  /** REFUND and ROLLBACK of the same operation never both succeed, nor either twice. */
  lemma ReversedAtMostOnce(steps: seq<Step>, i: Uuid, j: Uuid, r: Uuid)
    requires Undoes(Run(steps).db.txs, i, r) && Undoes(Run(steps).db.txs, j, r)
    ensures i == j
  {
    RunKeepsInv(steps);
    InvRows(Run(steps).db);
    UndoneOnce(Run(steps).db.txs, i, j, r);
  }

  /** Nor are two WINs that name the same BET both carried out. */
  lemma LinkedWinIsUnique(steps: seq<Step>, i: Uuid, j: Uuid)
    requires var txs := Run(steps).db.txs;
             && i in txs && j in txs && txs[i].status == Processed && txs[j].status == Processed
             && txs[i].terms.payload.kind == Win && txs[j].terms.payload.kind == Win
             && txs[i].terms.payload.provider == txs[j].terms.payload.provider
             && txs[i].terms.payload.reference == txs[j].terms.payload.reference != NO_NAME
    ensures i == j
  {
    var db := Run(steps).db;
    RunKeepsInv(steps);
    SameReference(db, i, j);
    assert Holds(ExclusiveClaim, db);
    assert Rivals(db.txs[i], db.txs[j]);
  }

  /** Nor two reversals, of whatever kind, that name the same operation. */
  lemma ReversedOnceByName(steps: seq<Step>, i: Uuid, j: Uuid)
    requires var txs := Run(steps).db.txs;
             && i in txs && j in txs && txs[i].status == Processed && txs[j].status == Processed
             && txs[i].terms.payload.kind in {Refund, Rollback} && txs[j].terms.payload.kind in {Refund, Rollback}
             && txs[i].terms.payload.provider == txs[j].terms.payload.provider
             && txs[i].terms.payload.reference == txs[j].terms.payload.reference
    ensures i == j
  {
    var db := Run(steps).db;
    RunKeepsInv(steps);
    SameReference(db, i, j);
    assert Holds(ExclusiveClaim, db);
    assert Rivals(db.txs[i], db.txs[j]);
  }

  lemma SameReference(d: Db, i: Uuid, j: Uuid)
    requires DbInv(d) && i in d.txs && j in d.txs && d.txs[i].status == Processed && d.txs[j].status == Processed
    requires NamesReference(d.txs[i].terms.payload) && NamesReference(d.txs[j].terms.payload)
    requires d.txs[i].terms.payload.provider == d.txs[j].terms.payload.provider
    requires d.txs[i].terms.payload.reference == d.txs[j].terms.payload.reference
    ensures d.txs[i].reference.Some? && d.txs[i].reference == d.txs[j].reference
  {
    ReferenceIsAccepted(d, i);
    ReferenceIsAccepted(d, j);
    var p := d.txs[i].terms.payload;
    NamedOnce(d, d.txs[i].reference.value, d.txs[j].reference.value, p.provider, p.reference);
  }

  /** In every run, an operation that names a reference was carried out only on a processed
      one of its own player, wallet, currency and round, of the right kind and, for a
      reversal, of the same amount; no other has a reference resolved. */
  lemma ReferencesAreAccepted(steps: seq<Step>, id: Uuid)
    requires id in Run(steps).db.txs && Run(steps).db.txs[id].status == Processed
    ensures var txs := Run(steps).db.txs; var r := txs[id];
            if NamesReference(r.terms.payload)
            then r.reference.Some? && r.reference.value in txs && Acceptable(r.terms.payload, txs[r.reference.value])
            else r.reference == None
  {
    RunKeepsInv(steps);
    ReferenceIsAccepted(Run(steps).db, id);
  }

  /** Every commit of an operation, in every run, has its reason in the tables of its moment:
      carried out, it is allowed; refused, the code is true; parked, its reference had not
      ended when the attempt began. */
  lemma EveryCommitHasItsReason(steps: seq<Step>, step: Step)
    requires CommitAt(Run(steps), step).Some? && CommitAt(Run(steps), step).value.Settled?
    ensures var c := CommitAt(Run(steps), step).value; var next := Next(Run(steps), step).db;
            c.op.id in next.txs && HasReason(Run(steps).db, c, next.txs[c.op.id])
  {
    var s := Run(steps);
    var c := CommitAt(s, step).value;
    RunKeepsInv(steps);
    StepRefines(s, step);
    InvRows(s.db);
    CommitHasReason(s.db, c);
    TxsShape(s.db.txs, c);
  }

  /** Carrying out an operation makes due whatever is parked on its name. */
  lemma CarriedOutWakes(steps: seq<Step>, step: Step, id: Uuid)
    requires var s := Run(steps); var c := CommitAt(s, step);
             && c.Some? && c.value.Settled? && id in s.db.txs && id != c.value.op.id
             && s.db.txs[id].status == PendingReference
             && s.db.txs[id].terms.payload.provider == c.value.op.Payload().provider
             && s.db.txs[id].terms.payload.reference == c.value.op.Payload().external
    ensures var s := Run(steps); var c := CommitAt(s, step).value; var next := Next(s, step).db;
            && c.op.id in next.txs && id in next.txs
            && (if next.txs[c.op.id].status == Processed
                then next.txs[id] == s.db.txs[id].(due := Some(c.now), updatedAt := c.now)
                else next.txs[id] == s.db.txs[id])
  {
    var s := Run(steps);
    var c := CommitAt(s, step).value;
    RunKeepsInv(steps);
    StepRefines(s, step);
    TxsShape(s.db.txs, c);
    CommitWakes(s.db, c, id);
  }

  /** Every ledger entry is the movement of its operation. */
  lemma EntriesTellTheirOperations(steps: seq<Step>, i: nat)
    requires i < |Run(steps).db.ledger|
    ensures TellsOperation(Run(steps).db.txs, Run(steps).db.ledger[i])
  {
    RunKeepsInv(steps);
    EntryTellsItsOperation(Run(steps).db, i);
  }

  /** What was carried out was the wallet owner's, in the wallet's currency; openings too. */
  lemma {:induction false} OperationsAreTheOwners(steps: seq<Step>)
    ensures OwnersHold(Run(steps).db)
  {
    if steps != [] {
      var s := Run(steps[..|steps| - 1]);
      OperationsAreTheOwners(steps[..|steps| - 1]);
      RunKeepsInv(steps[..|steps| - 1]);
      StepRefines(s, steps[|steps| - 1]);
      InvRows(s.db);
      if CommitAt(s, steps[|steps| - 1]).Some? {
        CommitKeepsOwners(s.db, CommitAt(s, steps[|steps| - 1]).value);
      }
    }
  }

  /** Only well-formed operations are stored, and openings from inside only. */
  lemma StoredOperationsAreValid(steps: seq<Step>, id: Uuid)
    requires id in Run(steps).db.txs
    ensures var r := Run(steps).db.txs[id]; var p := r.terms.payload;
            && p.wallet in Run(steps).db.wallets && 0 <= p.amount <= MAX_INT64
            && if r.terms.origin == Internal then p.kind == Opening && r.status == Processed && 0 < p.amount
               else IsSubmittable(r.terms.key, p) && !RefersInVain(p)
  {
    RunKeepsInv(steps);
    assert Holds(RowsClaim, Run(steps).db);
    assert RowHolds(Run(steps).db.txs[id]);
  }

  // ----- waiting ----------------------------------------------------------------------

  /** An attempt that began later knows more of what has ended. */
  lemma {:induction false} BeganAfter(steps: seq<Step>, more: seq<Step>, pid: Pid)
    ensures pid !in Run(steps).procs && pid in Run(steps + more).procs ==>
              Ended(Run(steps).db.txs) <= Run(steps + more).procs[pid].op.ended
  {
    if more == [] {
      assert steps + more == steps;
    } else {
      var init := more[..|more| - 1];
      RunOfMore(steps, more);
      BeganAfter(steps, init, pid);
      RunAdvances(steps, init);
      EndedGrows(Run(steps).db, Run(steps + init).db);
      BeginsKnowing(Run(steps + init), more[|more| - 1], pid);
    }
  }

  lemma EndedGrows(a: Db, b: Db)
    requires TxsAdvance(a.txs, b.txs)
    ensures Ended(a.txs) <= Ended(b.txs)
  {
    forall id | id in Ended(a.txs) ensures id in Ended(b.txs) {
      assert id in b.txs && Advanced(a.txs[id], b.txs[id]);
    }
  }

  lemma BeginsKnowing(s: Sys, step: Step, pid: Pid)
    ensures pid in Next(s, step).procs ==>
              || Next(s, step).procs[pid].op.ended == Ended(s.db.txs)
              || (pid in s.procs && Next(s, step).procs[pid].op.ended == s.procs[pid].op.ended)
  {
  }

  /** Main result: once its reference has come to an end, whatever end, no attempt that begins
      afterwards parks an operation again or gives it up as REFERENCE_NOT_FOUND. */
  lemma EndedReferenceIsNotWaitedFor(steps: seq<Step>, more: seq<Step>, step: Step, id: Uuid)
    requires id in Run(steps).db.txs && Run(steps).db.txs[id].status in {Processed, Rejected, Failed}
    requires !step.OpenWallet? && step.pid !in Run(steps).procs
    requires CommitAt(Run(steps + more), step).Some? && CommitAt(Run(steps + more), step).value.Settled?
    requires var p := CommitAt(Run(steps + more), step).value.op.Payload();
             IsNamed(Run(steps).db.txs[id], p.provider, p.reference)
    ensures var c := CommitAt(Run(steps + more), step).value; var next := Next(Run(steps + more), step).db;
            && c.op.id in next.txs && next.txs[c.op.id].status in {Processed, Rejected}
            && next.txs[c.op.id].failure != Some(ReferenceNotFound)
  {
    var s := Run(steps + more);
    var c := CommitAt(s, step).value;
    EveryCommitHasItsReason(steps + more, step);
    EndIsKnown(steps, more, step, id);
    KnownEndIsNotWaitedFor(s.db, c, id, Next(s, step).db.txs[c.op.id]);
  }

  lemma EndIsKnown(steps: seq<Step>, more: seq<Step>, step: Step, id: Uuid)
    requires id in Run(steps).db.txs && Run(steps).db.txs[id].status.IsTerminal()
    requires !step.OpenWallet? && step.pid !in Run(steps).procs
    requires CommitAt(Run(steps + more), step).Some? && CommitAt(Run(steps + more), step).value.Settled?
    ensures id in CommitAt(Run(steps + more), step).value.op.ended
    ensures id in Run(steps + more).db.txs && Run(steps + more).db.txs[id] == Run(steps).db.txs[id]
  {
    BeganAfter(steps, more, step.pid);
    FinalIsForever(steps, more, id);
    assert id in Ended(Run(steps).db.txs);
  }

  lemma KnownEndIsNotWaitedFor(d: Db, c: Commit, id: Uuid, row: TxRow)
    requires c.Settled? && HasReason(d, c, row) && id in c.op.ended && id in d.txs
    requires IsNamed(d.txs[id], c.op.Payload().provider, c.op.Payload().reference)
    ensures row.status in {Processed, Rejected} && row.failure != Some(ReferenceNotFound)
  {
  }

  /** Reversals of reversals end there: a ROLLBACK of a REFUND of a BET is never reversed. */
  lemma ReversalChainsAreShort(steps: seq<Step>, a: Uuid, b: Uuid, c: Uuid)
    requires Undoes(Run(steps).db.txs, a, b) && Undoes(Run(steps).db.txs, b, c)
    ensures var txs := Run(steps).db.txs;
            && txs[a].terms.payload.kind == Rollback && txs[b].terms.payload.kind == Refund
            && c in txs && txs[c].terms.payload.kind == Bet
            && !Undone(txs, a)
  {
    RunKeepsInv(steps);
    InvRows(Run(steps).db);
    ChainsAreShort(Run(steps).db.txs, a, b, c);
  }

  /** A resolved reference was carried out earlier: its entry precedes that of the operation. */
  lemma ReferencesPointBack(steps: seq<Step>, i: nat)
    requires i < |Run(steps).db.ledger|
    ensures var db := Run(steps).db; var tx := db.ledger[i].tx;
            && tx in db.txs
            && (db.txs[tx].reference.Some? ==>
                  && db.txs[tx].reference.value in db.txs && db.txs[db.txs[tx].reference.value].status == Processed
                  && PostedBy(db.ledger, db.txs[tx].reference.value, i))
  {
    var db := Run(steps).db;
    RunKeepsInv(steps);
    InvRows(db);
    InvLedger(db);
    assert EntryHolds(db.txs, db.ledger[i]);
    assert Linked(db.txs, db.txs[db.ledger[i].tx]);
  }

  /** Whatever reversals were carried out, the money of a processed BET or WIN nets to its own
      movement, or to nothing exactly when a reversal of it stands. */
  lemma MoneyOfAnOperation(steps: seq<Step>, root: Uuid)
    requires root in Run(steps).db.txs && Run(steps).db.txs[root].status == Processed
    requires Run(steps).db.txs[root].terms.payload.kind in {Bet, Win}
    ensures var db := Run(steps).db; var amount := db.txs[root].terms.payload.amount;
            Net(db.ledger, Family(db.txs, root))
            == (if Voided(db.txs, root) then 0 else if db.txs[root].terms.payload.kind == Bet then -amount else amount)
  {
    RunKeepsInv(steps);
    InvRows(Run(steps).db);
    InvLedger(Run(steps).db);
    NetEffect(Run(steps).db, root);
  }

  // ----- balances -------------------------------------------------------------------

  lemma {:induction false} ChainedIsSum(ledger: seq<EntryRow>, w: Uuid)
    requires Chained(ledger)
    ensures BalanceOf(ledger, w) == SumOf(ledger, w) && 0 <= SumOf(ledger, w) <= MAX_INT64
  {
    if ledger != [] {
      ChainedIsSum(ledger[..|ledger| - 1], w);
    }
  }

  lemma {:induction false} ChainedAt(ledger: seq<EntryRow>, i: nat)
    requires Chained(ledger) && i < |ledger|
    ensures Chained(ledger[..i])
    ensures ledger[i].before == BalanceOf(ledger[..i], ledger[i].wallet)
    ensures ledger[i].after == ledger[i].before + Signed(ledger[i])
  {
    if i < |ledger| - 1 {
      var init := ledger[..|ledger| - 1];
      ChainedAt(init, i);
      assert init[..i] == ledger[..i] && init[i] == ledger[i];
    }
  }

  /** The stored balance is the sum of the ledger, never negative, and the version counts
      the movements since the opening. */
  lemma BalanceIsLedger(steps: seq<Step>, w: Uuid)
    requires w in Run(steps).db.wallets
    ensures var db := Run(steps).db;
            && db.wallets[w].balance == SumOf(db.ledger, w)
            && 0 <= db.wallets[w].balance <= MAX_INT64
            && db.wallets[w].version == 1 + Bumps(db.txs, db.ledger, w)
  {
    RunKeepsInv(steps);
    InvLedger(Run(steps).db);
    assert WalletMatches(Run(steps).db, w);
    ChainedIsSum(Run(steps).db.ledger, w);
  }

  /** Each entry starts where the entries before it left its wallet. */
  lemma LedgerIsUnbroken(steps: seq<Step>, i: nat)
    requires i < |Run(steps).db.ledger|
    ensures var ledger := Run(steps).db.ledger;
            && ledger[i].before == SumOf(ledger[..i], ledger[i].wallet)
            && ledger[i].after == ledger[i].before + Signed(ledger[i])
            && 0 <= ledger[i].before <= MAX_INT64
  {
    RunKeepsInv(steps);
    InvLedger(Run(steps).db);
    ChainedAt(Run(steps).db.ledger, i);
    ChainedIsSum(Run(steps).db.ledger[..i], Run(steps).db.ledger[i].wallet);
  }

  // ----- idempotency ----------------------------------------------------------------

  /** Once final, a row never changes again, whatever happens afterwards. */
  lemma FinalIsForever(steps: seq<Step>, more: seq<Step>, id: Uuid)
    requires id in Run(steps).db.txs && Run(steps).db.txs[id].status.IsTerminal()
    ensures id in Run(steps + more).db.txs && Run(steps + more).db.txs[id] == Run(steps).db.txs[id]
  {
    RunAdvances(steps, more);
  }

  /** The ledger and the outbox are append-only, and rows keep their terms. */
  lemma HistoryIsKept(steps: seq<Step>, more: seq<Step>)
    ensures Run(steps).db.ledger <= Run(steps + more).db.ledger
    ensures Run(steps).db.outbox <= Run(steps + more).db.outbox
    ensures forall id :: id in Run(steps).db.txs ==>
              id in Run(steps + more).db.txs && Run(steps + more).db.txs[id].terms == Run(steps).db.txs[id].terms
  {
    RunAdvances(steps, more);
  }

  /** One row per (provider, external id) and per (provider, key), and one ledger entry
      per transaction. */
  lemma OneRowOneEntry(steps: seq<Step>, i: Uuid, j: Uuid)
    requires i in Run(steps).db.txs && j in Run(steps).db.txs
    ensures SameName(Run(steps).db.txs[i], Run(steps).db.txs[j]) ==> i == j
    ensures SameKey(Run(steps).db.txs[i], Run(steps).db.txs[j]) ==> i == j
    ensures Once(Run(steps).db.ledger)
  {
    RunKeepsInv(steps);
    InvRows(Run(steps).db);
    InvLedger(Run(steps).db);
  }

  /** Once an operation has a row, no attempt to submit it again, under whatever key and
      with whatever payload, changes wallets, rows, ledger or outbox: its step is at most
      the acknowledgement of the message that carried it. */
  lemma ResubmissionChangesNothing(steps: seq<Step>, more: seq<Step>, id: Uuid, step: Step)
    requires id in Run(steps).db.txs && Run(steps).db.txs[id].terms.origin == External
    requires step.Finish? && step.pid in Run(steps + more).procs
    requires var proc := Run(steps + more).procs[step.pid];
             && proc.op.isNew
             && proc.op.Payload().provider == Run(steps).db.txs[id].terms.payload.provider
             && proc.op.Payload().external == Run(steps).db.txs[id].terms.payload.external
    ensures var a := Run(steps + more).db; var b := Next(Run(steps + more), step).db;
            a.wallets == b.wallets && a.txs == b.txs && a.ledger == b.ledger && a.outbox == b.outbox
  {
    RunAdvances(steps, more);
    var s := Run(steps + more);
    StepIsCommit(s, step);
    assert Names(s.db.txs[id], s.procs[step.pid].op.Payload().provider, s.procs[step.pid].op.Payload().external);
    if CommitAt(s, step).Some? && CommitAt(s, step).value.Replayed? {
      assert s.db.outbox + [] == s.db.outbox;
    }
  }

  /** The first look finds that very row: a different payload is a conflict, an equal one is
      answered from the row, after recording the message if one carried it. */
  lemma ResubmissionFindsTheRow(steps: seq<Step>, id: Uuid, proc: Proc, found: Option<Uuid>)
    requires id in Run(steps).db.txs && proc.phase.CheckingName?
    requires Names(Run(steps).db.txs[id], proc.op.Payload().provider, proc.op.Payload().external)
    requires Found(Run(steps).db.txs, proc.op.Payload().provider, proc.op.Payload().external, found)
    ensures found == Some(id)
    ensures forall pid :: TurnOf(Run(steps).db, proc, CheckName(pid, found)) == Replay(Run(steps).db, proc, id)
    ensures Replay(Run(steps).db, proc, id)
            == if proc.op.Payload() != Run(steps).db.txs[id].terms.payload then Conflicted
               else if proc.delivery.Some? then Enter(Replaying(id))
               else Answered(id)
  {
    RunKeepsInv(steps);
    assert Holds(UniqueClaim, Run(steps).db);
    assert SameName(Run(steps).db.txs[found.value], Run(steps).db.txs[id]);
  }

  /** An operation on a wallet that does not exist leaves no trace, not even a rejection: in
      every run all rows name existing wallets, and its insertion and its commit fail. */
  lemma UnknownWalletIsNeverStored(steps: seq<Step>, w: Uuid, step: Step)
    requires w !in Run(steps).db.wallets
    ensures forall id :: id in Run(steps).db.txs ==> Run(steps).db.txs[id].terms.payload.wallet != w
    ensures (step.Insert? || step.Finish?) && step.pid in Run(steps).procs
            && Run(steps).procs[step.pid].op.isNew && Run(steps).procs[step.pid].op.Payload().wallet == w
            ==> Next(Run(steps), step) == Run(steps)
                || (CommitAt(Run(steps), step).Some? && CommitAt(Run(steps), step).value.Replayed?)
  {
    var s := Run(steps);
    RunKeepsInv(steps);
    assert Holds(RowsClaim, s.db);
  }

  // ----- announcements --------------------------------------------------------------

  /** Versions of the balance events about w, in the order they were stored. */
  function Versions(events: seq<Event>, w: Uuid): seq<int> {
    if events == [] then []
    else
      var e := events[|events| - 1];
      Versions(events[..|events| - 1], w) + (if e.BalanceChanged? && e.wallet == w then [e.version] else [])
  }

  predicate HasOpening(txs: map<Uuid, TxRow>, ledger: seq<EntryRow>, w: Uuid) {
    exists i :: 0 <= i < |ledger| && ledger[i].wallet == w && IsOpening(txs, ledger[i].tx)
  }

  function FirstVersion(txs: map<Uuid, TxRow>, ledger: seq<EntryRow>, w: Uuid): int {
    if HasOpening(txs, ledger, w) then 1 else 2
  }

  predicate Contiguous(versions: seq<int>, first: int, last: int) {
    && |versions| == last - first + 1
    && forall i :: 0 <= i < |versions| ==> versions[i] == first + i
  }

  lemma VersionsAppend(events: seq<Event>, e: Event, w: Uuid)
    ensures Versions(events + [e], w)
            == Versions(events, w) + (if e.BalanceChanged? && e.wallet == w then [e.version] else [])
  {
    assert (events + [e])[..|events|] == events;
  }

  /** The last entry adds its version to those of its wallet. */
  lemma VersionsOfLast(txs: map<Uuid, TxRow>, ledger: seq<EntryRow>, w: Uuid)
    requires ledger != []
    ensures Versions(Announced(txs, ledger), w)
            == Versions(Announced(txs, ledger[..|ledger| - 1]), w)
               + (if ledger[|ledger| - 1].wallet == w then [1 + Bumps(txs, ledger, w)] else [])
  {
    var e, init := ledger[|ledger| - 1], ledger[..|ledger| - 1];
    var event := BalanceChanged(e.wallet, e.tx, e.direction, e.amount, e.before, e.after,
                                1 + Bumps(txs, ledger, e.wallet));
    assert Announced(txs, ledger) == Announced(txs, init) + [event];
    VersionsAppend(Announced(txs, init), event, w);
  }

  /** The opening entry of a wallet is its first. */
  lemma OpeningHasNoEarlier(txs: map<Uuid, TxRow>, ledger: seq<EntryRow>, w: Uuid)
    requires ledger != [] && OpeningsFirst(txs, ledger)
    requires ledger[|ledger| - 1].wallet == w && IsOpening(txs, ledger[|ledger| - 1].tx)
    ensures Bumps(txs, ledger[..|ledger| - 1], w) == 0 && !HasOpening(txs, ledger[..|ledger| - 1], w)
    ensures Versions(Announced(txs, ledger[..|ledger| - 1]), w) == []
  {
    assert NoneBefore(ledger, |ledger| - 1);
    NoEntriesNoVersions(txs, ledger[..|ledger| - 1], w);
  }

  lemma {:induction false} NoEntriesNoVersions(txs: map<Uuid, TxRow>, ledger: seq<EntryRow>, w: Uuid)
    requires forall i :: 0 <= i < |ledger| ==> ledger[i].wallet != w
    ensures Versions(Announced(txs, ledger), w) == [] && Bumps(txs, ledger, w) == 0
  {
    if ledger != [] {
      NoEntriesNoVersions(txs, ledger[..|ledger| - 1], w);
      VersionsOfLast(txs, ledger, w);
    }
  }

  lemma {:induction false} AnnouncedIsContiguous(txs: map<Uuid, TxRow>, ledger: seq<EntryRow>, w: Uuid)
    requires OpeningsFirst(txs, ledger)
    ensures Contiguous(Versions(Announced(txs, ledger), w), FirstVersion(txs, ledger, w), 1 + Bumps(txs, ledger, w))
  {
    if ledger != [] {
      OpeningsFirstInit(txs, ledger);
      AnnouncedIsContiguous(txs, ledger[..|ledger| - 1], w);
      VersionsOfLast(txs, ledger, w);
      HasOpeningInit(txs, ledger, w);
      if ledger[|ledger| - 1].wallet == w && IsOpening(txs, ledger[|ledger| - 1].tx) {
        OpeningHasNoEarlier(txs, ledger, w);
      }
    }
  }

  lemma OpeningsFirstInit(txs: map<Uuid, TxRow>, ledger: seq<EntryRow>)
    requires ledger != [] && OpeningsFirst(txs, ledger)
    ensures OpeningsFirst(txs, ledger[..|ledger| - 1])
  {
    var init := ledger[..|ledger| - 1];
    forall i | 0 <= i < |init| && IsOpening(txs, init[i].tx)
      ensures NoneBefore(init, i)
    {
      assert NoneBefore(ledger, i);
    }
  }

  lemma HasOpeningInit(txs: map<Uuid, TxRow>, ledger: seq<EntryRow>, w: Uuid)
    requires ledger != []
    ensures HasOpening(txs, ledger, w)
            <==> HasOpening(txs, ledger[..|ledger| - 1], w)
                 || (ledger[|ledger| - 1].wallet == w && IsOpening(txs, ledger[|ledger| - 1].tx))
  {
    var init := ledger[..|ledger| - 1];
    if HasOpening(txs, init, w) {
      var i :| 0 <= i < |init| && init[i].wallet == w && IsOpening(txs, init[i].tx);
      assert ledger[i] == init[i];
    }
    if HasOpening(txs, ledger, w) {
      var i :| 0 <= i < |ledger| && ledger[i].wallet == w && IsOpening(txs, ledger[i].tx);
      assert i < |init| ==> init[i] == ledger[i];
    }
  }

  /** The outbox announces each ledger entry with its own figures, in ledger order; the
      versions it gives for a wallet are consecutive and end at the stored version. */
  lemma BalancesAreAnnounced(steps: seq<Step>, w: Uuid)
    requires w in Run(steps).db.wallets
    ensures var db := Run(steps).db;
            && BalanceEvents(db.outbox) == Announced(db.txs, db.ledger)
            && Contiguous(Versions(BalanceEvents(db.outbox), w), FirstVersion(db.txs, db.ledger, w),
                          db.wallets[w].version)
  {
    RunKeepsInv(steps);
    InvLedger(Run(steps).db);
    assert WalletMatches(Run(steps).db, w);
    InvNotices(Run(steps).db);
    AnnouncedIsContiguous(Run(steps).db.txs, Run(steps).db.ledger, w);
  }

  /** Each transaction is announced once per parking and once when it is final. */
  lemma TransactionsAreAnnounced(steps: seq<Step>, id: Uuid)
    ensures var db := Run(steps).db;
            if id in db.txs then TrailHolds(Trail(db.outbox, id), db.txs[id], id) else Trail(db.outbox, id) == []
  {
    RunKeepsInv(steps);
    InvNotices(Run(steps).db);
  }

  // ----- rejections -----------------------------------------------------------------

  /** A stored rejection has its reason: a fact about the wallet or the reference that
      still holds, or the balance stored with it, or exhausted attempts. */
  lemma RejectionsAreJustified(steps: seq<Step>, id: Uuid)
    requires id in Run(steps).db.txs && Run(steps).db.txs[id].status == Rejected
    ensures var db := Run(steps).db; var r := db.txs[id]; var p := r.terms.payload;
            && r.failure.Some?
            && match r.failure.value
               case InsufficientFunds => p.kind == Bet && r.result.Some? && r.result.value < p.amount
               case ReversalInsufficientFunds => p.kind == Rollback && r.result.Some? && r.result.value < p.amount
               case ReferenceNotFound => NamesReference(p) && r.attempts + 1 == MAX_ATTEMPTS
               case code => Reason(db, p, code)
  {
    var db := Run(steps).db;
    RunKeepsInv(steps);
    InvRows(db);
    InvNotices(db);
    assert RowHolds(db.txs[id]);
    assert RejectionHolds(db, db.txs[id]);
    if db.txs[id].failure.value !in {InsufficientFunds, ReversalInsufficientFunds, ReferenceNotFound} {
      JustifiedHasReason(db, db.txs[id].terms.payload, db.txs[id].failure.value);
    }
  }

  /** A REVERSAL_CONFLICT is always about a BET, WIN or REFUND that some other operation has
      already used up: rolling back a ROLLBACK is refused as a mismatch instead. */
  lemma ConflictsHaveARival(steps: seq<Step>, id: Uuid) returns (r: Uuid, k: Uuid)
    requires id in Run(steps).db.txs && Run(steps).db.txs[id].status == Rejected
    requires Run(steps).db.txs[id].failure == Some(ReversalConflict)
    ensures var txs := Run(steps).db.txs; var p := txs[id].terms.payload;
            && r in txs && IsNamed(txs[r], p.provider, p.reference) && txs[r].terms.payload.kind in {Bet, Win, Refund}
            && k in txs && k != id && UsesUp(txs[k], r, txs[r], p)
  {
    RejectionsAreJustified(steps, id);
    var txs, p := Run(steps).db.txs, Run(steps).db.txs[id].terms.payload;
    r :| Named(txs, p, r) && Acceptable(p, txs[r]) && IsUsedUp(txs, p, r);
    k :| k in txs && UsesUp(txs[k], r, txs[r], p);
  }

  lemma OverflowingCreditIsStopped(db: Db, c: Commit)
    requires RowsHold(db) && c.Settled? && OpHolds(db, c.op) && PlanHolds(db, c.op, c.seen, c.plan)
    requires c.plan.Move? && c.plan.direction == Credit
    requires MAX_INT64 < db.wallets[c.op.Payload().wallet].balance + c.op.Payload().amount
    ensures !Passes(db, c)
  {
    OpIsValid(db, c.op);
    assert c.Posts();
    assert c.seen.version == db.wallets[c.seen.id].version ==> c.seen == db.wallets[c.seen.id];
  }

  /** A credit that would take the present balance beyond int64 is never stored, whatever its
      operation remembers of the wallet: whoever tries has to give up, and a parked row that
      runs into it stays as it is. */
  lemma OverflowIsNeverStored(steps: seq<Step>, pid: Pid, ids: Ids, next: Time)
    requires var s := Run(steps);
             && pid in s.procs && s.procs[pid].phase.Ready? && s.procs[pid].phase.plan.Move?
             && s.procs[pid].phase.plan.direction == Credit && s.procs[pid].op.Payload().wallet in s.db.wallets
             && MAX_INT64 < s.db.wallets[s.procs[pid].op.Payload().wallet].balance + s.procs[pid].op.Payload().amount
    ensures Next(Run(steps), Finish(pid, ids, next)) == Run(steps)
  {
    var s := Run(steps);
    RunKeepsInv(steps);
    assert Holds(RowsClaim, s.db) && ProcHolds(s.db, s.procs[pid]);
    OverflowingCreditIsStopped(s.db, CommitOf(s.procs[pid], ids, next));
  }
}
