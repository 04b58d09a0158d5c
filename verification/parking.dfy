/** Parked transactions end: each resumption spends one of a bounded number of attempts,
    and references that lead back to themselves are never resolved. */
module Parking {
  import opened Domain
  import opened Rules
  import opened Tables
  import opened Invariants
  import opened Commits
  import opened Safety
  import opened Interleaving

  /** Attempts a row still has; none once it is terminal. */
  function Left(r: TxRow): nat {
    if r.status == PendingReference && r.attempts < MAX_ATTEMPTS then MAX_ATTEMPTS - r.attempts else 0
  }

  ghost function Remaining(txs: map<Uuid, TxRow>): nat
    decreases |txs|
  {
    if txs == map[] then 0
    else
      var id :| id in txs;
      Left(txs[id]) + Remaining(txs - {id})
  }

  lemma {:induction false} RemainingSplit(txs: map<Uuid, TxRow>, id: Uuid)
    requires id in txs
    ensures Remaining(txs) == Left(txs[id]) + Remaining(txs - {id})
    decreases |txs|
  {
    var k :| k in txs && Remaining(txs) == Left(txs[k]) + Remaining(txs - {k});
    if k != id {
      RemainingSplit(txs - {k}, id);
      RemainingSplit(txs - {id}, k);
      assert txs - {k} - {id} == txs - {id} - {k};
    }
  }

  lemma {:induction false} RemainingSame(a: map<Uuid, TxRow>, b: map<Uuid, TxRow>)
    requires a.Keys == b.Keys
    requires forall id :: id in a ==> Left(a[id]) == Left(b[id])
    ensures Remaining(a) == Remaining(b)
    decreases |a|
  {
    if a != map[] {
      var id :| id in a;
      RemainingSplit(a, id);
      RemainingSplit(b, id);
      RemainingSame(a - {id}, b - {id});
    } else {
      assert b == map[];
    }
  }

  /** A commit changes the count by what it does to its own row. */
  lemma RemainingAfter(db: Db, c: Commit)
    requires Legal(db, c) && c.WritesTx()
    ensures Remaining(Apply(db, c).txs)
            == Remaining(db.txs) - (if c.TxId() in db.txs then Left(db.txs[c.TxId()]) else 0) + Left(c.Row())
  {
    TxsShape(db.txs, c);
    var after := Apply(db, c).txs;
    var id := c.TxId();
    RemainingSplit(after, id);
    if id in db.txs {
      RemainingSplit(db.txs, id);
    }
    RemainingSame(after - {id}, db.txs - {id});
    assert id !in db.txs ==> db.txs - {id} == db.txs;
  }

  predicate IsResumption(c: Option<Commit>) {
    c.Some? && c.value.Settled? && !c.value.op.isNew
  }

  predicate IsArrival(c: Option<Commit>) {
    c.Some? && c.value.Settled? && c.value.op.isNew
  }

  /** A committed resumption leaves strictly fewer attempts in the tables. */
  lemma ResumptionSpends(db: Db, c: Commit)
    requires RowsHold(db) && Legal(db, c) && IsResumption(Some(c))
    ensures Remaining(Apply(db, c).txs) < Remaining(db.txs)
  {
    RemainingAfter(db, c);
    RowIsSound(db, c);
    assert RowHolds(db.txs[c.op.id]);
  }

  lemma OthersSpendNothing(db: Db, c: Commit)
    requires RowsHold(db) && Legal(db, c) && !IsResumption(Some(c))
    ensures Remaining(Apply(db, c).txs) <= Remaining(db.txs) + (if IsArrival(Some(c)) then MAX_ATTEMPTS - 1 else 0)
  {
    if c.WritesTx() {
      RemainingAfter(db, c);
      RowIsSound(db, c);
    }
  }

  function Count(steps: seq<Step>, wanted: Option<Commit> -> bool): nat {
    if steps == [] then 0
    else
      var c := CommitAt(Run(steps[..|steps| - 1]), steps[|steps| - 1]);
      Count(steps[..|steps| - 1], wanted) + (if wanted(c) then 1 else 0)
  }

  lemma StepSpends(s: Sys, step: Step)
    requires SysInv(s)
    ensures Remaining(Next(s, step).db.txs) + (if IsResumption(CommitAt(s, step)) then 1 else 0)
            <= Remaining(s.db.txs) + (if IsArrival(CommitAt(s, step)) then MAX_ATTEMPTS - 1 else 0)
  {
    StepRefines(s, step);
    assert Holds(RowsClaim, s.db);
    var c := CommitAt(s, step);
    if IsResumption(c) {
      ResumptionSpends(s.db, c.value);
    } else if c.Some? {
      OthersSpendNothing(s.db, c.value);
    }
  }

  lemma LastStepSpends(steps: seq<Step>)
    requires steps != []
    ensures var s := Run(steps[..|steps| - 1]); var c := CommitAt(s, steps[|steps| - 1]);
            Remaining(Run(steps).db.txs) + (if IsResumption(c) then 1 else 0)
            <= Remaining(s.db.txs) + (if IsArrival(c) then MAX_ATTEMPTS - 1 else 0)
  {
    RunKeepsInv(steps[..|steps| - 1]);
    StepSpends(Run(steps[..|steps| - 1]), steps[|steps| - 1]);
  }

  lemma OneMore(m: nat, n: nat)
    ensures m * (n + 1) == m * n + m
  {
  }

  /** Attempts the arrivals of a run have paid for. */
  function Paid(steps: seq<Step>): nat {
    (MAX_ATTEMPTS - 1) * Count(steps, IsArrival)
  }

  lemma PaidByLast(steps: seq<Step>)
    requires steps != []
    ensures var c := CommitAt(Run(steps[..|steps| - 1]), steps[|steps| - 1]);
            Paid(steps) == Paid(steps[..|steps| - 1]) + (if IsArrival(c) then MAX_ATTEMPTS - 1 else 0)
  {
    OneMore(MAX_ATTEMPTS - 1, Count(steps[..|steps| - 1], IsArrival));
  }

  /** Over any run, resumptions are paid for by arrivals; each arrival pays for fewer than
      MAX_ATTEMPTS of them. */
  lemma {:induction false} ResumptionsAreBounded(steps: seq<Step>)
    ensures Count(steps, IsResumption) + Remaining(Run(steps).db.txs) <= Paid(steps)
  {
    if steps == [] {
      assert Remaining(map[]) == 0;
    } else {
      ResumptionsAreBounded(steps[..|steps| - 1]);
      LastStepSpends(steps);
      PaidByLast(steps);
    }
  }

  // ----- one transaction ------------------------------------------------------------

  predicate IsResumptionOf(c: Option<Commit>, id: Uuid) {
    IsResumption(c) && c.value.op.id == id
  }

  /** Committed resumptions of one transaction. */
  function CountOf(steps: seq<Step>, id: Uuid): nat {
    if steps == [] then 0
    else
      var c := CommitAt(Run(steps[..|steps| - 1]), steps[|steps| - 1]);
      CountOf(steps[..|steps| - 1], id) + (if IsResumptionOf(c, id) then 1 else 0)
  }

  /** Resumptions a row has been through, as its attempts tell. */
  function Spent(txs: map<Uuid, TxRow>, id: Uuid): int {
    if id !in txs then 0 else txs[id].attempts - (if txs[id].status.IsTerminal() then 0 else 1)
  }

  lemma WrittenRowSpends(db: Db, c: Commit)
    requires RowsHold(db) && Legal(db, c) && c.WritesTx()
    ensures Spent(Apply(db, c).txs, c.TxId()) == Spent(db.txs, c.TxId()) + (if IsResumption(Some(c)) then 1 else 0)
  {
    TxsShape(db.txs, c);
    RowIsSound(db, c);
    if c.Settled? && !c.op.isNew {
      assert RowHolds(db.txs[c.op.id]);
    }
  }

  lemma CommitSpends(db: Db, c: Commit, id: Uuid)
    requires RowsHold(db) && Legal(db, c)
    ensures Spent(Apply(db, c).txs, id) == Spent(db.txs, id) + (if IsResumptionOf(Some(c), id) then 1 else 0)
  {
    if c.WritesTx() && c.TxId() == id {
      WrittenRowSpends(db, c);
    } else {
      OtherRowSpendsNothing(db, c, id);
    }
  }

  lemma OtherRowSpendsNothing(db: Db, c: Commit, id: Uuid)
    requires c.WritesTx() ==> c.TxId() != id
    ensures Spent(Apply(db, c).txs, id) == Spent(db.txs, id)
  {
    if c.WritesTx() {
      TxsShape(db.txs, c);
      assert id in Apply(db, c).txs ==> Kept(db.txs[id], Apply(db, c).txs[id]);
    }
  }

  /** The attempts of a row count its committed resumptions: all of them once it is final,
      all but the first parking before. */
  lemma {:induction false} AttemptsCountResumptions(steps: seq<Step>, id: Uuid)
    ensures CountOf(steps, id) == Spent(Run(steps).db.txs, id)
  {
    if steps != [] {
      var init := steps[..|steps| - 1];
      AttemptsCountResumptions(init, id);
      RunKeepsInv(init);
      StepRefines(Run(init), steps[|steps| - 1]);
      assert Holds(RowsClaim, Run(init).db);
      if CommitAt(Run(init), steps[|steps| - 1]).Some? {
        CommitSpends(Run(init).db, CommitAt(Run(init), steps[|steps| - 1]).value, id);
      }
    }
  }

  /** Main result: no transaction is resumed MAX_ATTEMPTS times, in whatever company, and by
      its last resumption it is final. */
  lemma EveryParkedRowEnds(steps: seq<Step>, id: Uuid)
    ensures CountOf(steps, id) < MAX_ATTEMPTS
    ensures id in Run(steps).db.txs && MAX_ATTEMPTS <= CountOf(steps, id) + 1 ==>
              Run(steps).db.txs[id].status.IsTerminal()
  {
    AttemptsCountResumptions(steps, id);
    RunKeepsInv(steps);
    assert Holds(RowsClaim, Run(steps).db);
    if id in Run(steps).db.txs {
      assert RowHolds(Run(steps).db.txs[id]);
    }
  }

  /** In every state of every run the rows that are not final are parked, scheduled, and
      short of the limit; when due and unclaimed, a worker can claim them. */
  lemma ParkedRowsAreScheduled(steps: seq<Step>, id: Uuid, pid: Pid, now: Time)
    requires id in Run(steps).db.txs && !Run(steps).db.txs[id].status.IsTerminal()
    ensures var r := Run(steps).db.txs[id];
            r.status == PendingReference && 1 <= r.attempts < MAX_ATTEMPTS && r.due.Some?
    ensures var s := Run(steps);
            pid !in s.procs && !Locked(s.procs, id) && s.db.txs[id].due.value <= now
            ==> pid in Next(s, ClaimDue(pid, id, now)).procs && Next(s, ClaimDue(pid, id, now)).procs[pid].op.id == id
  {
    RunKeepsInv(steps);
    assert Holds(RowsClaim, Run(steps).db);
    assert RowHolds(Run(steps).db.txs[id]);
  }

  // ----- references in a circle -----------------------------------------------------

  function Successor(ring: seq<Uuid>, i: nat): nat
    requires i < |ring|
  {
    if i + 1 == |ring| then 0 else i + 1
  }

  /** Row a asks for row b. */
  predicate AsksFor(txs: map<Uuid, TxRow>, a: Uuid, b: Uuid) {
    && a in txs && b in txs && NeedsReference(txs[a].terms.payload)
    && Names(txs[b], txs[a].terms.payload.provider, txs[a].terms.payload.reference)
  }

  /** Each row of the ring asks for the next one, and the last for the first. */
  predicate Ring(txs: map<Uuid, TxRow>, ring: seq<Uuid>) {
    forall i :: 0 <= i < |ring| ==> AsksFor(txs, ring[i], ring[Successor(ring, i)])
  }

  predicate PostedAt(db: Db, id: Uuid, j: int) {
    0 <= j < |db.ledger| && db.ledger[j].tx == id
  }

  /** If a row was carried out, so was the one it asks for, at an earlier place. */
  lemma NextIsEarlier(db: Db, a: Uuid, b: Uuid, j: nat) returns (k: nat)
    requires RowsInv(db) && LedgerInv(db) && AsksFor(db.txs, a, b)
    requires PostedAt(db, a, j)
    ensures k < j && PostedAt(db, b, k)
  {
    var r := db.txs[a];
    assert EntryHolds(db.txs, db.ledger[j]);
    assert RowHolds(r) && Linked(db.txs, r);
    assert SameName(db.txs[r.reference.value], db.txs[b]);
    assert PostedBy(db.ledger, r.reference.value, j);
    k :| 0 <= k < j && db.ledger[k].tx == r.reference.value;
  }

  lemma {:induction false} PositionsRunOut(db: Db, ring: seq<Uuid>, i: nat, j: nat)
    requires RowsInv(db) && LedgerInv(db) && Ring(db.txs, ring) && i < |ring|
    ensures !PostedAt(db, ring[i], j)
    decreases j
  {
    if PostedAt(db, ring[i], j) {
      var k := NextIsEarlier(db, ring[i], ring[Successor(ring, i)], j);
      PositionsRunOut(db, ring, Successor(ring, i), k);
    }
  }

  lemma UnpostedIsUnprocessed(db: Db, id: Uuid)
    requires RowsHold(db) && AllPosted(db.txs, db.ledger)
    requires id in db.txs && NeedsReference(db.txs[id].terms.payload)
    requires forall j: nat :: !PostedAt(db, id, j)
    ensures db.txs[id].status != Processed
  {
    assert RowHolds(db.txs[id]);
    forall j | 0 <= j < |db.ledger| ensures db.ledger[j].tx != id {
      assert !PostedAt(db, id, j);
    }
  }

  /** Self-references and circular references are never carried out, in any run: their rows
      are parked or, in the end, rejected. */
  lemma RingsAreNeverProcessed(steps: seq<Step>, ring: seq<Uuid>, i: nat)
    requires Ring(Run(steps).db.txs, ring) && i < |ring|
    ensures ring[i] in Run(steps).db.txs && Run(steps).db.txs[ring[i]].status in {PendingReference, Rejected}
  {
    assert AsksFor(Run(steps).db.txs, ring[i], ring[Successor(ring, i)]);
    var db := Run(steps).db;
    RunKeepsInv(steps);
    InvRows(db);
    InvLedger(db);
    forall j: nat ensures !PostedAt(db, ring[i], j) {
      PositionsRunOut(db, ring, i, j);
    }
    UnpostedIsUnprocessed(db, ring[i]);
    assert RowHolds(db.txs[ring[i]]);
  }

  /** And rejected they are, once the attempts of the row have been made. */
  lemma RingsEndRejected(steps: seq<Step>, ring: seq<Uuid>, i: nat)
    requires Ring(Run(steps).db.txs, ring) && i < |ring|
    requires MAX_ATTEMPTS <= CountOf(steps, ring[i]) + 1
    ensures ring[i] in Run(steps).db.txs && Run(steps).db.txs[ring[i]].status == Rejected
  {
    RingsAreNeverProcessed(steps, ring, i);
    EveryParkedRowEnds(steps, ring[i]);
  }
}
