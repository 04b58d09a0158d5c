/** The interleaved system refines the simple one: a movement that commits is the one the
    operation would make if it ran by itself, in one instant, on the tables of that instant. */
module Atomicity {
  import opened Domain
  import opened Rules
  import opened Tables
  import opened Invariants
  import opened Safety
  import opened Interleaving

  /** The row a SELECT by (provider, external id) returns. */
  ghost function Lookup(txs: map<Uuid, TxRow>, provider: Name, external: Name): (found: Option<Uuid>)
    ensures Found(txs, provider, external, found)
  {
    if exists id :: id in txs && Names(txs[id], provider, external) then
      var id :| id in txs && Names(txs[id], provider, external);
      Some(id)
    else None
  }

  /** The plan of an operation that makes all its reads on the same tables. */
  ghost function AtomicPlan(db: Db, op: Op): Plan
    requires op.Payload().wallet in db.wallets
  {
    var p := op.Payload();
    var txs := View(db.txs, op);
    match AfterWallet(p, db.wallets[p.wallet])
    case Decided(plan) => plan
    case NeedReference =>
      var found := Lookup(txs, p.provider, p.reference);
      match AfterReference(p, if found.Some? then Some(txs[found.value]) else None)
      case Some(plan) => plan
      case None =>
        if found.None? then Park
        else if Blocked(txs, p.kind, found.value) then Deny(ReversalConflict)
        else Resolved(p.kind, found.value, txs[found.value].terms.payload.kind)
  }

  ghost function AtomicCommit(db: Db, proc: Proc, ids: Ids, next: Time): Commit
    requires proc.op.Payload().wallet in db.wallets
  {
    var w := db.wallets[proc.op.Payload().wallet];
    Settled(proc.op, w, AtomicPlan(db, proc.op), proc.now, ids, next, proc.delivery)
  }

  lemma LookupIsUnique(txs: map<Uuid, TxRow>, r: Uuid, provider: Name, external: Name)
    requires Unique(txs) && r in txs && Names(txs[r], provider, external)
    ensures Lookup(txs, provider, external) == Some(r)
  {
    var found := Lookup(txs, provider, external);
    assert SameName(txs[found.value], txs[r]);
  }

  /** A row inserted but not committed is not mistaken for its reference. */
  lemma ViewIsUnique(db: Db, op: Op)
    requires Unique(db.txs) && OpHolds(db, op)
    requires op.isNew ==> Insertable(db, op.id, op.row)
    ensures Unique(View(db.txs, op))
  {
    if op.isNew {
      var view := View(db.txs, op);
      forall i, j | i in view && j in view && (SameName(view[i], view[j]) || SameKey(view[i], view[j]))
        ensures i == j
      {
      }
    }
  }

  lemma BlockedInView(db: Db, op: Op, kind: Kind, r: Uuid)
    requires op.isNew ==> op.row.status == Pending && op.id !in db.txs
    requires r in db.txs
    ensures Blocked(View(db.txs, op), kind, r) <==> Blocked(db.txs, kind, r)
  {
    ViewHasNoOwnReversal(db.txs, op, r, kind);
    ViewHasNoOwnReversal(db.txs, op, r, CrossKind(kind));
  }

  /** Whatever was read along the way, the plan that posts is the plan of this instant. */
  lemma PlanIsAtomic(db: Db, c: Commit)
    requires RowsInv(db) && Legal(db, c) && c.Settled? && c.Posts()
    ensures c.op.Payload().wallet in db.wallets && c.seen == db.wallets[c.op.Payload().wallet]
    ensures c.plan == AtomicPlan(db, c.op)
  {
    var p := c.op.Payload();
    OpIsValid(db, c.op);
    if c.plan.reference.Some? {
      var r := c.plan.reference.value;
      ViewIsUnique(db, c.op);
      LookupIsUnique(View(db.txs, c.op), r, p.provider, p.reference);
      BlockedInView(db, c.op, p.kind, r);
    }
  }

  /** Main result: in every state of every run, a step that moves money has the effect of
      the operation's atomic form on the tables as they stand. */
  lemma MovementIsAtomic(steps: seq<Step>, pid: Pid, ids: Ids, next: Time)
    requires pid in Run(steps).procs && Run(steps).procs[pid].phase.Ready?
    requires CommitOf(Run(steps).procs[pid], ids, next).Posts()
    requires Next(Run(steps), Finish(pid, ids, next)).db != Run(steps).db
    ensures var s := Run(steps); var proc := s.procs[pid];
            && proc.op.Payload().wallet in s.db.wallets
            && Next(s, Finish(pid, ids, next)).db == Apply(s.db, AtomicCommit(s.db, proc, ids, next))
  {
    RunKeepsInv(steps);
    CommitIsLegal(Run(steps), pid, ids, next);
    InvRows(Run(steps).db);
    PlanIsAtomic(Run(steps).db, CommitOf(Run(steps).procs[pid], ids, next));
  }

  lemma GuardedPlanIsUnrivalled(db: Db, c: Commit)
    requires c.Settled? && OpHolds(db, c.op) && PlanHolds(db, c.op, c.seen, c.plan) && c.Posts()
    requires c.seen.version == db.wallets[c.op.Payload().wallet].version
    ensures ReversalFree(db, c.op.id, c.Row())
  {
  }

  /** The partial unique index on reversals is a second line of defence: once the version
      guard has let a movement through, the index has nothing to object to. */
  lemma IndexNeverFires(steps: seq<Step>, pid: Pid, ids: Ids, next: Time)
    requires pid in Run(steps).procs && Run(steps).procs[pid].phase.Ready?
    requires CommitOf(Run(steps).procs[pid], ids, next).Posts()
    requires var c := CommitOf(Run(steps).procs[pid], ids, next);
             Postable(Run(steps).db, c.Posting(), c.seen.version)
    ensures ReversalFree(Run(steps).db, Run(steps).procs[pid].op.id, CommitOf(Run(steps).procs[pid], ids, next).Row())
  {
    RunKeepsInv(steps);
    assert ProcHolds(Run(steps).db, Run(steps).procs[pid]);
    GuardedPlanIsUnrivalled(Run(steps).db, CommitOf(Run(steps).procs[pid], ids, next));
  }
}
