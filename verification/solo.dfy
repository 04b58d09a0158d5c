/** The other half of the refinement: whatever an operation does in its atomic form, it also
    does step by step when the others happen to leave it alone. */
module Solo {
  import opened Domain
  import opened Rules
  import opened Tables
  import opened Interleaving
  import opened Atomicity

  function After(s: Sys, steps: seq<Step>): Sys
    decreases |steps|
  {
    if steps == [] then s else After(Next(s, steps[0]), steps[1..])
  }

  lemma {:induction false} AfterBoth(s: Sys, a: seq<Step>, b: seq<Step>)
    ensures After(s, a + b) == After(After(s, a), b)
    decreases |a|
  {
    if a == [] {
      assert a + b == b;
    } else {
      assert (a + b)[1..] == a[1..] + b;
      AfterBoth(Next(s, a[0]), a[1..], b);
    }
  }

  lemma AfterOne(s: Sys, a: Step)
    ensures After(s, [a]) == Next(s, a)
  {
    assert After(Next(s, a), []) == Next(s, a);
  }

  lemma AfterTwo(s: Sys, a: Step, b: Step)
    ensures After(s, [a, b]) == Next(Next(s, a), b)
  {
    assert [a, b][1..] == [b];
    AfterOne(Next(s, a), b);
  }

  /** The system with one more operation at work. */
  function With(s: Sys, pid: Pid, proc: Proc): Sys {
    s.(procs := s.procs[pid := proc])
  }

  predicate OnlyOf(pid: Pid, steps: seq<Step>) {
    forall i :: 0 <= i < |steps| ==> !steps[i].OpenWallet? && steps[i].pid == pid
  }

  lemma LastLookupAlone(s: Sys, pid: Pid, proc: Proc)
    requires pid !in s.procs && proc.phase.SawNoSame? && proc.phase.r in s.db.txs
    requires s.db.txs[proc.phase.r].terms.payload.kind == Bet
    requires !HasReversal(View(s.db.txs, proc.op), proc.phase.r, proc.op.Payload().kind)
    ensures var kind := proc.op.Payload().kind; var r := proc.phase.r;
            var plan := if Blocked(View(s.db.txs, proc.op), kind, r) then Deny(ReversalConflict)
                else Resolved(kind, r, Bet);
            Next(With(s, pid, proc), FindCross(pid)) == With(s, pid, proc.(phase := Ready(proc.phase.w, plan)))
  {
    var t := With(s, pid, proc);
    assert t.procs[pid] == proc;
    assert t.procs[pid := t.procs[pid]] == t.procs;
    assert Next(t, FindCross(pid)) == Entered(t, pid, TurnAtCross(t.db, proc).phase);
  }

  lemma LookupsAlone(s: Sys, pid: Pid, proc: Proc) returns (steps: seq<Step>)
    requires pid !in s.procs && proc.phase.SawReference? && proc.phase.r in s.db.txs
    ensures OnlyOf(pid, steps)
    ensures var kind := proc.op.Payload().kind; var r := proc.phase.r;
            var plan := if Blocked(View(s.db.txs, proc.op), kind, r) then Deny(ReversalConflict)
                        else Resolved(kind, r, s.db.txs[r].terms.payload.kind);
            After(With(s, pid, proc), steps) == With(s, pid, proc.(phase := Ready(proc.phase.w, plan)))
  {
    var t := With(s, pid, proc);
    var turn := TurnAtSame(t.db, proc);
    assert t.procs[pid] == proc;
    assert Next(t, FindSame(pid)) == Entered(t, pid, turn.phase) == With(s, pid, proc.(phase := turn.phase));
    if turn.phase.Ready? {
      steps := [FindSame(pid)];
      AfterOne(t, FindSame(pid));
    } else {
      LastLookupAlone(s, pid, proc.(phase := turn.phase));
      steps := [FindSame(pid), FindCross(pid)];
      AfterTwo(t, FindSame(pid), FindCross(pid));
    }
  }

  /** All reads in a row give the atomic plan. */
  lemma ReadsAlone(s: Sys, pid: Pid, proc: Proc) returns (steps: seq<Step>)
    requires pid !in s.procs && proc.phase.Begun? && proc.op.Payload().wallet in s.db.wallets
    requires proc.op.isNew ==> proc.op.row.status == Pending
    ensures OnlyOf(pid, steps)
    ensures After(With(s, pid, proc), steps)
            == With(s, pid, proc.(phase := Ready(s.db.wallets[proc.op.Payload().wallet], AtomicPlan(s.db, proc.op))))
  {
    var p := proc.op.Payload();
    var w := s.db.wallets[p.wallet];
    var t := With(s, pid, proc);
    assert t.procs[pid] == proc;
    var turn := TurnAtWallet(t.db, proc);
    assert Next(t, ReadWallet(pid)) == Entered(t, pid, turn.phase) == With(s, pid, proc.(phase := turn.phase));
    if AfterWallet(p, w).Decided? {
      steps := [ReadWallet(pid)];
      AfterOne(t, ReadWallet(pid));
    } else {
      var rest := ReferenceAlone(s, pid, proc.(phase := SawWallet(w)));
      steps := [ReadWallet(pid)] + rest;
      assert steps[1..] == rest;
    }
  }

  lemma ReferenceAlone(s: Sys, pid: Pid, proc: Proc) returns (steps: seq<Step>)
    requires pid !in s.procs && proc.phase.SawWallet? && proc.op.Payload().wallet in s.db.wallets
    requires proc.phase.w == s.db.wallets[proc.op.Payload().wallet]
             && AfterWallet(proc.op.Payload(), proc.phase.w) == NeedReference
    requires proc.op.isNew ==> proc.op.row.status == Pending
    ensures OnlyOf(pid, steps)
    ensures After(With(s, pid, proc), steps)
            == With(s, pid, proc.(phase := Ready(proc.phase.w, AtomicPlan(s.db, proc.op))))
  {
    var p := proc.op.Payload();
    var t := With(s, pid, proc);
    assert t.procs[pid] == proc;
    var view := View(s.db.txs, proc.op);
    var found := Lookup(view, p.provider, p.reference);
    var turn := TurnAtReference(t.db, proc, found);
    assert Next(t, ReadReference(pid, found)) == Entered(t, pid, turn.phase)
           == With(s, pid, proc.(phase := turn.phase));
    if turn.phase.Ready? {
      steps := [ReadReference(pid, found)];
      AfterOne(t, ReadReference(pid, found));
    } else {
      assert found.value in s.db.txs && view[found.value] == s.db.txs[found.value];
      var rest := LookupsAlone(s, pid, proc.(phase := turn.phase));
      steps := [ReadReference(pid, found)] + rest;
      assert steps[1..] == rest;
    }
  }

  lemma FinishAlone(s: Sys, pid: Pid, proc: Proc, ids: Ids, next: Time)
    requires pid !in s.procs && proc.phase.Ready?
    requires Passes(s.db, CommitOf(proc, ids, next)) && Unobstructed(s, pid, CommitOf(proc, ids, next))
    ensures Next(With(s, pid, proc), Finish(pid, ids, next)) == s.(db := Apply(s.db, CommitOf(proc, ids, next)))
  {
    var t := With(s, pid, proc);
    assert t.procs[pid] == proc;
    assert t.procs - {pid} == s.procs;
  }

  /** From its first read on, an operation left alone makes its atomic commit. */
  lemma OperationAlone(s: Sys, pid: Pid, proc: Proc, ids: Ids, next: Time) returns (steps: seq<Step>)
    requires pid !in s.procs && proc.phase.Begun? && proc.op.Payload().wallet in s.db.wallets
    requires proc.op.isNew ==> proc.op.row.status == Pending
    requires Passes(s.db, AtomicCommit(s.db, proc, ids, next))
             && Unobstructed(s, pid, AtomicCommit(s.db, proc, ids, next))
    ensures OnlyOf(pid, steps)
    ensures After(With(s, pid, proc), steps) == s.(db := Apply(s.db, AtomicCommit(s.db, proc, ids, next)))
  {
    var c := AtomicCommit(s.db, proc, ids, next);
    var lookups := ReadsAlone(s, pid, proc);
    var ready := proc.(phase := Ready(c.seen, c.plan));
    FinishAlone(s, pid, ready, ids, next);
    AfterBoth(With(s, pid, proc), lookups, [Finish(pid, ids, next)]);
    AfterOne(With(s, pid, ready), Finish(pid, ids, next));
    steps := lookups + [Finish(pid, ids, next)];
  }

  // ----- new operations, from HTTP or from the queue -----------------------------------

  /** A new operation whose row has been inserted. */
  function Inserted(d: Db, id: Uuid, key: Name, p: Payload, now: Time, delivery: Option<Delivery>): Proc {
    Fresh(d, id, key, p, now, delivery).(phase := Begun)
  }

  predicate CanArrive(s: Sys, pid: Pid, id: Uuid, key: Name, p: Payload, now: Time, delivery: Option<Delivery>) {
    && pid !in s.procs && ValidExternal(key, p) && Insertable(s.db, id, PendingRow(key, p, now))
    && (delivery.Some? ==> Carries(delivery.value.body, PendingRow(key, p, now)))
  }

  lemma SubmissionAlone(s: Sys, pid: Pid, id: Uuid, key: Name, p: Payload, now: Time, delivery: Option<Delivery>)
    requires CanArrive(s, pid, id, key, p, now, delivery)
    ensures Next(Next(s, Submit(pid, id, key, p, now, delivery)), CheckName(pid, None))
            == With(s, pid, Inserted(s.db, id, key, p, now, delivery).(phase := CheckingKey))
  {
    var t := With(s, pid, Inserted(s.db, id, key, p, now, delivery).(phase := CheckingName));
    assert Next(s, Submit(pid, id, key, p, now, delivery)) == t;
    assert Next(t, CheckName(pid, None)) == Entered(t, pid, CheckingKey);
  }

  lemma InsertionAlone(s: Sys, pid: Pid, proc: Proc)
    requires pid !in s.procs && proc.phase.CheckingKey? && Insertable(s.db, proc.op.id, proc.op.row)
    ensures Next(Next(With(s, pid, proc), CheckKey(pid, None)), Insert(pid)) == With(s, pid, proc.(phase := Begun))
  {
    var t, u := With(s, pid, proc), With(s, pid, proc.(phase := Inserting));
    assert Next(t, CheckKey(pid, None)) == Entered(t, pid, Inserting) == u;
    assert Next(u, Insert(pid)) == Entered(u, pid, Begun);
  }

  /** Submission up to the inserted row. */
  lemma ArrivalAlone(s: Sys, pid: Pid, id: Uuid, key: Name, p: Payload, now: Time, delivery: Option<Delivery>)
    returns (steps: seq<Step>)
    requires CanArrive(s, pid, id, key, p, now, delivery)
    ensures OnlyOf(pid, steps)
    ensures After(s, steps) == With(s, pid, Inserted(s.db, id, key, p, now, delivery))
  {
    var looked := Inserted(s.db, id, key, p, now, delivery).(phase := CheckingKey);
    SubmissionAlone(s, pid, id, key, p, now, delivery);
    InsertionAlone(s, pid, looked);
    AfterTwo(s, Submit(pid, id, key, p, now, delivery), CheckName(pid, None));
    AfterTwo(With(s, pid, looked), CheckKey(pid, None), Insert(pid));
    AfterBoth(s, [Submit(pid, id, key, p, now, delivery), CheckName(pid, None)], [CheckKey(pid, None), Insert(pid)]);
    steps := [Submit(pid, id, key, p, now, delivery), CheckName(pid, None)] + [CheckKey(pid, None), Insert(pid)];
  }

  /** Main result: from every state, a new operation whose atomic form the tables let pass,
      with or without the message that carried it, can be carried out by steps of its own, to
      the very same effect and with nothing left over. */
  lemma AtomicIsReachable(s: Sys, pid: Pid, id: Uuid, key: Name, p: Payload, now: Time, delivery: Option<Delivery>,
                          ids: Ids, next: Time)
    returns (steps: seq<Step>)
    requires CanArrive(s, pid, id, key, p, now, delivery)
    requires var c := AtomicCommit(s.db, Inserted(s.db, id, key, p, now, delivery), ids, next);
             Passes(s.db, c) && Unobstructed(s, pid, c)
    ensures OnlyOf(pid, steps)
    ensures After(s, steps)
            == s.(db := Apply(s.db, AtomicCommit(s.db, Inserted(s.db, id, key, p, now, delivery), ids, next)))
  {
    var arrival := ArrivalAlone(s, pid, id, key, p, now, delivery);
    var rest := OperationAlone(s, pid, Inserted(s.db, id, key, p, now, delivery), ids, next);
    AfterBoth(s, arrival, rest);
    steps := arrival + rest;
  }

  /** The same for a message whose operation is already stored: it is recorded as a replay. */
  lemma ReplayIsReachable(s: Sys, pid: Pid, tx: Uuid, id: Uuid, key: Name, p: Payload, now: Time, delivery: Delivery)
    returns (steps: seq<Step>)
    requires pid !in s.procs && ValidExternal(key, p) && Carries(delivery.body, PendingRow(key, p, now))
    requires Found(s.db.txs, p.provider, p.external, Some(id)) && s.db.txs[id].terms.payload == p
    requires Passes(s.db, Replayed(delivery))
    ensures OnlyOf(pid, steps)
    ensures After(s, steps) == s.(db := Apply(s.db, Replayed(delivery)))
  {
    var proc := Inserted(s.db, tx, key, p, now, Some(delivery));
    var t, u := With(s, pid, proc.(phase := CheckingName)), With(s, pid, proc.(phase := Replaying(id)));
    assert Next(s, Submit(pid, tx, key, p, now, Some(delivery))) == t;
    assert Next(t, CheckName(pid, Some(id))) == Entered(t, pid, Replaying(id)) == u;
    assert u.procs - {pid} == s.procs;
    assert Next(u, Finish(pid, Ids(0, 0, 0), 0)) == s.(db := Apply(s.db, Replayed(delivery)));
    AfterTwo(s, Submit(pid, tx, key, p, now, Some(delivery)), CheckName(pid, Some(id)));
    AfterOne(u, Finish(pid, Ids(0, 0, 0), 0));
    AfterBoth(s, [Submit(pid, tx, key, p, now, Some(delivery)), CheckName(pid, Some(id))],
              [Finish(pid, Ids(0, 0, 0), 0)]);
    steps := [Submit(pid, tx, key, p, now, Some(delivery)), CheckName(pid, Some(id))] + [Finish(pid, Ids(0, 0, 0), 0)];
  }

  // ----- parked operations --------------------------------------------------------------

  /** And for a parked operation that is due and that nobody has claimed. */
  lemma ResumptionIsReachable(s: Sys, pid: Pid, id: Uuid, now: Time, ids: Ids, next: Time) returns (steps: seq<Step>)
    requires pid !in s.procs && id in s.db.txs && !s.db.txs[id].status.IsTerminal()
    requires s.db.txs[id].due.Some? && s.db.txs[id].due.value <= now && !Locked(s.procs, id)
    requires s.db.txs[id].terms.payload.wallet in s.db.wallets
    requires var c := AtomicCommit(s.db, Claimed(s.db, id, now), ids, next); Passes(s.db, c) && Unobstructed(s, pid, c)
    ensures OnlyOf(pid, steps)
    ensures After(s, steps) == s.(db := Apply(s.db, AtomicCommit(s.db, Claimed(s.db, id, now), ids, next)))
  {
    var rest := OperationAlone(s, pid, Claimed(s.db, id, now), ids, next);
    AfterOne(s, ClaimDue(pid, id, now));
    AfterBoth(s, [ClaimDue(pid, id, now)], rest);
    steps := [ClaimDue(pid, id, now)] + rest;
  }
}
