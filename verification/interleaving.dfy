/** Any number of operations at work at once. Each reads the wallet, then the reference,
    then its reversals, and commits; between any two of its statements the others may
    commit, and it may be cut off at any point. A run is a list of steps of whoever is
    scheduled; a step that cannot be taken changes nothing. */
module Interleaving {
  import opened Domain
  import opened Rules
  import opened Tables
  import opened Invariants
  import opened Progress
  import opened Commits
  import opened Safety

  type Pid = nat

  datatype Phase =
    | CheckingName
    | CheckingKey
    | Inserting
    | Begun
    | SawWallet(w: WalletRow)
    | SawReference(w: WalletRow, r: Uuid)
    | SawNoSame(w: WalletRow, r: Uuid)
    | Ready(w: WalletRow, plan: Plan)
    | Replaying(id: Uuid)

  /** An operation at work, with what it remembers of its reads. */
  datatype Proc = Proc(op: Op, now: Time, delivery: Option<Delivery>, phase: Phase)

  datatype Sys = Sys(db: Db, procs: map<Pid, Proc>)

  datatype Step =
    | OpenWallet(id: Uuid, player: Uuid, currency: Name, balance: int, now: Time, tx: Uuid, ids: Ids)
    | Submit(pid: Pid, id: Uuid, key: Name, payload: Payload, now: Time, delivery: Option<Delivery>)
    | CheckName(pid: Pid, found: Option<Uuid>)
    | CheckKey(pid: Pid, found: Option<Uuid>)
    | Insert(pid: Pid)
    | ClaimDue(pid: Pid, id: Uuid, now: Time)
    | ReadWallet(pid: Pid)
    | ReadReference(pid: Pid, found: Option<Uuid>)
    | FindSame(pid: Pid)
    | FindCross(pid: Pid)
    | Finish(pid: Pid, ids: Ids, next: Time)
    | Restart(pid: Pid, id: Uuid, now: Time)
    | Abandon(pid: Pid)

  const INIT := Sys(EMPTY, map[])

  /** What a transaction sees: the committed rows and the one it has inserted itself. */
  function View(txs: map<Uuid, TxRow>, op: Op): map<Uuid, TxRow> {
    if op.isNew && op.id !in txs then txs[op.id := op.row] else txs
  }

  predicate Locked(procs: map<Pid, Proc>, id: Uuid) {
    exists q :: q in procs && !procs[q].op.isNew && procs[q].op.id == id
  }

  /** A commit that wakes a row someone has claimed waits for that claim to end. */
  predicate Unobstructed(s: Sys, pid: Pid, c: Commit) {
    Wakes(c) ==>
      forall q :: q in s.procs && q != pid && !s.procs[q].op.isNew && s.procs[q].op.id in s.db.txs
        ==> !Waits(s.db.txs[s.procs[q].op.id], c.op.Payload().provider, c.op.Payload().external)
  }

  function Entered(s: Sys, pid: Pid, phase: Phase): Sys
    requires pid in s.procs
  {
    s.(procs := s.procs[pid := s.procs[pid].(phase := phase)])
  }

  function Gone(s: Sys, pid: Pid): Sys {
    s.(procs := s.procs - {pid})
  }

  function Committed(s: Sys, pid: Pid, c: Commit): Sys {
    if Passes(s.db, c) && Unobstructed(s, pid, c) then Gone(s.(db := Apply(s.db, c)), pid) else s
  }

  function CommitOf(p: Proc, ids: Ids, next: Time): Commit
    requires p.phase.Ready?
  {
    Settled(p.op, p.phase.w, p.phase.plan, p.now, ids, next, p.delivery)
  }

  /** What a read makes of an operation: nothing, a new phase, or the end of it, with the
      outcome of a stored row or with a conflict if it has one to tell. */
  datatype Turn = Stay | Enter(phase: Phase) | Leave | Answered(id: Uuid) | Conflicted

  /** The answer to an operation that already exists: its outcome, or a conflict. */
  function Replay(db: Db, proc: Proc, id: Uuid): Turn
    requires id in db.txs
  {
    if db.txs[id].terms.payload != proc.op.Payload() then Conflicted
    else if proc.delivery.Some? then Enter(Replaying(id))
    else Answered(id)
  }

  function TurnAtWallet(db: Db, proc: Proc): Turn {
    var p := proc.op.Payload();
    if proc.phase.Begun? && p.wallet in db.wallets then
      var w := db.wallets[p.wallet];
      match AfterWallet(p, w)
      case Decided(plan) => Enter(Ready(w, plan))
      case NeedReference => Enter(SawWallet(w))
    else Stay
  }

  function TurnAtReference(db: Db, proc: Proc, found: Option<Uuid>): Turn {
    var p := proc.op.Payload();
    var view := View(db.txs, proc.op);
    if proc.phase.SawWallet? && Found(view, p.provider, p.reference, found) then
      match AfterReference(p, if found.Some? then Some(view[found.value]) else None)
      case Some(plan) => Enter(Ready(proc.phase.w, plan))
      case None => if found.Some? then Enter(SawReference(proc.phase.w, found.value)) else Stay
    else Stay
  }

  function TurnAtSame(db: Db, proc: Proc): Turn {
    var kind := proc.op.Payload().kind;
    if proc.phase.SawReference? && proc.phase.r in db.txs then
      var w, r, refKind := proc.phase.w, proc.phase.r, db.txs[proc.phase.r].terms.payload.kind;
      if HasReversal(View(db.txs, proc.op), r, kind) then Enter(Ready(w, Deny(ReversalConflict)))
      else if refKind == Bet then Enter(SawNoSame(w, r))
      else Enter(Ready(w, Resolved(kind, r, refKind)))
    else Stay
  }

  function TurnAtCross(db: Db, proc: Proc): Turn {
    var kind := proc.op.Payload().kind;
    if proc.phase.SawNoSame? && proc.phase.r in db.txs then
      var w, r, refKind := proc.phase.w, proc.phase.r, db.txs[proc.phase.r].terms.payload.kind;
      if HasReversal(View(db.txs, proc.op), r, CrossKind(kind)) then Enter(Ready(w, Deny(ReversalConflict)))
      else Enter(Ready(w, Resolved(kind, r, refKind)))
    else Stay
  }

  function TurnOf(db: Db, proc: Proc, step: Step): Turn {
    var p := proc.op.Payload();
    match step
    case CheckName(_, found) =>
      if proc.phase.CheckingName? && Found(db.txs, p.provider, p.external, found) then
        if found.Some? then Replay(db, proc, found.value) else Enter(CheckingKey)
      else Stay
    case CheckKey(_, found) =>
      if proc.phase.CheckingKey? && FoundKey(db.txs, p.provider, proc.op.row.terms.key, found) then
        if found.Some? then Replay(db, proc, found.value) else Enter(Inserting)
      else Stay
    case Insert(_) =>
      if proc.phase.Inserting? && Insertable(db, proc.op.id, proc.op.row) then Enter(Begun) else Stay
    case ReadWallet(_) => TurnAtWallet(db, proc)
    case ReadReference(_, found) => TurnAtReference(db, proc, found)
    case FindSame(_) => TurnAtSame(db, proc)
    case FindCross(_) => TurnAtCross(db, proc)
    case Abandon(_) => Leave
    case _ => Stay
  }

  function OpenedBy(step: Step): Commit
    requires step.OpenWallet?
  {
    Opened(WalletRow(step.id, step.player, step.currency, step.balance, 1, step.now, step.now), step.tx, step.ids)
  }

  function Fresh(db: Db, id: Uuid, key: Name, p: Payload, now: Time, delivery: Option<Delivery>): Proc {
    Proc(Op(id, true, PendingRow(key, p, now), Ended(db.txs)), now, delivery, CheckingName)
  }

  function Claimed(db: Db, id: Uuid, now: Time): Proc
    requires id in db.txs
  {
    Proc(Op(id, false, db.txs[id], Ended(db.txs)), now, None, Begun)
  }

  function Start(s: Sys, step: Step): Sys
    requires step.OpenWallet? || step.Submit? || step.ClaimDue?
  {
    match step
    case OpenWallet(id, player, currency, balance, now, tx, ids) =>
      if id != NIL && player != NIL && currency != NO_NAME && 0 <= balance <= MAX_INT64 && 0 < now
          && Passes(s.db, OpenedBy(step))
      then s.(db := Apply(s.db, OpenedBy(step)))
      else s
    case Submit(pid, id, key, payload, now, delivery) =>
      if pid !in s.procs && ValidExternal(key, payload)
         && (delivery.Some? ==> Carries(delivery.value.body, PendingRow(key, payload, now)))
      then s.(procs := s.procs[pid := Fresh(s.db, id, key, payload, now, delivery)])
      else s
    case ClaimDue(pid, id, now) =>
      if pid !in s.procs && id in s.db.txs && !s.db.txs[id].status.IsTerminal()
         && s.db.txs[id].due.Some? && s.db.txs[id].due.value <= now && !Locked(s.procs, id)
      then s.(procs := s.procs[pid := Claimed(s.db, id, now)])
      else s
  }

  /** A new attempt, from fresh reads and, for a new operation, with a new row. */
  function Again(db: Db, proc: Proc, id: Uuid, now: Time): Proc {
    if proc.op.isNew then Fresh(db, id, proc.op.row.terms.key, proc.op.Payload(), now, proc.delivery)
    else Proc(proc.op, now, proc.delivery, Begun)
  }

  function Continue(s: Sys, step: Step): Sys
    requires !(step.OpenWallet? || step.Submit? || step.ClaimDue?) && step.pid in s.procs
  {
    var proc := s.procs[step.pid];
    match step
    case Finish(pid, ids, next) =>
      if proc.phase.Ready? then Committed(s, pid, CommitOf(proc, ids, next))
      else if proc.phase.Replaying? && proc.delivery.Some? then Committed(s, pid, Replayed(proc.delivery.value))
      else s
    case Restart(pid, id, now) => s.(procs := s.procs[pid := Again(s.db, proc, id, now)])
    case _ =>
      match TurnOf(s.db, proc, step)
      case Stay => s
      case Enter(phase) => Entered(s, step.pid, phase)
      case _ => Gone(s, step.pid)
  }

  /** One step of the whole system. */
  function Next(s: Sys, step: Step): Sys {
    if step.OpenWallet? || step.Submit? || step.ClaimDue? then Start(s, step)
    else if step.pid in s.procs then Continue(s, step)
    else s
  }

  /** The state a schedule leads to. */
  function Run(steps: seq<Step>): Sys {
    if steps == [] then INIT else Next(Run(steps[..|steps| - 1]), steps[|steps| - 1])
  }

  // ----- what an operation at work may rely on --------------------------------------

  ghost predicate SeenHolds(db: Db, p: Payload, w: WalletRow) {
    && p.wallet in db.wallets && w.id == p.wallet && WalletHolds(w) && Older(w, db.wallets[p.wallet])
    && Matches(p, w) && NeedsReference(p)
  }

  ghost predicate PhaseHolds(db: Db, p: Proc) {
    match p.phase
    case CheckingName => true
    case CheckingKey => true
    case Inserting => true
    case Begun => true
    case SawWallet(w) => SeenHolds(db, p.op.Payload(), w)
    case SawReference(w, r) => SeenHolds(db, p.op.Payload(), w) && Refers(db.txs, p.op.Payload(), r)
    case SawNoSame(w, r) =>
      && SeenHolds(db, p.op.Payload(), w) && Refers(db.txs, p.op.Payload(), r)
      && db.txs[r].terms.payload.kind == Bet
      && (w.version == db.wallets[w.id].version ==> !HasReversal(db.txs, r, p.op.Payload().kind))
    case Ready(w, plan) => PlanHolds(db, p.op, w, plan)
    case Replaying(id) => p.delivery.Some? && id in db.txs && Carries(p.delivery.value.body, db.txs[id])
  }

  ghost predicate ProcHolds(db: Db, p: Proc) {
    && OpHolds(db, p.op) && EndedHolds(db.txs, p.op.ended)
    && (p.delivery.Some? ==> p.op.isNew && Carries(p.delivery.value.body, p.op.row))
    && PhaseHolds(db, p)
  }

  ghost predicate ProcsHold(s: Sys) {
    forall q :: q in s.procs ==> ProcHolds(s.db, s.procs[q])
  }

  predicate SameClaim(a: Op, b: Op) {
    !a.isNew && !b.isNew && a.id == b.id
  }

  /** A claimed row is claimed once. */
  predicate ClaimsApart(procs: map<Pid, Proc>) {
    forall q, r :: q in procs && r in procs && SameClaim(procs[q].op, procs[r].op) ==> q == r
  }

  ghost predicate SysInv(s: Sys) {
    DbInv(s.db) && ProcsHold(s) && ClaimsApart(s.procs)
  }

  // ----- the commits of others ------------------------------------------------------

  lemma SeenPersists(a: Db, b: Db, p: Payload, w: WalletRow)
    requires Later(a, b) && SeenHolds(a, p, w)
    ensures SeenHolds(b, p, w)
  {
    assert Older(a.wallets[p.wallet], b.wallets[p.wallet]);
  }

  lemma NoSamePersists(a: Db, b: Db, p: Payload, w: WalletRow, r: Uuid)
    requires Later(a, b) && LinksHold(b.txs)
    requires SeenHolds(a, p, w) && Refers(a.txs, p, r)
    requires w.version == a.wallets[w.id].version ==> !HasReversal(a.txs, r, p.kind)
    ensures SeenHolds(b, p, w) && Refers(b.txs, p, r) && b.txs[r] == a.txs[r]
    ensures w.version == b.wallets[w.id].version ==> !HasReversal(b.txs, r, p.kind)
  {
    SeenPersists(a, b, p, w);
    RefersPersists(a.txs, b.txs, p, r);
    assert Older(a.wallets[w.id], b.wallets[w.id]);
    if w.version == b.wallets[w.id].version {
      NoReversalPersists(a, b, w.id, r, p.kind);
    }
  }

  lemma ReadsPersist(a: Db, b: Db, p: Proc)
    requires Later(a, b) && LinksHold(b.txs)
    requires PhaseHolds(a, p) && !p.phase.Ready? && !p.phase.Replaying?
    ensures PhaseHolds(b, p)
  {
    var payload := p.op.Payload();
    if p.phase.SawWallet? {
      SeenPersists(a, b, payload, p.phase.w);
    } else if p.phase.SawReference? {
      SeenPersists(a, b, payload, p.phase.w);
      RefersPersists(a.txs, b.txs, payload, p.phase.r);
    } else if p.phase.SawNoSame? {
      NoSamePersists(a, b, payload, p.phase.w, p.phase.r);
    }
  }

  lemma PhasePersists(a: Db, b: Db, p: Proc)
    requires Later(a, b) && LinksHold(b.txs)
    requires PhaseHolds(a, p)
    ensures PhaseHolds(b, p)
  {
    if p.phase.Ready? {
      PlanPersists(a, b, p.op, p.phase.w, p.phase.plan);
    } else if p.phase.Replaying? {
      assert Advanced(a.txs[p.phase.id], b.txs[p.phase.id]);
    } else {
      ReadsPersist(a, b, p);
    }
  }

  /** No commit touches a row that another operation has claimed. */
  lemma ClaimedRowStays(db: Db, c: Commit, id: Uuid)
    requires Legal(db, c) && id in db.txs
    requires c.WritesTx() ==> c.TxId() != id
    requires Wakes(c) ==> !Waits(db.txs[id], c.op.Payload().provider, c.op.Payload().external)
    ensures id in Apply(db, c).txs && Apply(db, c).txs[id] == db.txs[id]
  {
  }

  lemma OpPersists(db: Db, c: Commit, op: Op)
    requires Legal(db, c) && OpHolds(db, op)
    requires !op.isNew && c.Settled? ==> c.op.isNew || c.op.id != op.id
    requires !op.isNew && Wakes(c) ==> !Waits(db.txs[op.id], c.op.Payload().provider, c.op.Payload().external)
    ensures OpHolds(Apply(db, c), op)
  {
    if !op.isNew {
      ClaimedRowStays(db, c, op.id);
    }
  }

  /** Everybody else's knowledge survives a commit. */
  lemma OthersPersist(s: Sys, pid: Pid, c: Commit, q: Pid)
    requires SysInv(s) && Legal(s.db, c) && Unobstructed(s, pid, c)
    requires q in s.procs && q != pid
    requires c.Settled? ==> pid in s.procs && c.op == s.procs[pid].op
    ensures ProcHolds(Apply(s.db, c), s.procs[q])
  {
    CommitKeepsInv(s.db, c);
    assert Holds(LinksClaim, Apply(s.db, c));
    assert ProcHolds(s.db, s.procs[q]);
    PhasePersists(s.db, Apply(s.db, c), s.procs[q]);
    OpPersists(s.db, c, s.procs[q].op);
    OpennessPersists(s.db.txs, Apply(s.db, c).txs, s.procs[q].op.ended, s.procs[q].op.Payload());
  }

  lemma CommittedKeepsInv(s: Sys, pid: Pid, c: Commit)
    requires SysInv(s) && pid in s.procs
    requires c.Settled? ==> c.op == s.procs[pid].op
    requires Passes(s.db, c) ==> Legal(s.db, c)
    ensures SysInv(Committed(s, pid, c))
  {
    if Passes(s.db, c) && Unobstructed(s, pid, c) {
      CommitKeepsInv(s.db, c);
      forall q | q in s.procs && q != pid
        ensures ProcHolds(Apply(s.db, c), s.procs[q])
      {
        OthersPersist(s, pid, c, q);
      }
    }
  }

  lemma ClaimsStayApart(procs: map<Pid, Proc>, pid: Pid, p: Proc)
    requires ClaimsApart(procs) && pid in procs
    requires p.op.isNew == procs[pid].op.isNew && (!p.op.isNew ==> p.op == procs[pid].op)
    ensures ClaimsApart(procs[pid := p])
  {
    var after := procs[pid := p];
    forall q, r | q in after && r in after && SameClaim(after[q].op, after[r].op)
      ensures q == r
    {
      assert SameClaim(procs[q].op, procs[r].op);
    }
  }

  lemma ReplacedKeepsInv(s: Sys, pid: Pid, p: Proc)
    requires SysInv(s) && pid in s.procs && ProcHolds(s.db, p)
    requires p.op.isNew == s.procs[pid].op.isNew && (!p.op.isNew ==> p.op == s.procs[pid].op)
    ensures SysInv(s.(procs := s.procs[pid := p]))
  {
    ClaimsStayApart(s.procs, pid, p);
  }

  lemma EnteredKeepsInv(s: Sys, pid: Pid, phase: Phase)
    requires SysInv(s) && pid in s.procs && PhaseHolds(s.db, s.procs[pid].(phase := phase))
    ensures SysInv(Entered(s, pid, phase))
  {
    assert ProcHolds(s.db, s.procs[pid]);
    ReplacedKeepsInv(s, pid, s.procs[pid].(phase := phase));
  }

  lemma GoneKeepsInv(s: Sys, pid: Pid)
    requires SysInv(s)
    ensures SysInv(Gone(s, pid))
  {
  }

  // ----- the steps ------------------------------------------------------------------

  lemma OpenKeepsInv(s: Sys, step: Step)
    requires SysInv(s) && step.OpenWallet?
    ensures SysInv(Start(s, step))
  {
    if Start(s, step) != s {
      var c := OpenedBy(step);
      assert Legal(s.db, c);
      CommitKeepsInv(s.db, c);
      forall q | q in s.procs
        ensures ProcHolds(Apply(s.db, c), s.procs[q])
      {
        assert Holds(LinksClaim, Apply(s.db, c));
        assert ProcHolds(s.db, s.procs[q]);
        PhasePersists(s.db, Apply(s.db, c), s.procs[q]);
        OpPersists(s.db, c, s.procs[q].op);
        OpennessPersists(s.db.txs, Apply(s.db, c).txs, s.procs[q].op.ended, s.procs[q].op.Payload());
      }
    }
  }

  lemma JoinKeepsInv(s: Sys, pid: Pid, p: Proc)
    requires SysInv(s) && pid !in s.procs && ProcHolds(s.db, p)
    requires !p.op.isNew ==> !Locked(s.procs, p.op.id)
    ensures SysInv(s.(procs := s.procs[pid := p]))
  {
  }

  lemma StartKeepsInv(s: Sys, step: Step)
    requires SysInv(s) && (step.Submit? || step.ClaimDue?)
    ensures SysInv(Start(s, step))
  {
    if Start(s, step) != s {
      if step.ClaimDue? {
        assert Holds(RowsClaim, s.db);
        assert RowHolds(s.db.txs[step.id]);
        JoinKeepsInv(s, step.pid, Claimed(s.db, step.id, step.now));
      } else {
        JoinKeepsInv(s, step.pid, Fresh(s.db, step.id, step.key, step.payload, step.now, step.delivery));
      }
    }
  }

  lemma ViewHasNoOwnReversal(txs: map<Uuid, TxRow>, op: Op, r: Uuid, kind: Kind)
    requires op.isNew ==> op.row.status == Pending
    ensures HasReversal(View(txs, op), r, kind) <==> HasReversal(txs, r, kind)
  {
    if HasReversal(txs, r, kind) {
      var id :| id in txs && Reverses(txs[id], r, kind);
      assert id in View(txs, op) && Reverses(View(txs, op)[id], r, kind);
    }
  }

  lemma OpIsValid(db: Db, op: Op)
    requires RowsHold(db) && OpHolds(db, op)
    ensures ValidExternal(op.row.terms.key, op.Payload()) && op.row.terms.origin == External
  {
    if !op.isNew {
      assert RowHolds(db.txs[op.id]);
    }
  }

  lemma WalletTurnHolds(db: Db, proc: Proc)
    requires WalletsHold(db) && RowsHold(db) && ProcHolds(db, proc)
    ensures TurnAtWallet(db, proc).Enter? ==> PhaseHolds(db, proc.(phase := TurnAtWallet(db, proc).phase))
  {
    OpIsValid(db, proc.op);
    var p := proc.op.Payload();
    if p.wallet in db.wallets {
      assert WalletHolds(db.wallets[p.wallet]) && db.wallets[p.wallet].id == p.wallet;
    }
  }

  /** A reference that is absent or in flight had not ended before. */
  lemma InFlightWasOpen(txs: map<Uuid, TxRow>, op: Op, found: Option<Uuid>)
    requires Unique(txs) && EndedHolds(txs, op.ended) && op.Payload().reference != op.Payload().external
    requires Found(View(txs, op), op.Payload().provider, op.Payload().reference, found)
    requires found.Some? ==> !View(txs, op)[found.value].status.IsTerminal()
    ensures WasOpen(txs, op.ended, op.Payload().provider, op.Payload().reference)
  {
    var p := op.Payload();
    forall id | id in op.ended && id in txs ensures !Names(txs[id], p.provider, p.reference) {
      assert View(txs, op)[id] == txs[id];
      if found.Some? && Names(txs[id], p.provider, p.reference) {
        assert SameName(txs[found.value], txs[id]);
      }
    }
  }

  lemma ReferenceTurnHolds(db: Db, proc: Proc, found: Option<Uuid>)
    requires Unique(db.txs) && ProcHolds(db, proc)
    ensures TurnAtReference(db, proc, found).Enter?
            ==> PhaseHolds(db, proc.(phase := TurnAtReference(db, proc, found).phase))
  {
    var p := proc.op.Payload();
    var view := View(db.txs, proc.op);
    if proc.phase.SawWallet? && found.Some? && Found(view, p.provider, p.reference, found) {
      var plan := AfterReference(p, Some(view[found.value]));
      if plan.Some? && plan.value.Deny? {
        assert RefusedBy(db.txs, p, found.value, plan.value.code);
      }
    }
    if proc.phase.SawWallet? && Found(view, p.provider, p.reference, found) && p.reference != p.external
       && (found.Some? ==> !view[found.value].status.IsTerminal()) {
      InFlightWasOpen(db.txs, proc.op, found);
    }
  }

  lemma SameTurnHolds(db: Db, proc: Proc)
    requires ProcHolds(db, proc)
    ensures TurnAtSame(db, proc).Enter? ==> PhaseHolds(db, proc.(phase := TurnAtSame(db, proc).phase))
  {
    if proc.phase.SawReference? && proc.phase.r in db.txs {
      ViewHasNoOwnReversal(db.txs, proc.op, proc.phase.r, proc.op.Payload().kind);
    }
  }

  lemma CrossTurnHolds(db: Db, proc: Proc)
    requires ProcHolds(db, proc)
    ensures TurnAtCross(db, proc).Enter? ==> PhaseHolds(db, proc.(phase := TurnAtCross(db, proc).phase))
  {
    if proc.phase.SawNoSame? && proc.phase.r in db.txs {
      ViewHasNoOwnReversal(db.txs, proc.op, proc.phase.r, CrossKind(proc.op.Payload().kind));
    }
  }

  /** Before the row is inserted nothing need be known but, for a replay, the row found. */
  lemma EarlyTurnHolds(db: Db, proc: Proc, step: Step)
    requires ProcHolds(db, proc)
    requires step.CheckName? || step.CheckKey? || step.Insert? || step.Abandon?
    ensures TurnOf(db, proc, step).Enter? ==> PhaseHolds(db, proc.(phase := TurnOf(db, proc, step).phase))
  {
  }

  /** Each read leaves the operation knowing what the protocol needs it to know. */
  lemma TurnHolds(db: Db, proc: Proc, step: Step)
    requires WalletsHold(db) && RowsHold(db) && Unique(db.txs) && ProcHolds(db, proc)
    ensures TurnOf(db, proc, step).Enter? ==> PhaseHolds(db, proc.(phase := TurnOf(db, proc, step).phase))
  {
    if step.ReadWallet? {
      WalletTurnHolds(db, proc);
    } else if step.ReadReference? {
      ReferenceTurnHolds(db, proc, step.found);
    } else if step.FindSame? {
      SameTurnHolds(db, proc);
    } else if step.FindCross? {
      CrossTurnHolds(db, proc);
    } else if step.CheckName? || step.CheckKey? || step.Insert? || step.Abandon? {
      EarlyTurnHolds(db, proc, step);
    }
  }

  lemma CommitIsLegal(s: Sys, pid: Pid, ids: Ids, next: Time)
    requires SysInv(s) && pid in s.procs && s.procs[pid].phase.Ready?
    requires Passes(s.db, CommitOf(s.procs[pid], ids, next))
    ensures Legal(s.db, CommitOf(s.procs[pid], ids, next))
  {
    assert ProcHolds(s.db, s.procs[pid]);
  }

  lemma FinishKeepsInv(s: Sys, pid: Pid, ids: Ids, next: Time)
    requires SysInv(s) && pid in s.procs
    ensures SysInv(Continue(s, Finish(pid, ids, next)))
  {
    var proc := s.procs[pid];
    assert ProcHolds(s.db, proc);
    if proc.phase.Ready? {
      var c := CommitOf(proc, ids, next);
      if Passes(s.db, c) {
        CommitIsLegal(s, pid, ids, next);
      }
      CommittedKeepsInv(s, pid, c);
    } else if proc.phase.Replaying? && proc.delivery.Some? {
      ReplayIsLegal(s.db, proc);
      CommittedKeepsInv(s, pid, Replayed(proc.delivery.value));
    }
  }

  lemma ReplayIsLegal(db: Db, proc: Proc)
    requires PhaseHolds(db, proc) && proc.phase.Replaying?
    ensures Passes(db, Replayed(proc.delivery.value)) ==> Legal(db, Replayed(proc.delivery.value))
  {
  }

  lemma AgainHolds(db: Db, proc: Proc, id: Uuid, now: Time)
    requires ProcHolds(db, proc)
    ensures ProcHolds(db, Again(db, proc, id, now))
  {
  }

  lemma RestartKeepsInv(s: Sys, pid: Pid, id: Uuid, now: Time)
    requires SysInv(s) && pid in s.procs
    ensures SysInv(Continue(s, Restart(pid, id, now)))
  {
    AgainHolds(s.db, s.procs[pid], id, now);
    ReplacedKeepsInv(s, pid, Again(s.db, s.procs[pid], id, now));
  }

  lemma TurnKeepsInv(s: Sys, step: Step)
    requires !(step.OpenWallet? || step.Submit? || step.ClaimDue? || step.Finish? || step.Restart?)
    requires SysInv(s) && step.pid in s.procs
    ensures SysInv(Continue(s, step))
  {
    var proc := s.procs[step.pid];
    assert ProcHolds(s.db, proc);
    assert Holds(WalletsClaim, s.db) && Holds(RowsClaim, s.db) && Holds(UniqueClaim, s.db);
    TurnHolds(s.db, proc, step);
    var turn := TurnOf(s.db, proc, step);
    if turn.Enter? {
      EnteredKeepsInv(s, step.pid, turn.phase);
    } else if !turn.Stay? {
      GoneKeepsInv(s, step.pid);
    }
  }

  lemma ContinueKeepsInv(s: Sys, step: Step)
    requires SysInv(s) && !(step.OpenWallet? || step.Submit? || step.ClaimDue?) && step.pid in s.procs
    ensures SysInv(Continue(s, step))
  {
    if step.Finish? {
      FinishKeepsInv(s, step.pid, step.ids, step.next);
    } else if step.Restart? {
      RestartKeepsInv(s, step.pid, step.id, step.now);
    } else {
      TurnKeepsInv(s, step);
    }
  }

  /** Every step keeps the invariant of the tables and everybody's knowledge. */
  lemma StepKeepsInv(s: Sys, step: Step)
    requires SysInv(s)
    ensures SysInv(Next(s, step))
  {
    if step.OpenWallet? {
      OpenKeepsInv(s, step);
    } else if step.Submit? || step.ClaimDue? {
      StartKeepsInv(s, step);
    } else if step.pid in s.procs {
      ContinueKeepsInv(s, step);
    }
  }

  /** In every state any schedule leads to, the invariant holds. */
  lemma {:induction false} RunKeepsInv(steps: seq<Step>)
    ensures SysInv(Run(steps))
  {
    if steps == [] {
      EmptyInv();
    } else {
      RunKeepsInv(steps[..|steps| - 1]);
      StepKeepsInv(Run(steps[..|steps| - 1]), steps[|steps| - 1]);
    }
  }

  // ----- runs as sequences of commits -----------------------------------------------

  /** The commit a step makes, if it makes one. */
  function CommitAt(s: Sys, step: Step): Option<Commit> {
    if step.OpenWallet? then
      if Next(s, step) == s then None else Some(OpenedBy(step))
    else if step.Finish? && step.pid in s.procs then
      var proc := s.procs[step.pid];
      if proc.phase.Ready? && Passes(s.db, CommitOf(proc, step.ids, step.next))
         && Unobstructed(s, step.pid, CommitOf(proc, step.ids, step.next))
      then Some(CommitOf(proc, step.ids, step.next))
      else if proc.phase.Replaying? && proc.delivery.Some? && Passes(s.db, Replayed(proc.delivery.value))
      then Some(Replayed(proc.delivery.value))
      else None
    else None
  }

  lemma StepIsCommit(s: Sys, step: Step)
    ensures Next(s, step).db == (if CommitAt(s, step).Some? then Apply(s.db, CommitAt(s, step).value) else s.db)
  {
  }

  lemma FinishingIsLegal(s: Sys, step: Step)
    requires SysInv(s) && step.Finish? && CommitAt(s, step).Some?
    ensures Legal(s.db, CommitAt(s, step).value)
  {
    var proc := s.procs[step.pid];
    assert ProcHolds(s.db, proc);
    if CommitAt(s, step).value.Replayed? {
      ReplayIsLegal(s.db, proc);
    } else {
      CommitIsLegal(s, step.pid, step.ids, step.next);
    }
  }

  /** The tables change by legal commits only, whatever the operations saw in between. */
  lemma StepRefines(s: Sys, step: Step)
    requires SysInv(s)
    ensures match CommitAt(s, step)
            case None => Next(s, step).db == s.db
            case Some(c) => Legal(s.db, c) && Next(s, step).db == Apply(s.db, c)
  {
    StepIsCommit(s, step);
    if step.Finish? && CommitAt(s, step).Some? {
      FinishingIsLegal(s, step);
    }
  }

  lemma StepAdvances(s: Sys, step: Step)
    requires SysInv(s)
    ensures Later(s.db, Next(s, step).db)
  {
    StepRefines(s, step);
    match CommitAt(s, step)
    case None => LaterReflexive(s.db);
    case Some(c) =>
      assert Holds(WalletsClaim, s.db);
      CommitAdvances(s.db, c);
  }

  lemma AllButLast(steps: seq<Step>, more: seq<Step>)
    requires more != []
    ensures (steps + more)[..|steps + more| - 1] == steps + more[..|more| - 1]
    ensures (steps + more)[|steps + more| - 1] == more[|more| - 1]
  {
  }

  lemma RunOfMore(steps: seq<Step>, more: seq<Step>)
    requires more != []
    ensures Run(steps + more) == Next(Run(steps + more[..|more| - 1]), more[|more| - 1])
  {
    AllButLast(steps, more);
  }

  /** Continuing a run moves its tables forward. */
  lemma {:induction false} RunAdvances(steps: seq<Step>, more: seq<Step>)
    ensures Later(Run(steps).db, Run(steps + more).db)
  {
    if more == [] {
      assert steps + more == steps;
      LaterReflexive(Run(steps).db);
    } else {
      var init := more[..|more| - 1];
      RunAdvances(steps, init);
      RunKeepsInv(steps + init);
      StepAdvances(Run(steps + init), more[|more| - 1]);
      RunOfMore(steps, more);
      LaterTransitive(Run(steps).db, Run(steps + init).db, Run(steps + more).db);
    }
  }
}
