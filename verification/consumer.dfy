/** The queue consumer: the inbox row, the operation and the completion of the row share one
    transaction, in which each attempt of the operation is a savepoint. */
module Consumers {
  import opened Domain
  import opened Rules
  import opened Tables
  import opened Invariants
  import opened Progress
  import opened Safety
  import opened Laws
  import opened Moneys
  import opened Databases
  import opened Conclusions
  import opened Service

  /** A message as the broker delivers it. */
  datatype Message = Message(id: Name, body: Body)

  /** The message can be read, has an id, and asks for something that can be submitted. */
  predicate Wellformed(m: Message) {
    m.body.Request? && MessageId(m) != NO_NAME && IsSubmittable(m.body.key, m.body.payload)
  }

  /** The name has a row of another payload. */
  ghost predicate NameIsTaken(d: Db, p: Payload) {
    exists id :: id in d.txs && IsNamed(d.txs[id], p.provider, p.external) && d.txs[id].terms.payload != p
  }

  /** What the handler tells the poller: recorded, unprocessable, or try again. */
  datatype Verdict = Acked | Permanent(reason: Failure) | Transient(reason: Failure)

  /** The id in the envelope, or the broker's if it has none. */
  function MessageId(m: Message): Name {
    if m.body.Request? && m.body.messageId != NO_NAME then m.body.messageId else m.id
  }

  /** The message is durably recorded: its inbox row is complete and its operation stored. */
  ghost predicate Recorded(d: Db, m: Message) {
    && MessageId(m) in d.inbox && d.inbox[MessageId(m)] == InboxRow(m.body, true)
    && exists id :: id in d.txs && Carries(m.body, d.txs[id])
  }

  /** Invalid input, rejections that could not be stored and reused keys are unprocessable. */
  function Classify(f: Failure): Verdict {
    match f
    case Invalid => Permanent(f)
    case MoneyRange => Permanent(f)
    case WalletMissing => Permanent(f)
    case FundsCheck => Permanent(f)
    case IdempotencyConflict => Permanent(f)
    case _ => Transient(f)
  }

  lemma RecordedPersists(a: Db, b: Db, m: Message)
    requires Later(a, b) && Recorded(a, m)
    ensures Recorded(b, m)
  {
    var id :| id in a.txs && Carries(m.body, a.txs[id]);
    assert id in b.txs && Carries(m.body, b.txs[id]);
  }

  lemma TakenIsOwedAConflict(d: Db, end: Db, p: Payload, r: Result<Outcome, Failure>)
    requires Owed(d, end, p, r)
    ensures NameIsTaken(d, p) ==> r == Err(IdempotencyConflict)
  {
    if NameIsTaken(d, p) {
      var id :| id in d.txs && IsNamed(d.txs[id], p.provider, p.external) && d.txs[id].terms.payload != p;
      assert Names(d.txs[id], p.provider, p.external);
    }
  }

  /** A taken name stays taken, and a message that asks for it under another payload is never
      recorded. */
  lemma TakenStaysTaken(start: Db, d: Db, m: Message)
    requires Later(start, d) && DbInv(d) && m.body.Request?
    ensures NameIsTaken(start, m.body.payload) ==> NameIsTaken(d, m.body.payload) && !Recorded(d, m)
    ensures Conflicting(start, m.body.key, m.body.payload) ==> Conflicting(d, m.body.key, m.body.payload)
  {
    var p := m.body.payload;
    if Conflicting(start, m.body.key, p) {
      ConflictPersists(start, d, m.body.key, p);
    }
    if NameIsTaken(start, p) {
      var id :| id in start.txs && IsNamed(start.txs[id], p.provider, p.external) && start.txs[id].terms.payload != p;
      assert id in d.txs && d.txs[id].terms == start.txs[id].terms;
      forall k | k in d.txs ensures !Carries(m.body, d.txs[k]) {
        assert Holds(UniqueClaim, d);
        assert SameName(d.txs[id], d.txs[k]) || !Carries(m.body, d.txs[k]);
      }
    }
  }

  /** A committed inbox row always is complete. */
  lemma KnownBodyIsRecorded(d: Db, m: Message)
    requires DbInv(d) && MessageId(m) in d.inbox && d.inbox[MessageId(m)].body == m.body
    ensures Recorded(d, m)
  {
    InvNotices(d);
    assert MessageHolds(d.txs, d.inbox[MessageId(m)]);
  }

  /** The message that a commit records. */
  function DeliveryOf(c: Commit): Option<Delivery> {
    match c
    case Opened(_, _, _) => None
    case Settled(_, _, _, _, _, _, delivery) => delivery
    case Replayed(delivery) => Some(delivery)
  }

  function Arrival(m: Message): Delivery {
    Delivery(MessageId(m), m.body)
  }

  function WithDelivery(c: Commit, d: Delivery): Commit {
    if c.Settled? then c.(delivery := Some(d)) else c
  }

  /** The commit of the operation with the message that carried it. */
  lemma DeliveryIsCommit(at: Db, c: Commit, d: Delivery)
    requires c.Settled? && c.delivery == None && Legal(at, c) && c.op.isNew
    requires d.message !in at.inbox && Carries(d.body, c.op.row)
    ensures Legal(at, WithDelivery(c, d))
    ensures var claimed := WithClaim(Apply(at, c), Some(d));
            d.message in claimed.inbox
            && claimed.(inbox := claimed.inbox[d.message := claimed.inbox[d.message].(completed := true)])
               == Apply(at, WithDelivery(c, d))
  {
    SameButDelivery(at, c, d);
  }

  lemma SameButDelivery(at: Db, c: Commit, d: Delivery)
    requires c.Settled? && c.delivery == None
    ensures var e := WithDelivery(c, d);
            && e.Posts() == c.Posts() && (c.Posts() ==> e.Posting() == c.Posting())
            && e.Row() == c.Row()
            && Apply(at, e) == Apply(at, c).(inbox := at.inbox[d.message := InboxRow(d.body, true)])
  {
  }

  lemma ReplayIsCommit(at: Db, d: Delivery, id: Uuid)
    requires d.message !in at.inbox && id in at.txs && Carries(d.body, at.txs[id])
    ensures Legal(at, Replayed(d))
    ensures Apply(at, Replayed(d)) == at.(inbox := at.inbox[d.message := InboxRow(d.body, true)])
  {
    assert at.outbox + [] == at.outbox;
  }

  class WagerHandler {
    const db: Database
    const wager: WagerService

    constructor (wager: WagerService)
      ensures this.wager == wager && this.db == wager.db
    {
      this.wager, this.db := wager, wager.db;
    }

    /** The message just claimed is open in the database. */
    ghost predicate Open(d: Delivery)
      reads db
    {
      db.Valid() && db.Clear() && db.depth == 1 && db.hold.claim == Some(d)
    }

    /** What a verdict says of the message and of the tables: which messages are beyond help,
        and what may be different the next time. */
    ghost predicate Explains(start: Db, seen: Reads, end: Db, m: Message, v: Verdict) {
      match v
      case Acked => Recorded(end, m)
      case Permanent(f) =>
        (match f
         case Invalid => !Wellformed(m) || RefersInVain(m.body.payload) || wager.base < 0 || wager.cap < 0
         case IdempotencyConflict =>
           || (MessageId(m) in end.inbox && end.inbox[MessageId(m)].body != m.body)
           || (m.body.Request? && Conflicting(end, m.body.key, m.body.payload))
         case MoneyRange => m.body.Request? && wager.TooMuch(start, seen, end, m.body.payload)
         case FundsCheck => m.body.Request? && wager.TooEarly(end, m.body.payload)
         case _ => false)
      case Transient(f) =>
        m.body.Request? &&
        match f
        case Storage => wager.NotInserted(start, end, m.body.payload)
        case VersionConflict =>
          VersionAt(start, m.body.payload.wallet) + wager.retries <= VersionAt(end, m.body.payload.wallet)
        case _ => false
    }

    /** Every failure of a submission is filed under the verdict that explains it. */
    lemma FailureIsFiled(start: Db, d: Db, seen: Reads, end: Db, m: Message, f: Failure)
      requires Later(start, d) && DbInv(d) && Wellformed(m)
      requires wager.SubmissionFails(d, seen, end, m.body.key, m.body.payload, f)
      ensures Explains(start, seen, end, m, Classify(f))
    {
      if f == VersionConflict {
        VersionsGrow(start, d, m.body.payload.wallet);
      } else {
        wager.SubmissionFailsEarlier(start, d, seen, end, m.body.key, m.body.payload, f);
      }
      FiledAsCaused(start, seen, end, m, f);
    }

    lemma FiledAsCaused(start: Db, seen: Reads, end: Db, m: Message, f: Failure)
      requires Wellformed(m) && wager.SubmissionFails(start, seen, end, m.body.key, m.body.payload, f)
      ensures Explains(start, seen, end, m, Classify(f))
    {
    }

    /** What handling a message has made visible: its commit, or nothing. */
    ghost predicate HandledOnce(before: seq<Published>, v: Verdict, at: Db, c: Option<Commit>)
      reads db
    {
      db.log == if v != Acked then before
                else before + [Published(at, if c.Some? then Apply(at, c.value) else at)]
    }

    /** Handles one message. Nothing is written unless it answers Acked, and then the
        message is recorded; a body that was recorded before changes nothing. */
    method Handle(m: Message) returns (v: Verdict, ghost at: Db, ghost c: Option<Commit>, ghost seen: Reads)
      requires wager.db == db
      requires db.Valid() && db.Clear() && db.depth == 0
      requires m.body.Request? ==> IsInt64(m.body.payload.amount)
      modifies db`committed, db`view, db`turn, db`hold, db`depth, db`log
      ensures db.Valid() && db.Clear() && db.depth == 0 && Later(old(db.committed), db.committed)
      ensures Later(old(db.committed), at) && DbInv(at)
      ensures c.None? ==> db.committed == at
      ensures c.Some? ==> v == Acked && Legal(at, c.value) && db.committed == Apply(at, c.value)
      ensures c.Some? ==> DeliveryOf(c.value) == Some(Arrival(m))
      ensures Explains(old(db.committed), seen, db.committed, m, v)
      ensures v == Acked && m.body.Request? && m.body.messageId != NO_NAME ==> m.body.messageId in db.committed.inbox
      ensures HandledOnce(old(db.log), v, at, c)
      ensures MessageId(m) in old(db.committed).inbox ==> c == None
      ensures Recorded(old(db.committed), m) && Wellformed(m) ==> v == Acked
      ensures MessageId(m) in old(db.committed).inbox && old(db.committed).inbox[MessageId(m)].body != m.body ==>
                v.Permanent?
      ensures !Wellformed(m) ==> v == Permanent(Invalid)
      ensures Wellformed(m) && Conflicting(old(db.committed), m.body.key, m.body.payload) ==>
                v == Acked || v == Permanent(IdempotencyConflict)
      ensures Wellformed(m) && NameIsTaken(old(db.committed), m.body.payload) ==> v == Permanent(IdempotencyConflict)
    {
      ghost var start := db.committed;
      at, c, seen := start, None, Reads(start, start, start, start);
      LaterReflexive(at);
      if m.body.Malformed? || MessageId(m) == NO_NAME || !ValidCommand(m.body.key, m.body.payload) {
        return Permanent(Invalid), at, c, seen;
      }
      v, at, c, seen := HandleWellformed(m);
    }

    /** Opens the transaction and claims the message id. */
    method Claim(m: Message) returns (existing: Option<InboxRow>)
      requires db.Valid() && db.Clear() && db.depth == 0 && m.body.Request?
      modifies db`committed, db`view, db`turn, db`hold, db`depth
      ensures db.Valid() && db.Clear() && Later(old(db.committed), db.committed) && db.depth == 1
      ensures if existing.Some? then db.hold.claim == None && MessageId(m) in db.committed.inbox
                                     && existing.value == db.committed.inbox[MessageId(m)]
              else Open(Arrival(m)) && MessageId(m) !in db.committed.inbox
      ensures var p := m.body.payload;
              && (NameIsTaken(old(db.committed), p) ==> NameIsTaken(db.committed, p) && !Recorded(db.committed, m))
              && (Conflicting(old(db.committed), m.body.key, p) ==> Conflicting(db.committed, m.body.key, p))
    {
      ghost var start := db.committed;
      db.Begin();
      var now := db.Now();
      db.Yield();
      TakenStaysTaken(start, db.committed, m);
      existing := db.ClaimInbox(MessageId(m), m.body);
    }

    method HandleWellformed(m: Message) returns (v: Verdict, ghost at: Db, ghost c: Option<Commit>, ghost seen: Reads)
      requires wager.db == db && Wellformed(m) && IsInt64(m.body.payload.amount)
      requires db.Valid() && db.Clear() && db.depth == 0
      modifies db`committed, db`view, db`turn, db`hold, db`depth, db`log
      ensures db.Valid() && db.Clear() && db.depth == 0 && Later(old(db.committed), db.committed)
      ensures Later(old(db.committed), at) && DbInv(at)
      ensures c.None? ==> db.committed == at
      ensures c.Some? ==> v == Acked && Legal(at, c.value) && db.committed == Apply(at, c.value)
      ensures c.Some? ==> DeliveryOf(c.value) == Some(Arrival(m))
      ensures Explains(old(db.committed), seen, db.committed, m, v) && HandledOnce(old(db.log), v, at, c)
      ensures MessageId(m) in old(db.committed).inbox ==> c == None
      ensures Recorded(old(db.committed), m) ==> v == Acked
      ensures MessageId(m) in old(db.committed).inbox && old(db.committed).inbox[MessageId(m)].body != m.body ==>
                v.Permanent?
      ensures Conflicting(old(db.committed), m.body.key, m.body.payload) ==>
                v == Acked || v == Permanent(IdempotencyConflict)
      ensures NameIsTaken(old(db.committed), m.body.payload) ==> v == Permanent(IdempotencyConflict)
    {
      ghost var start := db.committed;
      var existing := Claim(m);
      ghost var d := db.committed;
      at, c, seen := d, None, Reads(d, d, d, d);
      if existing.Some? {
        v := Redelivered(m, existing.value);
        return;
      }
      v, at, c, seen := HandleClaimed(m, start);
    }

    /** A message id that was claimed before: the same body is a duplicate, any other is
        refused. */
    method Redelivered(m: Message, existing: InboxRow) returns (v: Verdict)
      requires db.Valid() && db.Clear() && db.depth == 1 && db.hold.claim == None
      requires MessageId(m) in db.committed.inbox && existing == db.committed.inbox[MessageId(m)]
      modifies db`committed, db`view, db`hold, db`depth, db`log
      ensures db.Valid() && db.Clear() && db.depth == 0 && db.committed == old(db.committed)
      ensures v == if existing.body == m.body then Acked else Permanent(IdempotencyConflict)
      ensures HandledOnce(old(db.log), v, db.committed, None)
      ensures v == Acked ==> Recorded(db.committed, m)
    {
      if existing.body != m.body {
        db.Rollback(None);
        return Permanent(IdempotencyConflict);
      }
      KnownBodyIsRecorded(db.committed, m);
      db.Release();
      return Acked;
    }

    /** What completing the inbox row will make of what the transaction has written. */
    ghost predicate Completes(d: Delivery, c: Commit)
      reads db
    {
      && db.Valid() && db.depth == 1 && Legal(db.committed, c)
      && d.message in db.view.inbox
      && db.view.(inbox := db.view.inbox[d.message := db.view.inbox[d.message].(completed := true)])
          == Apply(db.committed, c)
    }

    /** Completes the inbox row and commits everything at once. */
    method Complete(d: Delivery, ghost c: Commit)
      requires Completes(d, c)
      modifies db`committed, db`view, db`hold, db`depth, db`log
      ensures db.Valid() && db.Clear() && db.depth == 0
      ensures db.committed == Apply(old(db.committed), c) && Later(old(db.committed), db.committed)
      ensures db.log == old(db.log) + [Published(old(db.committed), db.committed)]
    {
      CommitKeepsInv(db.committed, c);
      var error := db.CompleteInbox(d.message);
      db.Release();
    }

    /** The rest of the transaction of a message claimed for the first time. */
    method HandleClaimed(m: Message, ghost start: Db)
      returns (v: Verdict, ghost at: Db, ghost c: Option<Commit>, ghost seen: Reads)
      requires wager.db == db && Later(start, db.committed)
      requires Wellformed(m) && Open(Arrival(m)) && IsInt64(m.body.payload.amount)
      modifies db`committed, db`view, db`turn, db`hold, db`depth, db`log
      ensures db.Valid() && db.Clear() && db.depth == 0
      ensures Later(start, at) && Later(start, db.committed) && DbInv(at)
      ensures c.None? ==> db.committed == at && v != Acked
      ensures c.Some? ==> v == Acked && Legal(at, c.value) && db.committed == Apply(at, c.value)
      ensures c.Some? ==> DeliveryOf(c.value) == Some(Arrival(m))
      ensures Explains(start, seen, db.committed, m, v) && HandledOnce(old(db.log), v, at, c)
      ensures Conflicting(old(db.committed), m.body.key, m.body.payload) ==>
                v == Acked || v == Permanent(IdempotencyConflict)
      ensures NameIsTaken(old(db.committed), m.body.payload) ==> v == Permanent(IdempotencyConflict)
    {
      ghost var d := db.committed;
      var r;
      ghost var op, done;
      r, at, op, done, seen := wager.Process(m.body.key, m.body.payload);
      at := db.committed;
      TakenIsOwedAConflict(d, at, m.body.payload, r);
      if r.Err? {
        FailureIsFiled(start, d, seen, at, m, r.error);
      }
      v, c := Finish(m, r, op, done);
      LaterThrice(start, d, at, db.committed);
    }

    /** Undoes everything after a failure; otherwise records the message. */
    method Finish(m: Message, r: Result<Outcome, Failure>, ghost op: Op, ghost done: Commit)
      returns (v: Verdict, ghost c: Option<Commit>)
      requires m.body.Request? && db.depth == 1 && db.hold.claim == Some(Arrival(m))
      requires wager.db == db && wager.Tried(m.body.key, m.body.payload, r, op, done)
      modifies db`committed, db`view, db`hold, db`depth, db`log
      ensures db.Valid() && db.Clear() && db.depth == 0 && Later(old(db.committed), db.committed)
      ensures r.Err? ==> c == None && db.committed == old(db.committed) && v == Classify(r.error)
      ensures r.Ok? ==> v == Acked && c.Some? && Legal(old(db.committed), c.value)
                        && db.committed == Apply(old(db.committed), c.value) && Recorded(db.committed, m)
                        && DeliveryOf(c.value) == Some(Arrival(m))
      ensures HandledOnce(old(db.log), v, old(db.committed), c)
    {
      if r.Err? {
        LaterReflexive(db.committed);
        db.Rollback(None);
        return Classify(r.error), None;
      }
      ghost var made := Record(m, r.value, op, done);
      return Acked, Some(made);
    }

    /** After a successful submission, new or replayed, the message can be completed. */
    method Record(m: Message, out: Outcome, ghost op: Op, ghost done: Commit) returns (ghost c: Commit)
      requires m.body.Request? && db.depth == 1 && db.hold.claim == Some(Arrival(m))
      requires wager.db == db && wager.Tried(m.body.key, m.body.payload, Ok(out), op, done)
      modifies db`committed, db`view, db`hold, db`depth, db`log
      ensures db.Valid() && db.Clear() && db.depth == 0
      ensures Legal(old(db.committed), c) && db.committed == Apply(old(db.committed), c)
              && DeliveryOf(c) == Some(Arrival(m))
      ensures Later(old(db.committed), db.committed) && Recorded(db.committed, m)
      ensures db.log == old(db.log) + [Published(old(db.committed), db.committed)]
    {
      var d := Arrival(m);
      c := if out.replay then Replayed(d) else WithDelivery(done, d);
      if out.replay {
        ReplayIsCommit(db.committed, d, out.tx);
      } else {
        DeliveryIsCommit(db.committed, done, d);
      }
      DeliveredIsRecorded(db.committed, c, m);
      Complete(d, c);
    }
  }

  lemma DeliveredIsRecorded(at: Db, c: Commit, m: Message)
    requires DbInv(at) && Legal(at, c) && DeliveryOf(c) == Some(Arrival(m))
    ensures Recorded(Apply(at, c), m)
  {
    CommitKeepsInv(at, c);
    KnownBodyIsRecorded(Apply(at, c), m);
  }
}
