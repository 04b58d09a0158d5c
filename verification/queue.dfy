/** The queue around the handler: deliveries to any number of pollers, acknowledgement,
    routing to the dead-letter queue, crashes and redelivery. */
module Queues {
  import opened Domain
  import opened Tables
  import opened Invariants
  import opened Progress
  import opened Safety
  import opened Moneys
  import opened Databases
  import opened Conclusions
  import opened Consumers
  import I = Interleaving

  /** Distinguishes the messages of the queue. */
  type Ticket = nat

  type Worker = nat

  // ----- the protocol -----------------------------------------------------------------

  /** A delivery in progress. Between any two of its stages the worker may be lost. */
  datatype Stage = Handling | Confirmed | Refused | Routed

  datatype Work = Work(ticket: Ticket, message: Message, stage: Stage)

  datatype World = World(
    db: Db,
    sent: map<Ticket, Message>,
    queue: map<Ticket, Message>,
    dlq: set<Message>,
    works: map<Worker, Work>)

  datatype Happening =
    | Send(ticket: Ticket, message: Message)
    | Receive(w: Worker, ticket: Ticket)
    | Elsewhere(d: Db)
    | CommitOwn(w: Worker, c: Commit)
    | Confirm(w: Worker)
    | Refuse(w: Worker)
    | Leave(w: Worker)
    | Route(w: Worker)
    | Delete(w: Worker)
    | Redrive(ticket: Ticket)

  const DAWN := World(EMPTY, map[], map[], {}, map[])

  function Staged(s: World, w: Worker, stage: Stage): World
    requires w in s.works
  {
    s.(works := s.works[w := s.works[w].(stage := stage)])
  }

  predicate At(s: World, w: Worker, stage: Stage) {
    w in s.works && s.works[w].stage == stage
  }

  /** What a worker sees when the id of its message is taken: the same body or another. */
  predicate SeesSameBody(d: Db, m: Message) {
    MessageId(m) in d.inbox && d.inbox[MessageId(m)].body == m.body
  }

  /** A message in the queue may be received at any time by anyone, also while others still
      work on it. A worker confirms after its own commit, or when it finds the body in the
      inbox; it may refuse or leave its message for any reason. */
  ghost function Happens(s: World, h: Happening): World {
    match h
    case Send(t, m) => if t in s.sent then s else s.(sent := s.sent[t := m], queue := s.queue[t := m])
    case Receive(w, t) =>
      if w in s.works || t !in s.queue then s else s.(works := s.works[w := Work(t, s.queue[t], Handling)])
    case Elsewhere(d) => if DbInv(d) && Later(s.db, d) then s.(db := d) else s
    case CommitOwn(w, c) =>
      if At(s, w, Handling) && Legal(s.db, c) && DeliveryOf(c) == Some(Arrival(s.works[w].message))
      then Staged(s, w, Confirmed).(db := Apply(s.db, c)) else s
    case Confirm(w) =>
      if At(s, w, Handling) && SeesSameBody(s.db, s.works[w].message) then Staged(s, w, Confirmed) else s
    case Refuse(w) => if At(s, w, Handling) then Staged(s, w, Refused) else s
    case Leave(w) => s.(works := s.works - {w})
    case Route(w) => if At(s, w, Refused) then Staged(s, w, Routed).(dlq := s.dlq + {s.works[w].message}) else s
    case Delete(w) =>
      if At(s, w, Confirmed) || At(s, w, Routed)
      then s.(queue := s.queue - {s.works[w].ticket}, works := s.works - {w}) else s
    case Redrive(t) => if t in s.queue then s.(queue := s.queue - {t}, dlq := s.dlq + {s.queue[t]}) else s
  }

  ghost function History(hs: seq<Happening>): World {
    if hs == [] then DAWN else Happens(History(hs[..|hs| - 1]), hs[|hs| - 1])
  }

  lemma HistoryOfMore(hs: seq<Happening>, h: Happening)
    ensures History(hs + [h]) == Happens(History(hs), h)
  {
    assert (hs + [h])[..|hs|] == hs;
  }

  /** Where a message that was sent can be. */
  ghost predicate Kept(s: World, t: Ticket)
    requires t in s.sent
  {
    || (t in s.queue && s.queue[t] == s.sent[t])
    || s.sent[t] in s.dlq
    || Recorded(s.db, s.sent[t])
  }

  ghost predicate WorkHolds(s: World, work: Work) {
    && work.ticket in s.sent && s.sent[work.ticket] == work.message
    && (work.stage == Confirmed ==> Recorded(s.db, work.message))
    && (work.stage == Routed ==> work.message in s.dlq)
  }

  ghost predicate WorldHolds(s: World) {
    && DbInv(s.db)
    && (forall t :: t in s.sent ==> Kept(s, t))
    && (forall t :: t in s.queue ==> t in s.sent && s.queue[t] == s.sent[t])
    && (forall w :: w in s.works ==> WorkHolds(s, s.works[w]))
    && (forall m :: m in s.dlq ==> exists t :: t in s.sent && s.sent[t] == m)
  }

  lemma TablesKeepWorld(s: World, d: Db)
    requires WorldHolds(s) && DbInv(d) && Later(s.db, d)
    ensures WorldHolds(s.(db := d))
  {
    var after := s.(db := d);
    forall t | t in after.sent ensures Kept(after, t) {
      assert Kept(s, t);
      if Recorded(s.db, s.sent[t]) {
        RecordedPersists(s.db, d, s.sent[t]);
      }
    }
    forall w | w in after.works ensures WorkHolds(after, after.works[w]) {
      assert WorkHolds(s, s.works[w]);
      if s.works[w].stage == Confirmed {
        RecordedPersists(s.db, d, s.works[w].message);
      }
    }
  }

  lemma StageKeepsWorld(s: World, w: Worker, stage: Stage)
    requires WorldHolds(s) && w in s.works
    requires stage == Confirmed ==> Recorded(s.db, s.works[w].message)
    requires stage == Routed ==> s.works[w].message in s.dlq
    ensures WorldHolds(Staged(s, w, stage))
  {
    var after := Staged(s, w, stage);
    forall t | t in after.sent ensures Kept(after, t) {
      assert Kept(s, t);
    }
    forall v | v in after.works ensures WorkHolds(after, after.works[v]) {
      assert WorkHolds(s, s.works[v]);
    }
  }

  /** The commit of a message's operation leaves the message recorded. */
  lemma OwnCommitKeepsWorld(s: World, w: Worker, c: Commit)
    requires WorldHolds(s)
    ensures WorldHolds(Happens(s, CommitOwn(w, c)))
  {
    if At(s, w, Handling) && Legal(s.db, c) && DeliveryOf(c) == Some(Arrival(s.works[w].message)) {
      CommitKeepsInv(s.db, c);
      DeliveredIsRecorded(s.db, c, s.works[w].message);
      TablesKeepWorld(s, Apply(s.db, c));
      StageKeepsWorld(s.(db := Apply(s.db, c)), w, Confirmed);
    }
  }

  /** A body found in the inbox is recorded, with its operation. */
  lemma ConfirmKeepsWorld(s: World, w: Worker)
    requires WorldHolds(s)
    ensures WorldHolds(Happens(s, Confirm(w)))
  {
    if At(s, w, Handling) && SeesSameBody(s.db, s.works[w].message) {
      KnownBodyIsRecorded(s.db, s.works[w].message);
      StageKeepsWorld(s, w, Confirmed);
    }
  }

  lemma WorkersKeepWorld(s: World, h: Happening)
    requires WorldHolds(s) && (h.Receive? || h.Refuse? || h.Leave?)
    ensures WorldHolds(Happens(s, h))
  {
    var after := Happens(s, h);
    forall t | t in after.sent ensures Kept(after, t) {
      assert Kept(s, t);
    }
    forall w | w in after.works ensures WorkHolds(after, after.works[w]) {
      assert w in s.works ==> WorkHolds(s, s.works[w]);
    }
  }

  lemma SendKeepsWorld(s: World, h: Happening)
    requires WorldHolds(s) && h.Send?
    ensures WorldHolds(Happens(s, h))
  {
    var after := Happens(s, h);
    forall t | t in after.sent ensures Kept(after, t) {
      assert t in s.sent ==> Kept(s, t);
    }
    forall w | w in after.works ensures WorkHolds(after, after.works[w]) {
      assert WorkHolds(s, s.works[w]);
    }
    forall m | m in after.dlq ensures exists t :: t in after.sent && after.sent[t] == m {
      var t :| t in s.sent && s.sent[t] == m;
      assert after.sent[t] == m;
    }
  }

  lemma RouteKeepsWorld(s: World, w: Worker)
    requires WorldHolds(s)
    ensures WorldHolds(Happens(s, Route(w)))
  {
    var after := Happens(s, Route(w));
    assert w in s.works ==> WorkHolds(s, s.works[w]);
    forall t | t in after.sent ensures Kept(after, t) {
      assert Kept(s, t);
    }
    forall v | v in after.works ensures WorkHolds(after, after.works[v]) {
      assert WorkHolds(s, s.works[v]);
    }
  }

  lemma RedriveKeepsWorld(s: World, t: Ticket)
    requires WorldHolds(s)
    ensures WorldHolds(Happens(s, Redrive(t)))
  {
    var after := Happens(s, Redrive(t));
    forall k | k in after.sent ensures Kept(after, k) {
      assert Kept(s, k);
    }
    forall w | w in after.works ensures WorkHolds(after, after.works[w]) {
      assert WorkHolds(s, s.works[w]);
    }
  }

  lemma DeleteKeepsWorld(s: World, w: Worker)
    requires WorldHolds(s)
    ensures WorldHolds(Happens(s, Delete(w)))
  {
    var after := Happens(s, Delete(w));
    assert w in s.works ==> WorkHolds(s, s.works[w]);
    forall t | t in after.sent ensures Kept(after, t) {
      assert Kept(s, t);
    }
    forall v | v in after.works ensures WorkHolds(after, after.works[v]) {
      assert WorkHolds(s, s.works[v]);
    }
  }

  lemma HappeningKeepsWorld(s: World, h: Happening)
    requires WorldHolds(s)
    ensures WorldHolds(Happens(s, h))
  {
    match h
    case Send(_, _) => SendKeepsWorld(s, h);
    case Elsewhere(d) => if DbInv(d) && Later(s.db, d) { TablesKeepWorld(s, d); }
    case CommitOwn(w, c) => OwnCommitKeepsWorld(s, w, c);
    case Confirm(w) => ConfirmKeepsWorld(s, w);
    case Route(w) => RouteKeepsWorld(s, w);
    case Redrive(t) => RedriveKeepsWorld(s, t);
    case Delete(w) => DeleteKeepsWorld(s, w);
    case _ => WorkersKeepWorld(s, h);
  }

  lemma {:induction false} HistoryHolds(hs: seq<Happening>)
    ensures WorldHolds(History(hs))
  {
    if hs == [] {
      EmptyInv();
    } else {
      HistoryHolds(hs[..|hs| - 1]);
      HappeningKeepsWorld(History(hs[..|hs| - 1]), hs[|hs| - 1]);
    }
  }

  /** Main result: acknowledged, routed, redelivered or cut off at any point, a message that
      has left the queue is in the dead-letter queue or durably recorded; and nothing is in
      the dead-letter queue that was not sent. */
  lemma NoMessageIsLost(hs: seq<Happening>, t: Ticket)
    requires t in History(hs).sent
    ensures var s := History(hs);
            t !in s.queue ==> s.sent[t] in s.dlq || Recorded(s.db, s.sent[t])
    ensures forall m :: m in History(hs).dlq ==> exists u :: u in History(hs).sent && History(hs).sent[u] == m
  {
    HistoryHolds(hs);
    assert Kept(History(hs), t);
  }

  // ----- the wager protocol underneath --------------------------------------------------

  /** Whatever the operations of the service do meanwhile happens elsewhere. */
  lemma RunsHappenElsewhere(s: World, steps: seq<I.Step>, more: seq<I.Step>)
    requires s.db == I.Run(steps).db
    ensures Happens(s, Elsewhere(I.Run(steps + more).db)) == s.(db := I.Run(steps + more).db)
  {
    I.RunKeepsInv(steps + more);
    I.RunAdvances(steps, more);
    HappensElsewhere(s, I.Run(steps + more).db);
  }

  lemma HappensElsewhere(s: World, d: Db)
    requires DbInv(d) && Later(s.db, d)
    ensures Happens(s, Elsewhere(d)) == s.(db := d)
  {
  }

  /** The step that finishes an operation together with the message a worker has received is
      that worker's own commit. */
  lemma FinishIsOwnCommit(s: World, w: Worker, steps: seq<I.Step>, step: I.Step)
    requires s.db == I.Run(steps).db && At(s, w, Handling)
    requires I.CommitAt(I.Run(steps), step).Some?
    requires DeliveryOf(I.CommitAt(I.Run(steps), step).value) == Some(Arrival(s.works[w].message))
    ensures var c := I.CommitAt(I.Run(steps), step).value;
            Happens(s, CommitOwn(w, c)) == Staged(s, w, Confirmed).(db := I.Run(steps + [step]).db)
  {
    I.RunKeepsInv(steps);
    I.StepRefines(I.Run(steps), step);
    I.RunOfMore(steps, [step]);
    Confirms(s, w, I.CommitAt(I.Run(steps), step));
  }

  /** In every run every committed inbox row is complete and its operation is stored. */
  lemma InboxIsComplete(steps: seq<I.Step>, message: Name)
    requires message in I.Run(steps).db.inbox
    ensures I.Run(steps).db.inbox[message].completed
    ensures exists id :: id in I.Run(steps).db.txs
                         && Carries(I.Run(steps).db.inbox[message].body, I.Run(steps).db.txs[id])
  {
    I.RunKeepsInv(steps);
    InvNotices(I.Run(steps).db);
    assert MessageHolds(I.Run(steps).db.txs, I.Run(steps).db.inbox[message]);
  }

  // ----- one delivery -----------------------------------------------------------------

  lemma Received(past: seq<Happening>, w: Worker, ticket: Ticket, at: Db) returns (hs: seq<Happening>)
    requires ticket in History(past).queue && w !in History(past).works
    requires DbInv(at) && Later(History(past).db, at)
    ensures past <= hs
    ensures var s := History(past);
            History(hs) == s.(db := at, works := s.works[w := Work(ticket, s.queue[ticket], Handling)])
  {
    HistoryOfMore(past, Receive(w, ticket));
    HistoryOfMore(past + [Receive(w, ticket)], Elsewhere(at));
    hs := past + [Receive(w, ticket)] + [Elsewhere(at)];
  }

  /** Where the queues are after a delivery with verdict v. */
  function QueueAfter(queue: map<Ticket, Message>, t: Ticket, v: Verdict, deleteFails: bool, routeFails: bool)
    : map<Ticket, Message>
  {
    if deleteFails || v.Transient? || (v.Permanent? && routeFails) then queue else queue - {t}
  }

  function DlqAfter(dlq: set<Message>, m: Message, v: Verdict, routeFails: bool): set<Message> {
    if v.Permanent? && !routeFails then dlq + {m} else dlq
  }

  /** Handed over: after its own commit, or because the body is in the inbox. */
  lemma Confirms(s: World, w: Worker, c: Option<Commit>)
    requires At(s, w, Handling)
    requires c.Some? ==> Legal(s.db, c.value) && DeliveryOf(c.value) == Some(Arrival(s.works[w].message))
    requires c.None? ==> SeesSameBody(s.db, s.works[w].message)
    ensures Happens(s, if c.Some? then CommitOwn(w, c.value) else Confirm(w))
            == Staged(s, w, Confirmed).(db := if c.Some? then Apply(s.db, c.value) else s.db)
  {
  }

  /** The end of a delivery in s, which may leave the message where it is. */
  lemma Ends(s: World, w: Worker, stage: Stage, deletes: bool)
    requires w in s.works && (deletes ==> stage == Confirmed || stage == Routed)
    ensures Happens(Staged(s, w, stage), if deletes then Delete(w) else Leave(w))
            == s.(queue := if deletes then s.queue - {s.works[w].ticket} else s.queue, works := s.works - {w})
  {
    assert s.works[w := s.works[w].(stage := stage)] - {w} == s.works - {w};
  }

  lemma Acknowledged(past: seq<Happening>, w: Worker, c: Option<Commit>, deleteFails: bool) returns (hs: seq<Happening>)
    requires var s := History(past);
             && At(s, w, Handling)
             && (c.Some? ==> Legal(s.db, c.value) && DeliveryOf(c.value) == Some(Arrival(s.works[w].message)))
             && (c.None? ==> SeesSameBody(s.db, s.works[w].message))
    ensures past <= hs
    ensures var s := History(past);
            History(hs) == s.(db := if c.Some? then Apply(s.db, c.value) else s.db,
                              queue := if deleteFails then s.queue else s.queue - {s.works[w].ticket},
                              works := s.works - {w})
  {
    var s := History(past);
    var done := if c.Some? then CommitOwn(w, c.value) else Confirm(w);
    var last := if deleteFails then Leave(w) else Delete(w);
    HistoryOfMore(past, done);
    HistoryOfMore(past + [done], last);
    Confirms(s, w, c);
    Ends(s.(db := if c.Some? then Apply(s.db, c.value) else s.db), w, Confirmed, !deleteFails);
    hs := past + [done] + [last];
  }

  lemma Rejected(past: seq<Happening>, w: Worker, deleteFails: bool, routeFails: bool) returns (hs: seq<Happening>)
    requires At(History(past), w, Handling)
    ensures past <= hs
    ensures var s := History(past);
            History(hs) == s.(queue := if deleteFails || routeFails then s.queue else s.queue - {s.works[w].ticket},
                              dlq := if routeFails then s.dlq else s.dlq + {s.works[w].message},
                              works := s.works - {w})
  {
    var s := History(past);
    HistoryOfMore(past, Refuse(w));
    hs := past + [Refuse(w)];
    if routeFails {
      HistoryOfMore(hs, Leave(w));
      Ends(s, w, Refused, false);
      hs := hs + [Leave(w)];
    } else {
      HistoryOfMore(hs, Route(w));
      hs := hs + [Route(w)];
      var last := if deleteFails then Leave(w) else Delete(w);
      HistoryOfMore(hs, last);
      Ends(s.(dlq := s.dlq + {s.works[w].message}), w, Routed, !deleteFails);
      assert Staged(Staged(s, w, Refused), w, Routed) == Staged(s, w, Routed);
      hs := hs + [last];
    }
  }

  /** What the poller does with one message, as happenings of the protocol. */
  ghost predicate Outcome(past: seq<Happening>, hs: seq<Happening>, ticket: Ticket, v: Verdict, now: Db,
                          deleteFails: bool, routeFails: bool)
    requires ticket in History(past).queue
  {
    var s, t := History(past), History(hs);
    && past <= hs && t.db == now && t.sent == s.sent && t.works == s.works
    && t.queue == QueueAfter(s.queue, ticket, v, deleteFails, routeFails)
    && t.dlq == DlqAfter(s.dlq, s.queue[ticket], v, routeFails)
  }

  lemma AckedOutcome(past: seq<Happening>, w: Worker, ticket: Ticket, at: Db, c: Option<Commit>, deleteFails: bool,
                     routeFails: bool)
    returns (hs: seq<Happening>)
    requires ticket in History(past).queue && w !in History(past).works
    requires DbInv(at) && Later(History(past).db, at)
    requires c.Some? ==> Legal(at, c.value) && DeliveryOf(c.value) == Some(Arrival(History(past).queue[ticket]))
    requires c.None? ==> SeesSameBody(at, History(past).queue[ticket])
    ensures Outcome(past, hs, ticket, Acked, if c.Some? then Apply(at, c.value) else at, deleteFails, routeFails)
  {
    var s := History(past);
    var seen := Received(past, w, ticket, at);
    assert s.works[w := Work(ticket, s.queue[ticket], Handling)] - {w} == s.works;
    hs := Acknowledged(seen, w, c, deleteFails);
  }

  lemma OtherOutcome(past: seq<Happening>, w: Worker, ticket: Ticket, v: Verdict, at: Db, deleteFails: bool,
                     routeFails: bool)
    returns (hs: seq<Happening>)
    requires ticket in History(past).queue && w !in History(past).works && v != Acked
    requires DbInv(at) && Later(History(past).db, at)
    ensures Outcome(past, hs, ticket, v, at, deleteFails, routeFails)
  {
    var s := History(past);
    var seen := Received(past, w, ticket, at);
    assert s.works[w := Work(ticket, s.queue[ticket], Handling)] - {w} == s.works;
    if v.Permanent? {
      hs := Rejected(seen, w, deleteFails, routeFails);
    } else {
      HistoryOfMore(seen, Leave(w));
      hs := seen + [Leave(w)];
    }
  }

  lemma Delivered(past: seq<Happening>, w: Worker, ticket: Ticket, v: Verdict, at: Db, c: Option<Commit>,
                  deleteFails: bool, routeFails: bool)
    returns (hs: seq<Happening>)
    requires ticket in History(past).queue && w !in History(past).works
    requires DbInv(at) && Later(History(past).db, at)
    requires c.Some? ==>
               v == Acked && Legal(at, c.value) && DeliveryOf(c.value) == Some(Arrival(History(past).queue[ticket]))
    requires c.None? && v == Acked ==> SeesSameBody(at, History(past).queue[ticket])
    ensures Outcome(past, hs, ticket, v, if c.Some? then Apply(at, c.value) else at, deleteFails, routeFails)
  {
    if v == Acked {
      hs := AckedOutcome(past, w, ticket, at, c, deleteFails, routeFails);
    } else {
      hs := OtherOutcome(past, w, ticket, v, at, deleteFails, routeFails);
    }
  }

  function InDlq(dlq: seq<Message>): set<Message> {
    set m | m in dlq
  }

  lemma InDlqAppends(dlq: seq<Message>, m: Message)
    ensures InDlq(dlq + [m]) == InDlq(dlq) + {m}
  {
  }

  class Poller {
    const handler: WagerHandler
    var queue: map<Ticket, Message>
    var dlq: seq<Message>

    constructor (handler: WagerHandler, queue: map<Ticket, Message>)
      ensures this.handler == handler && this.queue == queue && this.dlq == []
    {
      this.handler, this.queue, this.dlq := handler, queue, [];
    }

    /** The tables and queues are those of s. */
    ghost predicate Shows(s: World)
      reads this, handler.db
    {
      s.db == handler.db.committed && s.queue == queue && s.dlq == InDlq(dlq)
    }

    /** Handles one message and acknowledges it, routes it to the dead-letter queue, or leaves
        it to be delivered again; deleting and routing may fail. Whatever has happened before,
        what this comes to are happenings of the protocol. */
    method ProcessOne(ticket: Ticket, deleteFails: bool, routeFails: bool, ghost past: seq<Happening>, ghost w: Worker)
      returns (v: Verdict, ghost hs: seq<Happening>, ghost seen: Reads)
      requires ticket in queue && handler.wager.db == handler.db
      requires handler.db.Valid() && handler.db.Clear() && handler.db.depth == 0
      requires queue[ticket].body.Request? ==> IsInt64(queue[ticket].body.payload.amount)
      requires Shows(History(past)) && w !in History(past).works
      modifies this, handler.db`committed, handler.db`view, handler.db`turn, handler.db`hold, handler.db`depth,
               handler.db`log
      ensures handler.db.Valid() && handler.db.Clear() && handler.db.depth == 0
      ensures Later(old(handler.db.committed), handler.db.committed)
      ensures queue == if deleteFails || v.Transient? || (v.Permanent? && routeFails) then old(queue)
              else old(queue) - {ticket}
      ensures dlq == if v.Permanent? && !routeFails then old(dlq) + [old(queue)[ticket]] else old(dlq)
      ensures handler.Explains(old(handler.db.committed), seen, handler.db.committed, old(queue)[ticket], v)
      ensures v == Acked ==> Recorded(handler.db.committed, old(queue)[ticket])
      ensures old(handler.db.log) <= handler.db.log
      ensures |handler.db.log| == |old(handler.db.log)| + (if v == Acked then 1 else 0)
      ensures !Wellformed(old(queue)[ticket]) ==> v == Permanent(Invalid)
      ensures var m := old(queue)[ticket];
              Wellformed(m) && NameIsTaken(old(handler.db.committed), m.body.payload) ==>
                v == Permanent(IdempotencyConflict)
      ensures past <= hs && Shows(History(hs))
      ensures History(hs).sent == History(past).sent && History(hs).works == History(past).works
    {
      ghost var at, c;
      v, at, c, seen := handler.Handle(queue[ticket]);
      hs := Delivered(past, w, ticket, v, at, c, deleteFails, routeFails);
      InDlqAppends(dlq, queue[ticket]);
      if v == Acked {
        if deleteFails { return; }
        queue := queue - {ticket};
      } else if v.Permanent? {
        if routeFails { return; }
        dlq := dlq + [queue[ticket]];
        if deleteFails { return; }
        queue := queue - {ticket};
      }
    }
  }
}
