/** Any number of publishers on one outbox, with stalls, expired locks, lost answers and
    crashes: what the broker receives, and in which order. */
module Dispatch {
  import opened Domain
  import opened Outboxes

  type Pid = nat

  /** What a publisher is doing with the first event of its batch. */
  datatype Doing = Publishing | Received | Refused

  datatype Batch = Batch(events: seq<Claimed>, doing: Doing)

  /** The rows, everything the broker ever received, and the publishers at work. */
  datatype World = World(rows: Rows, log: seq<Sent>, pubs: map<Pid, Batch>)

  /** Clocks are the publishers' own: any instants may come in any order. */
  datatype Step =
    | Store(content: OutboxRow)
    | Claim(pid: Pid, name: Name, now: Time, ttl: nat, batch: seq<Claimed>)
    | Deliver(pid: Pid, answered: bool)
    | Refuse(pid: Pid)
    | Confirm(pid: Pid, now: Time)
    | Reschedule(pid: Pid, next: Time)
    | Skip(pid: Pid)
    | Crash(pid: Pid)

  const DAWN := World(map[], [], map[])

  function Head(s: World, pid: Pid): Claimed
    requires pid in s.pubs && s.pubs[pid].events != []
  {
    s.pubs[pid].events[0]
  }

  /** The publisher turns to the rest of its batch. */
  function Dropped(s: World, pid: Pid): World
    requires pid in s.pubs && s.pubs[pid].events != []
  {
    s.(pubs := s.pubs[pid := Batch(s.pubs[pid].events[1..], Publishing)])
  }

  predicate Busy(s: World, pid: Pid) {
    pid in s.pubs && s.pubs[pid].events != []
  }

  /** Deliver without an answer is followed by Refuse's outcome: the broker has the event,
      the publisher believes it failed. */
  function Next(s: World, step: Step): World {
    match step
    case Store(content) =>
      if content.id in s.rows then s
      else s.(rows := s.rows[content.id := Row(content, 0, content.occurredAt, None, None)])
    case Claim(pid, name, now, ttl, batch) =>
      if !Busy(s, pid) && Fair(s.rows, batch, now, ttl)
      then s.(rows := Locked(s.rows, IdsOf(batch), name, now), pubs := s.pubs[pid := Batch(batch, Publishing)])
      else s
    case Deliver(pid, answered) =>
      if Busy(s, pid) && s.pubs[pid].doing == Publishing
      then s.(log := s.log + [Sent(Head(s, pid).id, Head(s, pid).content)],
              pubs := s.pubs[pid := s.pubs[pid].(doing := if answered then Received else Refused)])
      else s
    case Refuse(pid) =>
      if Busy(s, pid) && s.pubs[pid].doing == Publishing
      then s.(pubs := s.pubs[pid := s.pubs[pid].(doing := Refused)]) else s
    case Confirm(pid, now) =>
      if Busy(s, pid) && s.pubs[pid].doing == Received
      then Dropped(s, pid).(rows := Outboxes.Confirmed(s.rows, Head(s, pid).id, now)) else s
    case Reschedule(pid, next) =>
      if Busy(s, pid) && s.pubs[pid].doing == Refused
      then Dropped(s, pid).(rows := Rescheduled(s.rows, Head(s, pid).id, next)) else s
    case Skip(pid) => if Busy(s, pid) && s.pubs[pid].doing != Publishing then Dropped(s, pid) else s
    case Crash(pid) => s.(pubs := s.pubs - {pid})
  }

  function Run(steps: seq<Step>): World {
    if steps == [] then DAWN else Next(Run(steps[..|steps| - 1]), steps[|steps| - 1])
  }

  // ----- delivered, then published ----------------------------------------------------

  predicate InLog(log: seq<Sent>, id: Uuid, content: OutboxRow) {
    Sent(id, content) in log
  }

  predicate RowDelivered(s: World, id: Uuid)
    requires id in s.rows
  {
    s.rows[id].published.Some? ==> InLog(s.log, id, s.rows[id].content)
  }

  predicate CopyHolds(s: World, e: Claimed) {
    e.id in s.rows && s.rows[e.id].content == e.content
  }

  predicate BatchHolds(s: World, b: Batch) {
    && (forall e :: e in b.events ==> CopyHolds(s, e))
    && (b.events != [] && b.doing == Received ==> InLog(s.log, b.events[0].id, b.events[0].content))
  }

  predicate LogHolds(s: World) {
    forall i :: 0 <= i < |s.log| ==>
      s.log[i].id in s.rows && s.rows[s.log[i].id].content == s.log[i].content
  }

  predicate WorldHolds(s: World) {
    && (forall id :: id in s.rows ==> RowDelivered(s, id))
    && (forall pid :: pid in s.pubs ==> BatchHolds(s, s.pubs[pid]))
    && LogHolds(s)
  }

  /** Rows advance and the log only grows. */
  predicate Later(s: World, t: World) {
    RowsAdvance(s.rows, t.rows) && s.log <= t.log
  }

  lemma StepAdvances(s: World, step: Step)
    ensures Later(s, Next(s, step))
  {
  }

  lemma LaterTransitive(s: World, t: World, u: World)
    requires Later(s, t) && Later(t, u)
    ensures Later(s, u)
  {
    RowsAdvanceTransitive(s.rows, t.rows, u.rows);
  }

  lemma BatchPersists(s: World, t: World, b: Batch)
    requires Later(s, t) && BatchHolds(s, b)
    ensures BatchHolds(t, b)
  {
    forall e | e in b.events ensures CopyHolds(t, e) {
      assert CopyHolds(s, e);
    }
  }

  lemma BatchesKept(s: World, step: Step)
    requires WorldHolds(s)
    ensures forall pid :: pid in Next(s, step).pubs ==> BatchHolds(Next(s, step), Next(s, step).pubs[pid])
  {
    var t := Next(s, step);
    StepAdvances(s, step);
    forall pid | pid in t.pubs
      ensures BatchHolds(t, t.pubs[pid])
    {
      if pid in s.pubs {
        assert BatchHolds(s, s.pubs[pid]);
        BatchPersists(s, t, s.pubs[pid]);
      }
      if step.Claim? && t != s && pid == step.pid {
        forall e | e in step.batch ensures CopyHolds(t, e) {
          assert Claimable(s.rows, e.id, step.now, step.ttl);
        }
      }
    }
  }

  lemma RowsKept(s: World, step: Step)
    requires WorldHolds(s)
    ensures forall id :: id in Next(s, step).rows ==> RowDelivered(Next(s, step), id)
  {
    var t := Next(s, step);
    StepAdvances(s, step);
    forall id | id in t.rows
      ensures RowDelivered(t, id)
    {
      if id in s.rows {
        assert RowDelivered(s, id);
      }
      if step.Confirm? && Busy(s, step.pid) {
        assert BatchHolds(s, s.pubs[step.pid]);
        assert CopyHolds(s, Head(s, step.pid));
      }
    }
  }

  lemma LogKept(s: World, step: Step)
    requires WorldHolds(s)
    ensures LogHolds(Next(s, step))
  {
    StepAdvances(s, step);
    if step.Deliver? && Busy(s, step.pid) {
      assert BatchHolds(s, s.pubs[step.pid]);
      assert CopyHolds(s, Head(s, step.pid));
    }
  }

  lemma StepKeepsWorld(s: World, step: Step)
    requires WorldHolds(s)
    ensures WorldHolds(Next(s, step))
  {
    BatchesKept(s, step);
    RowsKept(s, step);
    LogKept(s, step);
  }

  lemma {:induction false} RunHolds(steps: seq<Step>)
    ensures WorldHolds(Run(steps))
  {
    if steps != [] {
      RunHolds(steps[..|steps| - 1]);
      StepKeepsWorld(Run(steps[..|steps| - 1]), steps[|steps| - 1]);
    }
  }

  lemma {:induction false} RunAdvances(steps: seq<Step>, more: seq<Step>)
    ensures Later(Run(steps), Run(steps + more))
  {
    if more == [] {
      assert steps + more == steps;
    } else {
      var init := more[..|more| - 1];
      assert (steps + more)[..|steps + more| - 1] == steps + init;
      RunAdvances(steps, init);
      StepAdvances(Run(steps + init), more[|more| - 1]);
      LaterTransitive(Run(steps), Run(steps + init), Run(steps + more));
    }
  }

  /** A published event was delivered with its stored id and snapshot. */
  lemma PublishedWasDelivered(steps: seq<Step>, id: Uuid)
    requires id in Run(steps).rows && Run(steps).rows[id].published.Some?
    ensures Sent(id, Run(steps).rows[id].content) in Run(steps).log
  {
    RunHolds(steps);
    assert RowDelivered(Run(steps), id);
  }

  /** Once published, always published: no stale reschedule, late confirmation or expired
      claim touches the row again. */
  lemma PublishedIsForever(steps: seq<Step>, more: seq<Step>, id: Uuid)
    requires id in Run(steps).rows && Run(steps).rows[id].published.Some?
    ensures id in Run(steps + more).rows && Run(steps + more).rows[id] == Run(steps).rows[id]
  {
    RunAdvances(steps, more);
  }

  // ----- order within a stream ----------------------------------------------------------

  predicate InLogBefore(log: seq<Sent>, id: Uuid, n: int) {
    exists i :: 0 <= i < n <= |log| && log[i].id == id
  }

  /** Every delivery comes after a delivery of each event that precedes it in its stream:
      first deliveries are in order. */
  predicate InOrder(s: World) {
    forall j, a :: 0 <= j < |s.log| && a in s.rows && Precedes(s.rows, a, s.log[j].id) ==> InLogBefore(s.log, a, j)
  }

  /** The broker has the event, or a publisher still may hand it over without asking the
      table again. */
  ghost predicate Exposed(s: World, b: Uuid) {
    (exists i :: 0 <= i < |s.log| && s.log[i].id == b) || exists pid, k :: Held(s, pid, k, b)
  }

  predicate Held(s: World, pid: Pid, k: int, b: Uuid) {
    && pid in s.pubs && 0 <= k < |s.pubs[pid].events| && s.pubs[pid].events[k].id == b
    && (k == 0 ==> s.pubs[pid].doing == Publishing)
  }

  /** Whatever precedes an exposed event has been published. */
  ghost predicate ExposedInOrder(s: World) {
    forall a, b :: Exposed(s, b) && Precedes(s.rows, a, b) ==> s.rows[a].published.Some?
  }

  /** The event to be stored comes after every exposed event of its stream. */
  ghost predicate Timely(s: World, step: Step) {
    step.Store? && step.content.id !in s.rows ==>
      forall b :: Exposed(s, b) ==> !Precedes(Next(s, step).rows, step.content.id, b)
  }

  ghost predicate AlwaysTimely(steps: seq<Step>) {
    steps == [] || (AlwaysTimely(steps[..|steps| - 1]) && Timely(Run(steps[..|steps| - 1]), steps[|steps| - 1]))
  }

  lemma PrecedenceIsKept(s: World, step: Step, a: Uuid, b: Uuid)
    requires a in s.rows && b in s.rows
    ensures Precedes(Next(s, step).rows, a, b) <==> Precedes(s.rows, a, b)
  {
    StepAdvances(s, step);
  }

  /** Only a claim exposes anything new. */
  lemma ExposureComesFromClaims(s: World, step: Step, b: Uuid)
    requires WorldHolds(s) && Exposed(Next(s, step), b)
    ensures b in s.rows
    ensures Exposed(s, b) || (step.Claim? && Claimable(s.rows, b, step.now, step.ttl))
  {
    var t := Next(s, step);
    if exists i :: 0 <= i < |t.log| && t.log[i].id == b {
      var i :| 0 <= i < |t.log| && t.log[i].id == b;
      if i < |s.log| {
        assert s.log[i].id == b;
      } else {
        assert BatchHolds(s, s.pubs[step.pid]) && CopyHolds(s, Head(s, step.pid));
        assert Held(s, step.pid, 0, b);
      }
    } else {
      var pid, k :| Held(t, pid, k, b);
      if step.Claim? && t != s && pid == step.pid {
        assert step.batch[k] in step.batch;
      } else {
        HeldBefore(s, step, pid, k, b);
      }
    }
  }

  lemma HeldBefore(s: World, step: Step, pid: Pid, k: int, b: Uuid)
    requires WorldHolds(s) && Held(Next(s, step), pid, k, b)
    requires step.Claim? && Next(s, step) != s ==> pid != step.pid
    ensures b in s.rows && exists i :: Held(s, pid, i, b)
  {
    var t := Next(s, step);
    assert BatchHolds(s, s.pubs[pid]);
    if t.pubs[pid].events == s.pubs[pid].events {
      assert CopyHolds(s, s.pubs[pid].events[k]);
      assert Held(s, pid, k, b);
    } else {
      assert t.pubs[pid].events == s.pubs[pid].events[1..];
      assert CopyHolds(s, s.pubs[pid].events[k + 1]);
      assert Held(s, pid, k + 1, b);
    }
  }

  lemma ExposedStayInOrder(s: World, step: Step)
    requires WorldHolds(s) && ExposedInOrder(s) && Timely(s, step)
    ensures ExposedInOrder(Next(s, step))
  {
    var t := Next(s, step);
    StepAdvances(s, step);
    forall a, b | Exposed(t, b) && Precedes(t.rows, a, b)
      ensures t.rows[a].published.Some?
    {
      ExposureComesFromClaims(s, step, b);
      if a in s.rows {
        PrecedenceIsKept(s, step, a, b);
      }
    }
  }

  lemma LogStaysInOrder(s: World, step: Step)
    requires WorldHolds(s) && ExposedInOrder(s) && InOrder(s) && Timely(s, step)
    ensures InOrder(Next(s, step))
  {
    var t := Next(s, step);
    StepAdvances(s, step);
    forall j, a | 0 <= j < |t.log| && a in t.rows && Precedes(t.rows, a, t.log[j].id)
      ensures InLogBefore(t.log, a, j)
    {
      if j < |s.log| {
        assert t.log[j] == s.log[j] && Exposed(s, s.log[j].id);
        if a in s.rows {
          PrecedenceIsKept(s, step, a, s.log[j].id);
          assert InLogBefore(s.log, a, j);
          var i :| 0 <= i < j && s.log[i].id == a;
          assert t.log[i].id == a;
        }
      } else {
        assert BatchHolds(s, s.pubs[step.pid]) && CopyHolds(s, Head(s, step.pid));
        assert Held(s, step.pid, 0, Head(s, step.pid).id);
        assert RowDelivered(s, a);
        var i :| 0 <= i < |s.log| && s.log[i] == Sent(a, s.rows[a].content);
        assert t.log[i].id == a;
      }
    }
  }

  /** Main result: as long as no event is stored below an exposed one of its stream, first
      deliveries follow (occurred_at, event_id), whatever publishers do. */
  lemma {:induction false} FirstDeliveriesAreInOrder(steps: seq<Step>)
    requires AlwaysTimely(steps)
    ensures InOrder(Run(steps)) && ExposedInOrder(Run(steps))
  {
    if steps != [] {
      var init := steps[..|steps| - 1];
      FirstDeliveriesAreInOrder(init);
      RunHolds(init);
      ExposedStayInOrder(Run(init), steps[|steps| - 1]);
      LogStaysInOrder(Run(init), steps[|steps| - 1]);
    }
  }

  // ----- the condition is exact -----------------------------------------------------------

  predicate NoStores(steps: seq<Step>) {
    forall i :: 0 <= i < |steps| ==> !steps[i].Store?
  }

  lemma {:induction false} TimelyFromHere(steps: seq<Step>, more: seq<Step>)
    requires AlwaysTimely(steps) && NoStores(more)
    ensures AlwaysTimely(steps + more)
  {
    if more == [] {
      assert steps + more == steps;
    } else {
      var init := more[..|more| - 1];
      assert (steps + more)[..|steps + more| - 1] == steps + init;
      assert (steps + more)[|steps + more| - 1] == more[|more| - 1];
      TimelyFromHere(steps, init);
    }
  }

  lemma RunOfOne(steps: seq<Step>, x: Step)
    ensures Run(steps + [x]) == Next(Run(steps), x)
  {
    assert (steps + [x])[..|steps|] == steps;
  }

  predicate Undelivered(s: World, a: Uuid) {
    a in s.rows && forall i :: 0 <= i < |s.log| ==> s.log[i].id != a
  }

  /** A step by which a publisher comes closer to event k of its batch. */
  function Closer(s: World, pid: Pid): Step
    requires pid in s.pubs
  {
    if s.pubs[pid].doing == Publishing then Refuse(pid) else Skip(pid)
  }

  lemma StillAhead(s: World, a: Uuid, b: Uuid, pid: Pid, k: nat)
    requires Held(s, pid, k, b) && Precedes(s.rows, a, b) && Undelivered(s, a) && 0 < k
    ensures var t := Next(s, Closer(s, pid));
            && Held(t, pid, if s.pubs[pid].doing == Publishing then k else k - 1, b)
            && Precedes(t.rows, a, b) && Undelivered(t, a)
            && (s.pubs[pid].doing == Publishing ==> t.pubs[pid].doing != Publishing)
  {
  }

  lemma HandedOver(s: World, a: Uuid, b: Uuid, pid: Pid)
    requires Held(s, pid, 0, b) && Precedes(s.rows, a, b) && Undelivered(s, a)
    ensures !InOrder(Next(s, Deliver(pid, true)))
  {
    var t := Next(s, Deliver(pid, true));
    assert t.log[|s.log|].id == b && !InLogBefore(t.log, a, |s.log|);
  }

  /** A publisher that has come to b hands it over, whatever has been stored meanwhile. */
  lemma {:induction false} Overtakes(steps: seq<Step>, a: Uuid, b: Uuid, pid: Pid, k: nat) returns (more: seq<Step>)
    requires Held(Run(steps), pid, k, b) && Precedes(Run(steps).rows, a, b) && Undelivered(Run(steps), a)
    ensures NoStores(more) && !InOrder(Run(steps + more))
    decreases k, Run(steps).pubs[pid].doing == Publishing
  {
    var s := Run(steps);
    if k == 0 {
      more := [Deliver(pid, true)];
      RunOfOne(steps, more[0]);
      HandedOver(s, a, b, pid);
    } else {
      var step := Closer(s, pid);
      RunOfOne(steps, step);
      StillAhead(s, a, b, pid, k);
      var rest := Overtakes(steps + [step], a, b, pid, if s.pubs[pid].doing == Publishing then k else k - 1);
      more := [step] + rest;
      assert steps + more == steps + [step] + rest;
    }
  }

  lemma UntimelyStoreMisorders(steps: seq<Step>, step: Step) returns (more: seq<Step>)
    requires !Timely(Run(steps), step)
    ensures NoStores(more) && !InOrder(Run(steps + [step] + more))
  {
    var s, a := Run(steps), step.content.id;
    var t := Next(s, step);
    RunHolds(steps);
    RunOfOne(steps, step);
    var b :| Exposed(s, b) && Precedes(t.rows, a, b);
    assert Undelivered(t, a);
    if i :| 0 <= i < |s.log| && s.log[i].id == b {
      more := [];
      assert steps + [step] + more == steps + [step];
      assert !InLogBefore(t.log, a, i);
    } else {
      var pid, k :| Held(s, pid, k, b);
      assert Held(t, pid, k, b);
      more := Overtakes(steps + [step], a, b, pid, k);
    }
  }

  /** Storing an event keeps the stream in order, however the publishers go on, if and only
      if it does not come below an exposed one. */
  lemma StoringIsSafeIffTimely(steps: seq<Step>, step: Step)
    requires AlwaysTimely(steps)
    ensures Timely(Run(steps), step) <==> forall more :: NoStores(more) ==> InOrder(Run(steps + [step] + more))
  {
    if Timely(Run(steps), step) {
      assert (steps + [step])[..|steps|] == steps;
      assert AlwaysTimely(steps + [step]);
      forall more | NoStores(more) ensures InOrder(Run(steps + [step] + more)) {
        TimelyFromHere(steps + [step], more);
        FirstDeliveriesAreInOrder(steps + [step] + more);
      }
    } else {
      var more := UntimelyStoreMisorders(steps, step);
      assert NoStores(more) && !InOrder(Run(steps + [step] + more));
    }
  }

  // ----- what a storing transaction can see -----------------------------------------------

  /** Some publisher has claimed the row at some time. */
  predicate Touched(r: Row) {
    r.published.Some? || r.lock.Some? || 0 < r.attempts
  }

  lemma TouchedPersists(s: World, step: Step, b: Uuid)
    requires b in s.rows && Touched(s.rows[b])
    ensures b in Next(s, step).rows && Touched(Next(s, step).rows[b])
  {
  }

  lemma ClaimTouches(s: World, step: Step, b: Uuid)
    requires WorldHolds(s) && step.Claim? && Exposed(Next(s, step), b) && !Exposed(s, b)
    ensures b in Next(s, step).rows && Touched(Next(s, step).rows[b])
  {
    var t := Next(s, step);
    forall i | 0 <= i < |t.log| ensures t.log[i].id != b {
      assert t.log[i] == s.log[i];
    }
    var pid, k :| Held(t, pid, k, b);
    assert pid != step.pid ==> Held(s, pid, k, b);
    assert step.batch[k] in step.batch && b in IdsOf(step.batch);
  }

  lemma {:induction false} ExposedAreTouched(steps: seq<Step>, b: Uuid)
    requires Exposed(Run(steps), b)
    ensures b in Run(steps).rows && Touched(Run(steps).rows[b])
  {
    if steps != [] {
      var init, step := steps[..|steps| - 1], steps[|steps| - 1];
      RunHolds(init);
      ExposureComesFromClaims(Run(init), step, b);
      if Exposed(Run(init), b) {
        ExposedAreTouched(init, b);
        TouchedPersists(Run(init), step, b);
      } else {
        ClaimTouches(Run(init), step, b);
      }
    }
  }

  /** A test on the table alone is enough: an event may be stored if no higher event of its
      stream has been published, locked or attempted. */
  lemma UntouchedAboveIsTimely(steps: seq<Step>, step: Step)
    requires step.Store?
    requires forall b :: b in Run(steps).rows && Touched(Run(steps).rows[b])
               ==> !Precedes(Next(Run(steps), step).rows, step.content.id, b)
    ensures Timely(Run(steps), step)
  {
    forall b | Exposed(Run(steps), b)
      ensures b in Run(steps).rows && Touched(Run(steps).rows[b])
    {
      ExposedAreTouched(steps, b);
    }
  }

  lemma ClaimOfOnly(late: OutboxRow)
    ensures var w := Next(DAWN, Store(late)); var batch := [Claimed(late.id, late, 0)];
            var t := Next(w, Claim(0, "p", late.occurredAt, 5, batch));
            && t.rows.Keys == {late.id} && t.rows[late.id].content == late && t.rows[late.id].published.None?
            && t.pubs == map[0 := Batch(batch, Publishing)] && t.log == []
  {
    var w, batch := Next(DAWN, Store(late)), [Claimed(late.id, late, 0)];
    assert w.rows == map[late.id := Row(late, 0, late.occurredAt, None, None)];
    assert Fair(w.rows, batch, late.occurredAt, 5);
  }

  lemma LateStoreIsOvertaken(s: World, early: OutboxRow, late: OutboxRow)
    requires s.rows.Keys == {late.id} && s.rows[late.id].content == late && s.rows[late.id].published.None?
    requires s.pubs == map[0 := Batch([Claimed(late.id, late, 0)], Publishing)] && s.log == []
    requires early.id != late.id && Aggregate(early.event) == Aggregate(late.event)
    requires early.occurredAt < late.occurredAt || (early.occurredAt == late.occurredAt && early.id < late.id)
    ensures var t := Next(Next(s, Store(early)), Deliver(0, true));
            !InOrder(t) && forall id :: id in t.rows ==> t.rows[id].published.None?
  {
    var t := Next(s, Store(early));
    assert Held(t, 0, 0, late.id) && Precedes(t.rows, early.id, late.id);
    HandedOver(t, early.id, late.id, 0);
  }

  /** It is not enough that nothing is stored below a published event: for any two events of a
      stream that commit against their order, there are deliveries out of order with nothing
      published at all. */
  lemma PublishedIsNotEnough(early: OutboxRow, late: OutboxRow) returns (steps: seq<Step>)
    requires early.id != late.id && Aggregate(early.event) == Aggregate(late.event)
    requires early.occurredAt < late.occurredAt || (early.occurredAt == late.occurredAt && early.id < late.id)
    ensures !InOrder(Run(steps))
    ensures forall id :: id in Run(steps).rows ==> Run(steps).rows[id].published.None?
    ensures |steps| == 4 && steps[0] == Store(late) && steps[1].Claim? && steps[2] == Store(early) && steps[3].Deliver?
  {
    var claim := Claim(0, "p", late.occurredAt, 5, [Claimed(late.id, late, 0)]);
    ClaimOfOnly(late);
    LateStoreIsOvertaken(Next(Next(DAWN, Store(late)), claim), early, late);
    RunOfOne([], Store(late));
    RunOfOne([] + [Store(late)], claim);
    RunOfOne([] + [Store(late)] + [claim], Store(early));
    RunOfOne([] + [Store(late)] + [claim] + [Store(early)], Deliver(0, true));
    steps := [] + [Store(late)] + [claim] + [Store(early)] + [Deliver(0, true)];
  }
}
