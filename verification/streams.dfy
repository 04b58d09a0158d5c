/** The service and the publishers together: every event a commit stores is a row of the
    publishers' table from that moment on. */
module Streams {
  import opened Domain
  import opened Tables
  import opened Notices
  import opened Safety
  import opened Guarantees
  import opened Outboxes
  import opened Ordering
  import I = Interleaving
  import D = Dispatch

  datatype Joint = Joint(run: seq<I.Step>, world: D.World)

  datatype JointStep = Serve(served: I.Step) | Publish(published: D.Step)

  function StoreAll(world: D.World, rows: seq<OutboxRow>): D.World {
    if rows == [] then world else D.Next(StoreAll(world, rows[..|rows| - 1]), D.Store(rows[|rows| - 1]))
  }

  /** A commit stores its events at once; publishers store nothing. */
  function Next(j: Joint, s: JointStep): Joint {
    match s
    case Serve(step) =>
      var run := j.run + [step];
      var n := |I.Run(j.run).db.outbox|;
      var outbox := I.Run(run).db.outbox;
      Joint(run, if n <= |outbox| then StoreAll(j.world, outbox[n..]) else j.world)
    case Publish(step) => if step.Store? then j else j.(world := D.Next(j.world, step))
  }

  function Run(steps: seq<JointStep>): Joint {
    if steps == [] then Joint([], D.DAWN) else Next(Run(steps[..|steps| - 1]), steps[|steps| - 1])
  }

  // ----- the rows are the outbox ----------------------------------------------------------

  predicate Mirrors(rows: Rows, outbox: seq<OutboxRow>) {
    && (forall i :: 0 <= i < |outbox| ==> outbox[i].id in rows && rows[outbox[i].id].content == outbox[i])
    && (forall id :: id in rows ==> rows[id].content in outbox && rows[id].content.id == id)
  }

  lemma StoreMirrors(s: D.World, outbox: seq<OutboxRow>, r: OutboxRow)
    requires Mirrors(s.rows, outbox) && EventIdFree(outbox, r.id)
    ensures r.id !in s.rows
    ensures Mirrors(D.Next(s, D.Store(r)).rows, outbox + [r])
  {
    var t := D.Next(s, D.Store(r));
    var more := outbox + [r];
    forall id | id in s.rows ensures id != r.id {
      var i :| 0 <= i < |outbox| && outbox[i] == s.rows[id].content;
    }
    forall id | id in t.rows ensures t.rows[id].content in more && t.rows[id].content.id == id {
      assert id in s.rows ==> s.rows[id].content in outbox;
      assert more[|outbox|] == r;
    }
  }

  lemma PublishMirrors(s: D.World, step: D.Step, outbox: seq<OutboxRow>)
    requires Mirrors(s.rows, outbox) && !step.Store?
    ensures Mirrors(D.Next(s, step).rows, outbox)
  {
    var t := D.Next(s, step);
    D.StepAdvances(s, step);
    forall id | id in t.rows ensures t.rows[id].content in outbox && t.rows[id].content.id == id {
      assert id in s.rows;
    }
  }

  // ----- the events of one wallet -----------------------------------------------------------

  /** The balance events of w, in the order of its versions. */
  function Picks(outbox: seq<OutboxRow>, w: Uuid): seq<OutboxRow> {
    if outbox == [] then []
    else
      var r := outbox[|outbox| - 1];
      Picks(outbox[..|outbox| - 1], w) + (if IsBalanceOf(r, w) then [r] else [])
  }

  lemma {:induction false} PicksAreBalances(outbox: seq<OutboxRow>, w: Uuid)
    ensures forall k :: 0 <= k < |Picks(outbox, w)| ==>
              Picks(outbox, w)[k] in outbox && IsBalanceOf(Picks(outbox, w)[k], w)
    ensures forall r :: r in outbox && IsBalanceOf(r, w) ==> r in Picks(outbox, w)
  {
    if outbox != [] {
      var n := |outbox| - 1;
      PicksAreBalances(outbox[..n], w);
      assert outbox == outbox[..n] + [outbox[n]];
    }
  }

  lemma {:induction false} KeysOfPicks(outbox: seq<OutboxRow>, w: Uuid)
    ensures |Keys(outbox, w)| == |Picks(outbox, w)|
    ensures forall k :: 0 <= k < |Picks(outbox, w)| ==> Keys(outbox, w)[k] == KeyOf(Picks(outbox, w)[k])
  {
    if outbox != [] {
      KeysOfPicks(outbox[..|outbox| - 1], w);
    }
  }

  lemma {:induction false} VersionsOfPicks(outbox: seq<OutboxRow>, w: Uuid)
    ensures |Versions(BalanceEvents(outbox), w)| == |Picks(outbox, w)|
    ensures forall k :: 0 <= k < |Picks(outbox, w)| ==>
              Picks(outbox, w)[k].event.BalanceChanged?
              && Versions(BalanceEvents(outbox), w)[k] == Picks(outbox, w)[k].event.version
  {
    if outbox != [] {
      var r := outbox[|outbox| - 1];
      VersionsOfPicks(outbox[..|outbox| - 1], w);
      if r.event.BalanceChanged? {
        VersionsAppend(BalanceEvents(outbox[..|outbox| - 1]), r.event, w);
      } else {
        assert BalanceEvents(outbox) == BalanceEvents(outbox[..|outbox| - 1]);
      }
    }
  }

  predicate Before(a: OutboxRow, b: OutboxRow) {
    KeyLess(KeyOf(a), KeyOf(b))
  }

  /** With ascending keys, a new balance event of w comes after all there are. */
  lemma NewestIsLast(outbox: seq<OutboxRow>, r: OutboxRow, w: Uuid, prior: OutboxRow)
    requires Ascending(Keys(outbox + [r], w)) && IsBalanceOf(r, w)
    requires prior in outbox && IsBalanceOf(prior, w)
    ensures Before(prior, r)
  {
    KeysAppend(outbox, r, w);
    KeysOfPicks(outbox, w);
    PicksAreBalances(outbox, w);
    var k :| 0 <= k < |Picks(outbox, w)| && Picks(outbox, w)[k] == prior;
    assert KeyLess(Keys(outbox + [r], w)[k], Keys(outbox + [r], w)[|Keys(outbox, w)|]);
  }

  lemma {:induction false} AscendingPrefix(outbox: seq<OutboxRow>, w: Uuid, n: nat)
    requires n <= |outbox| && Ascending(Keys(outbox, w))
    ensures Ascending(Keys(outbox[..n], w))
    decreases |outbox|
  {
    if n < |outbox| {
      var r := outbox[|outbox| - 1];
      var init := outbox[..|outbox| - 1];
      if IsBalanceOf(r, w) {
        AscendingAppend(Keys(init, w), KeyOf(r));
      } else {
        assert Keys(outbox, w) == Keys(init, w);
      }
      AscendingPrefix(init, w, n);
      assert init[..n] == outbox[..n];
    } else {
      assert outbox[..n] == outbox;
    }
  }

  // ----- order within a wallet's events ------------------------------------------------------

  predicate BothOf(rows: Rows, a: Uuid, b: Uuid, w: Uuid) {
    a in rows && b in rows && IsBalanceOf(rows[a].content, w) && IsBalanceOf(rows[b].content, w)
  }

  /** Whatever precedes an exposed event of w among the events of w has been published. */
  ghost predicate ExposedOf(s: D.World, w: Uuid) {
    forall a, b :: BothOf(s.rows, a, b, w) && D.Exposed(s, b) && Precedes(s.rows, a, b) ==> s.rows[a].published.Some?
  }

  /** First deliveries of the events of w are in order. */
  ghost predicate LogOf(s: D.World, w: Uuid) {
    forall j, a :: 0 <= j < |s.log| && BothOf(s.rows, a, s.log[j].id, w) && Precedes(s.rows, a, s.log[j].id)
                   ==> D.InLogBefore(s.log, a, j)
  }

  /** Rows are kept under the ids of their events. */
  predicate Keyed(rows: Rows) {
    forall id :: id in rows ==> rows[id].content.id == id
  }

  ghost predicate OrderOf(s: D.World, w: Uuid) {
    D.WorldHolds(s) && Keyed(s.rows) && ExposedOf(s, w) && LogOf(s, w)
  }

  /** What is stored is no event of w, or comes after all events of w. */
  predicate Above(s: D.World, step: D.Step, w: Uuid) {
    step.Store? && step.content.id !in s.rows && IsBalanceOf(step.content, w) ==>
      forall b :: b in s.rows && IsBalanceOf(s.rows[b].content, w) ==> Before(s.rows[b].content, step.content)
  }

  lemma KeyedKept(s: D.World, step: D.Step)
    requires Keyed(s.rows)
    ensures Keyed(D.Next(s, step).rows)
  {
    D.StepAdvances(s, step);
  }

  /** A new event does not precede an old one. */
  lemma NewIsNotBefore(s: D.World, step: D.Step, w: Uuid, a: Uuid, b: Uuid)
    requires Keyed(s.rows) && Above(s, step, w) && a !in s.rows && b in s.rows
    requires BothOf(D.Next(s, step).rows, a, b, w)
    ensures !Precedes(D.Next(s, step).rows, a, b)
  {
    var t := D.Next(s, step);
    D.StepAdvances(s, step);
    assert step.Store? && step.content.id == a;
    assert t.rows[b].content == s.rows[b].content;
  }

  lemma ExposedOfKept(s: D.World, step: D.Step, w: Uuid)
    requires D.WorldHolds(s) && Keyed(s.rows) && ExposedOf(s, w) && Above(s, step, w)
    ensures ExposedOf(D.Next(s, step), w)
  {
    var t := D.Next(s, step);
    D.StepAdvances(s, step);
    forall a, b | BothOf(t.rows, a, b, w) && D.Exposed(t, b) && Precedes(t.rows, a, b)
      ensures t.rows[a].published.Some?
    {
      D.ExposureComesFromClaims(s, step, b);
      if a in s.rows {
        D.PrecedenceIsKept(s, step, a, b);
        assert BothOf(s.rows, a, b, w);
      } else {
        NewIsNotBefore(s, step, w, a, b);
      }
    }
  }

  lemma LogOfKept(s: D.World, step: D.Step, w: Uuid)
    requires OrderOf(s, w) && Above(s, step, w)
    ensures LogOf(D.Next(s, step), w)
  {
    var t := D.Next(s, step);
    D.StepAdvances(s, step);
    forall j, a | 0 <= j < |t.log| && BothOf(t.rows, a, t.log[j].id, w) && Precedes(t.rows, a, t.log[j].id)
      ensures D.InLogBefore(t.log, a, j)
    {
      if j < |s.log| {
        OldDeliveryKept(s, step, w, j, a);
      } else {
        NewDeliveryInOrder(s, step, w, a);
      }
    }
  }

  lemma OldDeliveryKept(s: D.World, step: D.Step, w: Uuid, j: nat, a: Uuid)
    requires OrderOf(s, w) && Above(s, step, w) && j < |s.log|
    requires var t := D.Next(s, step); BothOf(t.rows, a, s.log[j].id, w) && Precedes(t.rows, a, s.log[j].id)
    ensures D.InLogBefore(D.Next(s, step).log, a, j)
  {
    var t := D.Next(s, step);
    D.StepAdvances(s, step);
    assert t.log[j] == s.log[j] && s.log[j].id in s.rows;
    if a in s.rows {
      D.PrecedenceIsKept(s, step, a, s.log[j].id);
      assert BothOf(s.rows, a, s.log[j].id, w);
      assert D.InLogBefore(s.log, a, j);
      var i :| 0 <= i < j && s.log[i].id == a;
      assert t.log[i].id == a;
    } else {
      NewIsNotBefore(s, step, w, a, s.log[j].id);
    }
  }

  lemma NewDeliveryInOrder(s: D.World, step: D.Step, w: Uuid, a: Uuid)
    requires OrderOf(s, w) && |D.Next(s, step).log| > |s.log|
    requires var t := D.Next(s, step); BothOf(t.rows, a, t.log[|s.log|].id, w) && Precedes(t.rows, a, t.log[|s.log|].id)
    ensures D.InLogBefore(D.Next(s, step).log, a, |s.log|)
  {
    var t := D.Next(s, step);
    assert D.BatchHolds(s, s.pubs[step.pid]) && D.CopyHolds(s, D.Head(s, step.pid));
    assert D.Held(s, step.pid, 0, D.Head(s, step.pid).id);
    assert D.RowDelivered(s, a);
    var i :| 0 <= i < |s.log| && s.log[i] == Sent(a, s.rows[a].content);
    assert t.log[i].id == a;
  }

  lemma OrderKept(s: D.World, step: D.Step, w: Uuid)
    requires OrderOf(s, w) && Above(s, step, w)
    ensures OrderOf(D.Next(s, step), w)
  {
    D.StepKeepsWorld(s, step);
    KeyedKept(s, step);
    ExposedOfKept(s, step, w);
    LogOfKept(s, step, w);
  }

  // ----- joint runs -----------------------------------------------------------------------

  ghost predicate JointHolds(world: D.World, outbox: seq<OutboxRow>, w: Uuid) {
    Mirrors(world.rows, outbox) && D.WorldHolds(world) && (Ascending(Keys(outbox, w)) ==> OrderOf(world, w))
  }

  lemma StoreKeepsJoint(s: D.World, outbox: seq<OutboxRow>, r: OutboxRow, w: Uuid)
    requires JointHolds(s, outbox, w) && EventIdFree(outbox, r.id)
    ensures JointHolds(D.Next(s, D.Store(r)), outbox + [r], w)
  {
    StoreMirrors(s, outbox, r);
    D.StepKeepsWorld(s, D.Store(r));
    if Ascending(Keys(outbox + [r], w)) {
      assert (outbox + [r])[..|outbox|] == outbox;
      AscendingPrefix(outbox + [r], w, |outbox|);
      if IsBalanceOf(r, w) {
        forall b | b in s.rows && IsBalanceOf(s.rows[b].content, w) ensures Before(s.rows[b].content, r) {
          NewestIsLast(outbox, r, w, s.rows[b].content);
        }
      }
      OrderKept(s, D.Store(r), w);
    }
  }

  lemma {:induction false} StoresKeepJoint(s: D.World, outbox: seq<OutboxRow>, rows: seq<OutboxRow>, w: Uuid)
    requires JointHolds(s, outbox, w) && EventsDiffer(outbox + rows)
    ensures JointHolds(StoreAll(s, rows), outbox + rows, w)
  {
    if rows == [] {
      assert outbox + rows == outbox;
    } else {
      var n := |rows| - 1;
      var init, all := rows[..n], outbox + rows;
      assert all == (outbox + init) + [rows[n]];
      forall i, j | 0 <= i < |outbox + init| && 0 <= j < |outbox + init|
          && (outbox + init)[i].id == (outbox + init)[j].id
        ensures i == j
      {
        assert all[i] == (outbox + init)[i] && all[j] == (outbox + init)[j];
      }
      forall i | 0 <= i < |outbox + init| ensures (outbox + init)[i].id != rows[n].id {
        assert all[i] == (outbox + init)[i] && all[|outbox| + n] == rows[n];
      }
      StoresKeepJoint(s, outbox, init, w);
      StoreKeepsJoint(StoreAll(s, init), outbox + init, rows[n], w);
    }
  }

  lemma PublishKeepsJoint(s: D.World, step: D.Step, outbox: seq<OutboxRow>, w: Uuid)
    requires JointHolds(s, outbox, w) && !step.Store?
    ensures JointHolds(D.Next(s, step), outbox, w)
  {
    PublishMirrors(s, step, outbox);
    D.StepKeepsWorld(s, step);
    if Ascending(Keys(outbox, w)) {
      OrderKept(s, step, w);
    }
  }

  lemma {:induction false} RunsAreJoint(steps: seq<JointStep>, w: Uuid)
    ensures JointHolds(Run(steps).world, I.Run(Run(steps).run).db.outbox, w)
  {
    if steps != [] {
      var j, step := Run(steps[..|steps| - 1]), steps[|steps| - 1];
      RunsAreJoint(steps[..|steps| - 1], w);
      if step.Serve? {
        ServeKeepsJoint(j, step.served, w);
      } else if !step.published.Store? {
        PublishKeepsJoint(j.world, step.published, I.Run(j.run).db.outbox, w);
      }
    }
  }

  lemma ServeKeepsJoint(j: Joint, step: I.Step, w: Uuid)
    requires JointHolds(j.world, I.Run(j.run).db.outbox, w)
    ensures JointHolds(Next(j, Serve(step)).world, I.Run(j.run + [step]).db.outbox, w)
  {
    var before, after := I.Run(j.run).db.outbox, I.Run(j.run + [step]).db.outbox;
    HistoryIsKept(j.run, [step]);
    I.RunKeepsInv(j.run + [step]);
    InvNotices(I.Run(j.run + [step]).db);
    assert after == before + after[|before|..];
    StoresKeepJoint(j.world, before, after[|before|..], w);
  }

  // ----- deliveries and versions ----------------------------------------------------------

  /** A delivery of one version comes after a delivery of every lower one. */
  predicate FollowsVersions(outbox: seq<OutboxRow>, log: seq<Sent>, w: Uuid) {
    forall r, j :: r in outbox && 0 <= j < |log| && IsBalanceOf(r, w) && IsBalanceOf(log[j].content, w)
                   && r.event.version < log[j].content.event.version
      ==> D.InLogBefore(log, r.id, j)
  }

  lemma LowerVersionIsBefore(outbox: seq<OutboxRow>, w: Uuid, first: int, last: int, a: OutboxRow, b: OutboxRow)
    requires Ascending(Keys(outbox, w)) && Contiguous(Versions(BalanceEvents(outbox), w), first, last)
    requires a in outbox && b in outbox && IsBalanceOf(a, w) && IsBalanceOf(b, w) && a.event.version < b.event.version
    ensures Before(a, b)
  {
    PicksAreBalances(outbox, w);
    KeysOfPicks(outbox, w);
    VersionsOfPicks(outbox, w);
    var p :| 0 <= p < |Picks(outbox, w)| && Picks(outbox, w)[p] == a;
    var q :| 0 <= q < |Picks(outbox, w)| && Picks(outbox, w)[q] == b;
    assert Versions(BalanceEvents(outbox), w)[p] == first + p && Versions(BalanceEvents(outbox), w)[q] == first + q;
  }

  lemma EventHasWallet(run: seq<I.Step>, w: Uuid, r: OutboxRow)
    requires r in I.Run(run).db.outbox && IsBalanceOf(r, w)
    ensures w in I.Run(run).db.wallets
  {
    PicksAreBalances(I.Run(run).db.outbox, w);
    KeysOfPicks(I.Run(run).db.outbox, w);
    RunsAreStamped(run, w);
  }

  /** If the movements of a wallet were prompt, first deliveries of its balance events follow
      its versions, whatever the publishers do and whenever they do it. */
  lemma PromptDeliveriesFollow(steps: seq<JointStep>, w: Uuid)
    requires AlwaysPrompt(Run(steps).run, w)
    ensures FollowsVersions(I.Run(Run(steps).run).db.outbox, Run(steps).world.log, w)
  {
    var j := Run(steps);
    var d, log := I.Run(j.run).db, j.world.log;
    EventKeysFollowVersionsIffPrompt(j.run, w);
    RunsAreJoint(steps, w);
    forall r, i | r in d.outbox && 0 <= i < |log| && IsBalanceOf(r, w) && IsBalanceOf(log[i].content, w)
                  && r.event.version < log[i].content.event.version
      ensures D.InLogBefore(log, r.id, i)
    {
      EventHasWallet(j.run, w, r);
      BalancesAreAnnounced(j.run, w);
      DeliveryFollows(j, d, w, r, i);
    }
  }

  lemma DeliveryFollows(j: Joint, d: Db, w: Uuid, r: OutboxRow, i: nat)
    requires JointHolds(j.world, d.outbox, w) && Ascending(Keys(d.outbox, w)) && w in d.wallets
    requires Contiguous(Versions(BalanceEvents(d.outbox), w), FirstVersion(d.txs, d.ledger, w), d.wallets[w].version)
    requires i < |j.world.log| && r in d.outbox && IsBalanceOf(r, w) && IsBalanceOf(j.world.log[i].content, w)
    requires r.event.version < j.world.log[i].content.event.version
    ensures D.InLogBefore(j.world.log, r.id, i)
  {
    var s, b := j.world, j.world.log[i];
    assert b.id in s.rows && s.rows[b.id].content == b.content;
    var k :| 0 <= k < |d.outbox| && d.outbox[k] == r;
    assert r.id in s.rows && s.rows[r.id].content == r;
    LowerVersionIsBefore(d.outbox, w, FirstVersion(d.txs, d.ledger, w), d.wallets[w].version, r, b.content);
    assert BothOf(s.rows, r.id, b.id, w) && Precedes(s.rows, r.id, b.id);
  }

  // ----- a schedule before its publishers -----------------------------------------------------

  function Serves(steps: seq<I.Step>): seq<JointStep> {
    if steps == [] then [] else Serves(steps[..|steps| - 1]) + [Serve(steps[|steps| - 1])]
  }

  predicate Untouched(world: D.World) {
    && world.log == [] && world.pubs == map[]
    && forall id :: id in world.rows ==>
         var r := world.rows[id]; r == Row(r.content, 0, r.content.occurredAt, None, None)
  }

  lemma {:induction false} StoresLeaveUntouched(world: D.World, rows: seq<OutboxRow>)
    requires Untouched(world)
    ensures Untouched(StoreAll(world, rows))
  {
    if rows != [] {
      StoresLeaveUntouched(world, rows[..|rows| - 1]);
    }
  }

  lemma ServeLeavesUntouched(j: Joint, step: I.Step)
    requires Untouched(j.world)
    ensures Untouched(Next(j, Serve(step)).world) && Next(j, Serve(step)).run == j.run + [step]
  {
    var n, outbox := |I.Run(j.run).db.outbox|, I.Run(j.run + [step]).db.outbox;
    if n <= |outbox| {
      StoresLeaveUntouched(j.world, outbox[n..]);
    }
  }

  lemma RunOfOne(steps: seq<JointStep>, step: JointStep)
    ensures Run(steps + [step]) == Next(Run(steps), step)
  {
    assert (steps + [step])[..|steps|] == steps;
  }

  lemma RunOfServes(steps: seq<I.Step>)
    requires steps != []
    ensures Run(Serves(steps)) == Next(Run(Serves(steps[..|steps| - 1])), Serve(steps[|steps| - 1]))
  {
    RunOfOne(Serves(steps[..|steps| - 1]), Serve(steps[|steps| - 1]));
  }

  ghost predicate JustServed(j: Joint, steps: seq<I.Step>) {
    j.run == steps && Untouched(j.world)
  }

  lemma ServedNext(j: Joint, steps: seq<I.Step>)
    requires steps != [] && JustServed(j, steps[..|steps| - 1])
    ensures JustServed(Next(j, Serve(steps[|steps| - 1])), steps)
  {
    ServeLeavesUntouched(j, steps[|steps| - 1]);
    assert steps == steps[..|steps| - 1] + [steps[|steps| - 1]];
  }

  /** Before any publisher starts, the rows are those of the outbox, just stored. */
  lemma {:induction false} OnlyServed(steps: seq<I.Step>)
    ensures JustServed(Run(Serves(steps)), steps)
  {
    if steps != [] {
      OnlyServed(steps[..|steps| - 1]);
      RunOfServes(steps);
      ServedNext(Run(Serves(steps[..|steps| - 1])), steps);
    }
  }

  lemma PublishedAfter(steps: seq<JointStep>, step: D.Step)
    requires !step.Store?
    ensures Run(steps + [Publish(step)]) == Run(steps).(world := D.Next(Run(steps).world, step))
  {
    RunOfOne(steps, Publish(step));
  }

  // ----- the condition is exact ---------------------------------------------------------------

  function Goes(s: D.World, steps: seq<D.Step>): D.World
    decreases |steps|
  {
    if steps == [] then s else Goes(D.Next(s, steps[0]), steps[1..])
  }

  function Publishes(steps: seq<D.Step>): seq<JointStep> {
    if steps == [] then [] else [Publish(steps[0])] + Publishes(steps[1..])
  }

  predicate StoresNothing(steps: seq<D.Step>) {
    forall i :: 0 <= i < |steps| ==> !steps[i].Store?
  }

  lemma FirstPublish(before: seq<JointStep>, steps: seq<D.Step>)
    requires steps != []
    ensures before + Publishes(steps) == before + [Publish(steps[0])] + Publishes(steps[1..])
  {
  }

  ghost predicate Reaches(before: seq<JointStep>, more: seq<JointStep>, world: D.World) {
    Run(before + more).run == Run(before).run && Run(before + more).world == world
  }

  lemma {:induction false} RunOfPublishes(before: seq<JointStep>, steps: seq<D.Step>)
    requires StoresNothing(steps)
    ensures Reaches(before, Publishes(steps), Goes(Run(before).world, steps))
    decreases |steps|
  {
    if steps == [] {
      assert before + [] == before;
    } else {
      FirstPublish(before, steps);
      PublishedAfter(before, steps[0]);
      RunOfPublishes(before + [Publish(steps[0])], steps[1..]);
    }
  }

  predicate NeverSent(s: D.World, id: Uuid) {
    forall i :: 0 <= i < |s.log| ==> s.log[i].id != id
  }

  function Unpublished(rows: Rows): set<Uuid> {
    set id | id in rows && rows[id].published.None?
  }

  /** A publisher claims one event and delivers it. */
  function Take(rows: Rows, id: Uuid, now: Time): seq<D.Step>
    requires id in rows
  {
    [D.Claim(0, "p", now, 0, [Claimed(id, rows[id].content, rows[id].attempts)]), D.Deliver(0, true)]
  }

  lemma TakeDelivers(s: D.World, id: Uuid, now: Time)
    requires !D.Busy(s, 0) && Claimable(s.rows, id, now, 0)
    ensures var t := Goes(s, Take(s.rows, id, now));
            && t.log == s.log + [Sent(id, s.rows[id].content)]
            && t.rows == Locked(s.rows, {id}, "p", now)
            && 0 in t.pubs && t.pubs[0] == D.Batch([Claimed(id, s.rows[id].content, s.rows[id].attempts)], D.Received)
  {
    var batch := [Claimed(id, s.rows[id].content, s.rows[id].attempts)];
    assert Fair(s.rows, batch, now, 0);
    assert IdsOf(batch) == {id};
    var t := D.Next(s, D.Claim(0, "p", now, 0, batch));
    assert Take(s.rows, id, now)[1..] == [D.Deliver(0, true)];
    assert Goes(t, [D.Deliver(0, true)]) == D.Next(t, D.Deliver(0, true));
  }

  lemma {:induction false} GoesOn(s: D.World, steps: seq<D.Step>, more: seq<D.Step>)
    ensures Goes(s, steps + more) == Goes(Goes(s, steps), more)
    decreases |steps|
  {
    if steps == [] {
      assert steps + more == more;
    } else {
      assert (steps + more)[1..] == steps[1..] + more;
      GoesOn(D.Next(s, steps[0]), steps[1..], more);
    }
  }

  /** And confirms it. */
  lemma ConfirmedAfterTake(s: D.World, id: Uuid, now: Time)
    requires !D.Busy(s, 0) && Claimable(s.rows, id, now, 0)
    ensures var t := Goes(s, Take(s.rows, id, now) + [D.Confirm(0, now)]);
            && t.log == s.log + [Sent(id, s.rows[id].content)] && !D.Busy(t, 0)
            && t.rows == s.rows[id := s.rows[id].(published := Some(now), lock := None)]
  {
    TakeDelivers(s, id, now);
    GoesOn(s, Take(s.rows, id, now), [D.Confirm(0, now)]);
    var t := Goes(s, Take(s.rows, id, now));
    assert Goes(t, [D.Confirm(0, now)]) == D.Next(t, D.Confirm(0, now));
  }

  /** A lone publisher gets to the unpublished event b without delivering a, which comes
      after it. */
  lemma {:induction false} Overtake(s: D.World, a: Uuid, b: Uuid) returns (steps: seq<D.Step>)
    requires !D.Busy(s, 0) && Precedes(s.rows, b, a) && s.rows[b].published.None? && NeverSent(s, a)
    ensures StoresNothing(steps)
    ensures var t := Goes(s, steps);
            NeverSent(t, a) && t.log != [] && t.log[|t.log| - 1] == Sent(b, s.rows[b].content)
    decreases |Unpublished(s.rows)|
  {
    var least, now := NothingIsStranded(s.rows, b, 0);
    assert Claimable(s.rows, least, now, 0);
    assert least != a && !Precedes(s.rows, b, least);
    if least == b {
      steps := Take(s.rows, b, now);
      TakeDelivers(s, b, now);
    } else {
      var first := Take(s.rows, least, now) + [D.Confirm(0, now)];
      ConfirmedAfterTake(s, least, now);
      var t := Goes(s, first);
      assert Unpublished(t.rows) == Unpublished(s.rows) - {least};
      var rest := Overtake(t, a, b);
      steps := first + rest;
      GoesOn(s, first, rest);
    }
  }

  /** Two versions of w whose keys are the other way round. */
  lemma VersionsAgainstKeys(run: seq<I.Step>, w: Uuid) returns (a: OutboxRow, b: OutboxRow)
    requires !AlwaysPrompt(run, w)
    ensures var outbox := I.Run(run).db.outbox;
            a in outbox && b in outbox && IsBalanceOf(a, w) && IsBalanceOf(b, w)
    ensures a.event.version < b.event.version && Before(b, a)
  {
    var d := I.Run(run).db;
    var picks := Picks(d.outbox, w);
    EventKeysFollowVersionsIffPrompt(run, w);
    KeysOfPicks(d.outbox, w);
    PicksAreBalances(d.outbox, w);
    var i, j :| 0 <= i < j < |Keys(d.outbox, w)| && !KeyLess(Keys(d.outbox, w)[i], Keys(d.outbox, w)[j]);
    a, b := picks[i], picks[j];
    EventHasWallet(run, w, a);
    PicksCount(run, w, i);
    PicksCount(run, w, j);
    RowsDiffer(run, a, b);
  }

  lemma PicksCount(run: seq<I.Step>, w: Uuid, i: nat)
    requires w in I.Run(run).db.wallets && i < |Picks(I.Run(run).db.outbox, w)|
    ensures var d := I.Run(run).db;
            Picks(d.outbox, w)[i].event.BalanceChanged?
            && Picks(d.outbox, w)[i].event.version == FirstVersion(d.txs, d.ledger, w) + i
  {
    BalancesAreAnnounced(run, w);
    VersionsOfPicks(I.Run(run).db.outbox, w);
  }

  lemma RowsDiffer(run: seq<I.Step>, a: OutboxRow, b: OutboxRow)
    requires a in I.Run(run).db.outbox && b in I.Run(run).db.outbox && a != b
    ensures a.id != b.id
  {
    I.RunKeepsInv(run);
    InvNotices(I.Run(run).db);
  }

  /** Two events just stored can be delivered in the order of their keys. */
  lemma DeliveredByKey(s: D.World, outbox: seq<OutboxRow>, a: OutboxRow, b: OutboxRow, w: Uuid)
    returns (steps: seq<D.Step>)
    requires Mirrors(s.rows, outbox) && Untouched(s) && a in outbox && b in outbox
    requires IsBalanceOf(a, w) && IsBalanceOf(b, w) && Before(b, a) && a.event.version < b.event.version
    ensures StoresNothing(steps) && !FollowsVersions(outbox, Goes(s, steps).log, w)
  {
    StoredTwo(s, outbox, a, b, w);
    steps := Overtake(s, a.id, b.id);
    Unfollowed(outbox, Goes(s, steps), a, b, w);
  }

  /** Without promptness some publisher delivers a version before a lower one. */
  lemma SomeDeliveryOvertakes(run: seq<I.Step>, w: Uuid) returns (steps: seq<JointStep>)
    requires !AlwaysPrompt(run, w)
    ensures Run(steps).run == run && !FollowsVersions(I.Run(run).db.outbox, Run(steps).world.log, w)
  {
    var a, b := VersionsAgainstKeys(run, w);
    OnlyServed(run);
    RunsAreJoint(Serves(run), w);
    var more := DeliveredByKey(Run(Serves(run)).world, I.Run(run).db.outbox, a, b, w);
    RunOfPublishes(Serves(run), more);
    steps := Serves(run) + Publishes(more);
  }

  lemma StoredTwo(s: D.World, outbox: seq<OutboxRow>, a: OutboxRow, b: OutboxRow, w: Uuid)
    requires Mirrors(s.rows, outbox) && Untouched(s) && a in outbox && b in outbox
    requires IsBalanceOf(a, w) && IsBalanceOf(b, w) && Before(b, a)
    ensures b.id in s.rows && s.rows[b.id].content == b && s.rows[b.id].published.None?
    ensures Precedes(s.rows, b.id, a.id)
  {
    var i :| 0 <= i < |outbox| && outbox[i] == a;
    var j :| 0 <= j < |outbox| && outbox[j] == b;
    assert outbox[i].id in s.rows && outbox[j].id in s.rows;
  }

  lemma Unfollowed(outbox: seq<OutboxRow>, t: D.World, a: OutboxRow, b: OutboxRow, w: Uuid)
    requires a in outbox && IsBalanceOf(a, w) && IsBalanceOf(b, w) && a.event.version < b.event.version
    requires NeverSent(t, a.id) && t.log != [] && t.log[|t.log| - 1] == Sent(b.id, b)
    ensures !FollowsVersions(outbox, t.log, w)
  {
    var j := |t.log| - 1;
    assert IsBalanceOf(t.log[j].content, w) && !D.InLogBefore(t.log, a.id, j);
  }

  /** Main result: however the service and the publishers go on, first deliveries of the
      balance events of w follow its versions, if and only if its movements were prompt. */
  lemma DeliveriesFollowVersionsIffPrompt(run: seq<I.Step>, w: Uuid)
    ensures AlwaysPrompt(run, w) <==>
              forall steps :: Run(steps).run == run ==> FollowsVersions(I.Run(run).db.outbox, Run(steps).world.log, w)
  {
    if AlwaysPrompt(run, w) {
      forall steps | Run(steps).run == run ensures FollowsVersions(I.Run(run).db.outbox, Run(steps).world.log, w) {
        PromptDeliveriesFollow(steps, w);
      }
    } else {
      var steps := SomeDeliveryOvertakes(run, w);
      assert Run(steps).run == run;
    }
  }

  /** So a movement that took its instant before another, but commits after it, can be
      delivered first. */
  lemma LateMovementOvertakes() returns (steps: seq<JointStep>)
    ensures I.Run(Run(steps).run).db.outbox == LateOutbox()
    ensures !FollowsVersions(LateOutbox(), Run(steps).world.log, 1)
  {
    var late := LateMovementBreaksOrder();
    steps := SomeDeliveryOvertakes(late, 1);
  }

  /** And it is not enough that nothing is stored below a published event: the same two
      movements, the first claimed before the second commits, misorder the stream. */
  lemma LateMovementEscapes() returns (run: seq<I.Step>, steps: seq<D.Step>)
    ensures I.Run(run).db.outbox == LateOutbox()
    ensures |steps| == 4 && steps[0] == D.Store(LateOutbox()[0]) && steps[2] == D.Store(LateOutbox()[2])
    ensures !D.InOrder(D.Run(steps))
    ensures forall id :: id in D.Run(steps).rows ==> D.Run(steps).rows[id].published.None?
  {
    run := LateMovementBreaksOrder();
    steps := D.PublishedIsNotEnough(LateOutbox()[2], LateOutbox()[0]);
  }
}
