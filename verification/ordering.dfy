/** Event keys against wallet versions. The publisher takes the events of a wallet in the
    order of (occurred_at, event_id); the versions count them in the order they committed. The
    two agree exactly when each movement's key comes after that of the movement before it. */
module Ordering {
  import opened Domain
  import opened Rules
  import opened Tables
  import opened Invariants
  import opened Notices
  import opened Safety
  import opened Interleaving
  import opened Atomicity
  import opened Solo

  datatype EventKey = EventKey(at: Time, id: Uuid)

  predicate KeyLess(a: EventKey, b: EventKey) {
    a.at < b.at || (a.at == b.at && a.id < b.id)
  }

  predicate IsBalanceOf(r: OutboxRow, w: Uuid) {
    r.event.BalanceChanged? && r.event.wallet == w
  }

  function KeyOf(r: OutboxRow): EventKey {
    EventKey(r.occurredAt, r.id)
  }

  /** The keys of the balance events about w, in the order of its versions. */
  function Keys(outbox: seq<OutboxRow>, w: Uuid): seq<EventKey> {
    if outbox == [] then []
    else
      var r := outbox[|outbox| - 1];
      Keys(outbox[..|outbox| - 1], w) + (if IsBalanceOf(r, w) then [KeyOf(r)] else [])
  }

  predicate Ascending(ks: seq<EventKey>) {
    forall i, j :: 0 <= i < j < |ks| ==> KeyLess(ks[i], ks[j])
  }

  function LastOf(ks: seq<EventKey>): EventKey
    requires ks != []
  {
    ks[|ks| - 1]
  }

  predicate Moves(c: Option<Commit>, w: Uuid) {
    c.Some? && c.value.Settled? && c.value.Posts() && c.value.seen.id == w
  }

  /** A movement of w is prompt if its instant and event id come after the wallet's last
      update and its event. */
  predicate Prompt(d: Db, c: Option<Commit>, w: Uuid) {
    Moves(c, w) && w in d.wallets && Keys(d.outbox, w) != [] ==>
      KeyLess(EventKey(d.wallets[w].updatedAt, LastOf(Keys(d.outbox, w)).id), EventKey(c.value.now, c.value.ids.moved))
  }

  predicate AlwaysPrompt(steps: seq<Step>, w: Uuid) {
    steps == [] ||
    var init := steps[..|steps| - 1];
    AlwaysPrompt(init, w) && Prompt(Run(init).db, CommitAt(Run(init), steps[|steps| - 1]), w)
  }

  /** The last balance event of w carries the instant of its last update. */
  predicate Stamped(d: Db, w: Uuid) {
    Keys(d.outbox, w) != [] ==> w in d.wallets && LastOf(Keys(d.outbox, w)).at == d.wallets[w].updatedAt
  }

  // ----- commits ----------------------------------------------------------------------

  lemma KeysAppend(outbox: seq<OutboxRow>, r: OutboxRow, w: Uuid)
    ensures Keys(outbox + [r], w) == Keys(outbox, w) + (if IsBalanceOf(r, w) then [KeyOf(r)] else [])
  {
    assert (outbox + [r])[..|outbox|] == outbox;
  }

  lemma KeysAppendAtMostOne(outbox: seq<OutboxRow>, events: seq<Event>, id: Uuid, now: Time, w: Uuid)
    requires |events| <= 1
    ensures Keys(outbox + At(events, id, now), w)
            == Keys(outbox, w)
               + (if events != [] && events[0].BalanceChanged? && events[0].wallet == w
                  then [EventKey(now, id)] else [])
  {
    if events == [] {
      assert outbox + At(events, id, now) == outbox;
    } else {
      assert At(events, id, now) == [OutboxRow(id, events[0], now)];
      KeysAppend(outbox, OutboxRow(id, events[0], now), w);
    }
  }

  /** A commit adds the key of its posting and nothing else. */
  lemma KeysAfter(d: Db, c: Commit, w: Uuid)
    requires RowsHold(d) && Legal(d, c)
    ensures Keys(Apply(d, c).outbox, w)
            == Keys(d.outbox, w)
               + (if c.Posts() && c.Posting().wallet == w then [EventKey(CommitTime(c), c.ids.moved)] else [])
  {
    if c.Replayed? {
      assert Apply(d, c).outbox == d.outbox;
    } else {
      if c.WritesTx() {
        OneEventPerRow(d, c);
      }
      KeysAppendAtMostOne(d.outbox, PostingEvents(c), c.ids.moved, CommitTime(c), w);
      KeysAppendAtMostOne(d.outbox + BalanceRows(c), TxEvents(c), c.ids.told, CommitTime(c), w);
    }
  }

  /** A posting stamps its wallet; no other commit touches it. */
  lemma PostingStamps(d: Db, c: Commit, w: Uuid)
    requires Legal(d, c)
    ensures c.Posts() && c.Posting().wallet == w ==>
              w in Apply(d, c).wallets && Apply(d, c).wallets[w].updatedAt == CommitTime(c)
    ensures !(c.Posts() && c.Posting().wallet == w) && w in d.wallets ==>
              w in Apply(d, c).wallets && Apply(d, c).wallets[w] == d.wallets[w]
  {
  }

  lemma CommitKeepsStamped(d: Db, c: Commit, w: Uuid)
    requires RowsHold(d) && Legal(d, c) && Stamped(d, w)
    ensures Stamped(Apply(d, c), w)
  {
    KeysAfter(d, c, w);
    PostingStamps(d, c, w);
    if !(c.Posts() && c.Posting().wallet == w) {
      assert Keys(d.outbox, w) + [] == Keys(d.outbox, w);
    }
  }

  lemma AscendingAppend(ks: seq<EventKey>, k: EventKey)
    ensures Ascending(ks + [k]) <==> Ascending(ks) && (ks != [] ==> KeyLess(LastOf(ks), k))
  {
    var more := ks + [k];
    if Ascending(more) {
      forall i, j | 0 <= i < j < |ks| ensures KeyLess(ks[i], ks[j]) {
        assert KeyLess(more[i], more[j]);
      }
      if ks != [] {
        assert KeyLess(more[|ks| - 1], more[|ks|]);
      }
    }
  }

  /** No balance event precedes the opening of its wallet. */
  lemma OpeningIsFirst(d: Db, c: Commit, w: Uuid)
    requires Stamped(d, w) && Legal(d, c) && c.Opened? && c.wallet.id == w
    ensures Keys(d.outbox, w) == []
  {
  }

  /** The order survives a commit exactly if the commit is prompt. */
  lemma CommitKeepsOrderIffPrompt(d: Db, c: Commit, w: Uuid)
    requires RowsHold(d) && Legal(d, c) && Stamped(d, w)
    ensures Ascending(Keys(Apply(d, c).outbox, w)) <==> Ascending(Keys(d.outbox, w)) && Prompt(d, Some(c), w)
  {
    KeysAfter(d, c, w);
    if c.Posts() && c.Posting().wallet == w {
      AscendingAppend(Keys(d.outbox, w), EventKey(CommitTime(c), c.ids.moved));
      if c.Opened? {
        OpeningIsFirst(d, c, w);
      }
    } else {
      assert Keys(d.outbox, w) + [] == Keys(d.outbox, w);
    }
  }

  // ----- schedules ----------------------------------------------------------------------

  lemma {:induction false} RunsAreStamped(steps: seq<Step>, w: Uuid)
    ensures Stamped(Run(steps).db, w)
  {
    if steps != [] {
      var init := steps[..|steps| - 1];
      var s := Run(init);
      RunsAreStamped(init, w);
      RunKeepsInv(init);
      StepRefines(s, steps[|steps| - 1]);
      assert Holds(RowsClaim, s.db);
      if CommitAt(s, steps[|steps| - 1]).Some? {
        CommitKeepsStamped(s.db, CommitAt(s, steps[|steps| - 1]).value, w);
      }
    }
  }

  /** Main result: over any schedule, the publisher's order of a wallet's balance events is the
      order of its versions if and only if every movement was prompt. Nothing in the service
      enforces that. */
  lemma {:induction false} EventKeysFollowVersionsIffPrompt(steps: seq<Step>, w: Uuid)
    ensures Ascending(Keys(Run(steps).db.outbox, w)) <==> AlwaysPrompt(steps, w)
  {
    if steps != [] {
      var init := steps[..|steps| - 1];
      var s := Run(init);
      EventKeysFollowVersionsIffPrompt(init, w);
      RunsAreStamped(init, w);
      RunKeepsInv(init);
      StepRefines(s, steps[|steps| - 1]);
      assert Holds(RowsClaim, s.db);
      if CommitAt(s, steps[|steps| - 1]).Some? {
        CommitKeepsOrderIffPrompt(s.db, CommitAt(s, steps[|steps| - 1]).value, w);
      }
    }
  }

  /** Every movement is stamped strictly after the wallet's last update. */
  predicate AlwaysLater(steps: seq<Step>, w: Uuid) {
    steps == [] ||
    var init := steps[..|steps| - 1];
    var d, c := Run(init).db, CommitAt(Run(init), steps[|steps| - 1]);
    AlwaysLater(init, w) && (Moves(c, w) && w in d.wallets ==> d.wallets[w].updatedAt < c.value.now)
  }

  /** Whatever the event ids, strictly increasing instants are enough. */
  lemma {:induction false} LaterInstantsSuffice(steps: seq<Step>, w: Uuid)
    requires AlwaysLater(steps, w)
    ensures AlwaysPrompt(steps, w) && Ascending(Keys(Run(steps).db.outbox, w))
  {
    if steps != [] {
      LaterInstantsSuffice(steps[..|steps| - 1], w);
    }
    EventKeysFollowVersionsIffPrompt(steps, w);
  }

  // ----- schedules that fail --------------------------------------------------------------

  lemma {:induction false} RunThenAfter(steps: seq<Step>, more: seq<Step>)
    ensures Run(steps + more) == After(Run(steps), more)
    decreases |more|
  {
    if more == [] {
      assert steps + more == steps;
    } else {
      assert (steps + [more[0]])[..|steps|] == steps;
      assert steps + more == steps + [more[0]] + more[1..];
      RunThenAfter(steps + [more[0]], more[1..]);
    }
  }

  /** A wallet of zero balance, just opened: the setting of the failing schedule. */
  const OPENED := WalletRow(1, 2, "BRL", 0, 1, 1, 1)

  predicate IsSample(w: WalletRow) {
    w.id == 1 && w.player == 2 && w.currency == "BRL" && 0 <= w.balance <= 100
  }

  function Gain(external: Name): Payload {
    Payload("p", external, 2, 1, "r", "g", Win, 5, "BRL", NO_NAME)
  }

  /** The tables have room for such a WIN. */
  predicate HasRoom(d: Db, id: Uuid, key: Name, external: Name, now: Time, ids: Ids) {
    && key != NO_NAME && external != NO_NAME
    && 1 in d.wallets && IsSample(d.wallets[1]) && d.wallets[1].createdAt <= now
    && Insertable(d, id, PendingRow(key, Gain(external), now))
    && EntryIdFree(d.ledger, ids.entry) && UnpostedIn(d.ledger, 1, id)
    && EventIdFree(d.outbox, ids.moved) && EventIdFree(d.outbox, ids.told) && ids.moved != ids.told
  }

  /** A WIN of its own, on tables that have room for it, is one legal movement. */
  lemma GainCommits(s: Sys, id: Uuid, key: Name, external: Name, now: Time, ids: Ids)
    returns (steps: seq<Step>, c: Commit)
    requires s.procs == map[] && HasRoom(s.db, id, key, external, now, ids)
    ensures c == Settled(Op(id, true, PendingRow(key, Gain(external), now), Ended(s.db.txs)), s.db.wallets[1],
                         Plan.Move(Credit, None), now, ids, 0, None)
    ensures After(s, steps) == s.(db := Apply(s.db, c))
  {
    var proc := Inserted(s.db, id, key, Gain(external), now, None);
    c := AtomicCommit(s.db, proc, ids, 0);
    assert Passes(s.db, c);
    steps := AtomicIsReachable(s, 0, id, key, Gain(external), now, None, ids, 0);
  }

  /** The events of a WIN on the sample wallet. */
  function GainRows(id: Uuid, before: int, version: int, now: Time, ids: Ids): seq<OutboxRow> {
    [OutboxRow(ids.moved, BalanceChanged(1, id, Credit, 5, before, before + 5, version), now),
     OutboxRow(ids.told, TxProcessed(id, before + 5), now)]
  }

  lemma GainEvents(d: Db, c: Commit, id: Uuid, key: Name, external: Name, now: Time, ids: Ids)
    requires 1 in d.wallets && IsSample(d.wallets[1])
    requires c == Settled(Op(id, true, PendingRow(key, Gain(external), now), Ended(d.txs)), d.wallets[1],
                          Plan.Move(Credit, None), now, ids, 0, None)
    ensures Apply(d, c).outbox == d.outbox + GainRows(id, d.wallets[1].balance, d.wallets[1].version + 1, now, ids)
  {
    var rows := GainRows(id, d.wallets[1].balance, d.wallets[1].version + 1, now, ids);
    assert BalanceRows(c) == [rows[0]] && TxRows(c) == [rows[1]];
  }

  /** The tables after the first WIN. */
  predicate AfterFirst(d: Db) {
    && 1 in d.wallets && d.wallets[1] == WalletRow(1, 2, "BRL", 5, 2, 1, 20)
    && d.txs.Keys == {10} && d.txs[10].terms == PendingRow("k", Gain("a"), 20).terms
    && |d.ledger| == 1 && d.ledger[0].id == 100 && d.ledger[0].tx == 10
    && d.outbox == GainRows(10, 0, 2, 20, Ids(100, 101, 102))
  }

  lemma FirstGain() returns (steps: seq<Step>)
    ensures Run(steps).procs == map[] && AfterFirst(Run(steps).db)
  {
    var open := OpenWallet(1, 2, "BRL", 0, 1, 9, Ids(0, 0, 0));
    var s := Run([open]);
    assert [open][..0] == [];
    assert Run([]) == INIT;
    assert s == INIT.(db := Apply(EMPTY, Opened(OPENED, 9, Ids(0, 0, 0))));
    assert s.db == EMPTY.(wallets := map[1 := OPENED]);
    var more, c := GainCommits(s, 10, "k", "a", 20, Ids(100, 101, 102));
    GainEvents(s.db, c, 10, "k", "a", 20, Ids(100, 101, 102));
    RunThenAfter([open], more);
    steps := [open] + more;
  }

  lemma RoomForSecond(d: Db)
    requires AfterFirst(d)
    ensures HasRoom(d, 11, "l", "b", 10, Ids(200, 201, 202))
  {
    forall id | id in d.txs
      ensures !Names(d.txs[id], "p", "b") && !HoldsKey(d.txs[id], "p", "l")
    {
      assert id == 10 && "a"[0] != "b"[0] && "k"[0] != "l"[0];
    }
  }

  /** The outbox after two WINs of which the second took its instant first. */
  function LateOutbox(): seq<OutboxRow> {
    GainRows(10, 0, 2, 20, Ids(100, 101, 102)) + GainRows(11, 5, 3, 10, Ids(200, 201, 202))
  }

  lemma KeysOfLate()
    ensures Keys(LateOutbox(), 1) == [EventKey(20, 101), EventKey(10, 201)]
  {
    var o := LateOutbox();
    assert o[..3][..2] == o[..2] && o[..2][..1] == o[..1];
    assert o == [] + [o[0]] + [o[1]] + [o[2]] + [o[3]];
    KeysAppend([], o[0], 1);
    KeysAppend([] + [o[0]], o[1], 1);
    KeysAppend([] + [o[0]] + [o[1]], o[2], 1);
    KeysAppend([] + [o[0]] + [o[1]] + [o[2]], o[3], 1);
  }

  /** A schedule in which the order fails: a wallet is opened at 1, a WIN is stamped 20, and
      the next one, which took its instant before, commits after it with 10. */
  lemma LateMovementBreaksOrder() returns (steps: seq<Step>)
    ensures Run(steps).db.outbox == LateOutbox()
    ensures Keys(Run(steps).db.outbox, 1) == [EventKey(20, 101), EventKey(10, 201)]
    ensures !Ascending(Keys(Run(steps).db.outbox, 1)) && !AlwaysPrompt(steps, 1)
  {
    var first := FirstGain();
    var s := Run(first);
    RoomForSecond(s.db);
    var more, c := GainCommits(s, 11, "l", "b", 10, Ids(200, 201, 202));
    GainEvents(s.db, c, 11, "l", "b", 10, Ids(200, 201, 202));
    RunThenAfter(first, more);
    steps := first + more;
    KeysOfLate();
    var ks := Keys(Run(steps).db.outbox, 1);
    assert !KeyLess(ks[0], ks[1]);
    EventKeysFollowVersionsIffPrompt(steps, 1);
  }
}
