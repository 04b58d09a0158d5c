/** The outbox is complete: what it announces is exactly what the tables hold. */
module Notices {
  import opened Domain
  import opened Tables
  import opened Invariants
  import opened Progress
  import opened Commits

  /** The balance announcements, in the order they were stored. */
  function BalanceEvents(outbox: seq<OutboxRow>): seq<Event> {
    if outbox == [] then []
    else
      var e := outbox[|outbox| - 1].event;
      BalanceEvents(outbox[..|outbox| - 1]) + (if e.BalanceChanged? then [e] else [])
  }

  predicate About(e: Event, id: Uuid) {
    match e
    case BalanceChanged(_, _, _, _, _, _, _) => false
    case TxProcessed(tx, _) => tx == id
    case TxRejected(tx, _) => tx == id
    case TxPendingReference(tx, _, _) => tx == id
  }

  /** The announcements about one transaction, in the order they were stored. */
  function Trail(outbox: seq<OutboxRow>, id: Uuid): seq<Event> {
    if outbox == [] then []
    else
      var e := outbox[|outbox| - 1].event;
      Trail(outbox[..|outbox| - 1], id) + (if About(e, id) then [e] else [])
  }

  /** What the ledger asks to be announced: each entry, with the wallet's version after it. */
  function Announced(txs: map<Uuid, TxRow>, ledger: seq<EntryRow>): seq<Event> {
    if ledger == [] then []
    else
      var e := ledger[|ledger| - 1];
      Announced(txs, ledger[..|ledger| - 1])
      + [BalanceChanged(e.wallet, e.tx, e.direction, e.amount, e.before, e.after, 1 + Bumps(txs, ledger, e.wallet))]
  }

  predicate BalancesAnnounced(db: Db) {
    BalanceEvents(db.outbox) == Announced(db.txs, db.ledger)
  }

  /** One event for each parking, numbered from 1, then one for the final status. */
  predicate TrailHolds(trail: seq<Event>, r: TxRow, id: Uuid) {
    && |trail| == r.attempts + (if r.status.IsTerminal() then 1 else 0)
    && (forall i :: 0 <= i < r.attempts ==> trail[i].TxPendingReference? && trail[i].attempt == i + 1)
    && (r.status == Processed ==> r.result.Some? && trail[r.attempts] == TxProcessed(id, r.result.value))
    && (r.status == Rejected ==> r.failure.Some? && trail[r.attempts] == TxRejected(id, r.failure.value))
  }

  ghost predicate TrailsHold(db: Db) {
    && (forall id :: id in db.txs ==> TrailHolds(Trail(db.outbox, id), db.txs[id], id))
    && (forall id | id !in db.txs :: Trail(db.outbox, id) == [])
  }

  // ----- appending ------------------------------------------------------------------

  lemma AppendOne(outbox: seq<OutboxRow>, r: OutboxRow)
    ensures BalanceEvents(outbox + [r]) == BalanceEvents(outbox) + (if r.event.BalanceChanged? then [r.event] else [])
    ensures forall id :: Trail(outbox + [r], id) == Trail(outbox, id) + (if About(r.event, id) then [r.event] else [])
  {
    assert (outbox + [r])[..|outbox|] == outbox;
  }

  /** No event or one. */
  lemma AppendAtMostOne(outbox: seq<OutboxRow>, events: seq<Event>, key: Uuid, now: Time, id: Uuid)
    requires |events| <= 1
    ensures BalanceEvents(outbox + At(events, key, now))
            == BalanceEvents(outbox) + (if events != [] && events[0].BalanceChanged? then events else [])
    ensures Trail(outbox + At(events, key, now), id)
            == Trail(outbox, id) + (if events != [] && About(events[0], id) then events else [])
  {
    if events == [] {
      assert outbox + At(events, key, now) == outbox;
    } else {
      assert At(events, key, now) == [OutboxRow(key, events[0], now)] && events == [events[0]];
      AppendOne(outbox, OutboxRow(key, events[0], now));
    }
  }

  lemma AppendBoth(outbox: seq<OutboxRow>, a: seq<Event>, keyA: Uuid, b: seq<Event>, keyB: Uuid, now: Time, id: Uuid)
    requires |a| <= 1 && |b| <= 1
    requires a != [] ==> a[0].BalanceChanged?
    requires b != [] ==> !b[0].BalanceChanged?
    ensures BalanceEvents(outbox + At(a, keyA, now) + At(b, keyB, now)) == BalanceEvents(outbox) + a
    ensures Trail(outbox + At(a, keyA, now) + At(b, keyB, now), id)
            == Trail(outbox, id) + (if b != [] && About(b[0], id) then b else [])
  {
    AppendAtMostOne(outbox, a, keyA, now, id);
    AppendAtMostOne(outbox + At(a, keyA, now), b, keyB, now, id);
    assert Trail(outbox, id) + [] == Trail(outbox, id);
    assert BalanceEvents(outbox) + a + [] == BalanceEvents(outbox) + a;
    if a == [] {
      assert BalanceEvents(outbox) + [] == BalanceEvents(outbox);
    }
  }

  /** A commit stores the balance event first and the transaction event second. */
  lemma AppendCommit(db: Db, c: Commit, id: Uuid)
    requires |TxEvents(c)| <= 1 && (TxEvents(c) != [] ==> !TxEvents(c)[0].BalanceChanged?)
    ensures BalanceEvents(Apply(db, c).outbox) == BalanceEvents(db.outbox) + PostingEvents(c)
    ensures Trail(Apply(db, c).outbox, id)
            == Trail(db.outbox, id) + (if TxEvents(c) != [] && About(TxEvents(c)[0], id) then TxEvents(c) else [])
  {
    if c.Replayed? {
      assert Apply(db, c).outbox == db.outbox;
      assert BalanceEvents(db.outbox) + [] == BalanceEvents(db.outbox);
      assert Trail(db.outbox, id) + [] == Trail(db.outbox, id);
    } else {
      AppendBoth(db.outbox, PostingEvents(c), c.ids.moved, TxEvents(c), c.ids.told, CommitTime(c), id);
    }
  }

  /** Event ids are unique. */
  predicate EventsDiffer(outbox: seq<OutboxRow>) {
    forall i, j :: 0 <= i < |outbox| && 0 <= j < |outbox| && outbox[i].id == outbox[j].id ==> i == j
  }

  lemma FreshRowDiffers(outbox: seq<OutboxRow>, events: seq<Event>, key: Uuid, now: Time)
    requires |events| <= 1 && EventsDiffer(outbox) && (events != [] ==> EventIdFree(outbox, key))
    ensures EventsDiffer(outbox + At(events, key, now))
    ensures forall id :: EventIdFree(outbox, id) && (events != [] ==> id != key) ==>
              EventIdFree(outbox + At(events, key, now), id)
  {
  }

  lemma CommitKeepsEventsDiffer(db: Db, c: Commit)
    requires RowsHold(db) && EventsDiffer(db.outbox) && Legal(db, c)
    ensures EventsDiffer(Apply(db, c).outbox)
  {
    if c.Replayed? {
      assert Apply(db, c).outbox == db.outbox;
    } else {
      if c.WritesTx() {
        OneEventPerRow(db, c);
      }
      FreshRowDiffers(db.outbox, PostingEvents(c), c.ids.moved, CommitTime(c));
      FreshRowDiffers(db.outbox + BalanceRows(c), TxEvents(c), c.ids.told, CommitTime(c));
    }
  }

  lemma OneEventPerRow(db: Db, c: Commit)
    requires RowsHold(db) && Legal(db, c) && c.WritesTx()
    ensures |TxEvents(c)| == 1 && !TxEvents(c)[0].BalanceChanged?
    ensures forall id :: About(TxEvents(c)[0], id) <==> id == c.TxId()
    ensures RowHolds(c.Row())
  {
    RowIsSound(db, c);
  }

  lemma AnnouncedPersists(a: map<Uuid, TxRow>, b: map<Uuid, TxRow>, ledger: seq<EntryRow>)
    requires TxsAdvance(a, b) && EntriesHold(a, ledger)
    ensures Announced(a, ledger) == Announced(b, ledger)
  {
    if ledger != [] {
      var init := ledger[..|ledger| - 1];
      assert EntriesHold(a, init) by {
        forall i | 0 <= i < |init| ensures EntryHolds(a, init[i]) { assert init[i] == ledger[i]; }
      }
      BumpsPersist(a, b, ledger, ledger[|ledger| - 1].wallet);
      AnnouncedPersists(a, b, init);
    }
  }

  /** The announced version is the one the wallet has after the commit. */
  lemma PostingVersion(db: Db, c: Commit)
    requires RowsHold(db) && EntriesHold(db.txs, db.ledger) && WalletsMatch(db) && Legal(db, c) && c.Posts()
    ensures PostingEvents(c)[0].version == 1 + Bumps(Apply(db, c).txs, Apply(db, c).ledger, c.Posting().wallet)
  {
    PostingMatches(db, c, c.Posting().wallet);
  }

  lemma AnnouncedAppend(txs: map<Uuid, TxRow>, ledger: seq<EntryRow>, e: EntryRow)
    ensures Announced(txs, ledger + [e])
            == Announced(txs, ledger)
               + [BalanceChanged(e.wallet, e.tx, e.direction, e.amount, e.before, e.after,
                                 1 + Bumps(txs, ledger + [e], e.wallet))]
  {
    Extend(ledger, e);
  }

  lemma AnnouncedByPosting(db: Db, c: Commit)
    requires RowsHold(db) && EntriesHold(db.txs, db.ledger) && WalletsMatch(db) && Legal(db, c) && c.Posts()
    ensures Announced(Apply(db, c).txs, Apply(db, c).ledger)
            == Announced(Apply(db, c).txs, db.ledger) + PostingEvents(c)
  {
    PostingVersion(db, c);
    AnnouncedAppend(Apply(db, c).txs, db.ledger, c.Posting());
  }

  lemma AnnouncedGrows(db: Db, c: Commit)
    requires RowsHold(db) && EntriesHold(db.txs, db.ledger) && WalletsMatch(db) && Legal(db, c)
    ensures Announced(Apply(db, c).txs, Apply(db, c).ledger) == Announced(db.txs, db.ledger) + PostingEvents(c)
  {
    CommitAdvancesTxs(db, c);
    AnnouncedPersists(db.txs, Apply(db, c).txs, db.ledger);
    if c.Posts() {
      AnnouncedByPosting(db, c);
    }
  }

  lemma CommitKeepsBalancesAnnounced(db: Db, c: Commit)
    requires RowsHold(db) && EntriesHold(db.txs, db.ledger) && WalletsMatch(db) && BalancesAnnounced(db) && Legal(db, c)
    ensures BalancesAnnounced(Apply(db, c))
  {
    if c.WritesTx() {
      OneEventPerRow(db, c);
    }
    AppendCommit(db, c, 0);
    AnnouncedGrows(db, c);
  }

  lemma TrailGrows(trail: seq<Event>, r: TxRow, s: TxRow, e: Event, id: Uuid)
    requires TrailHolds(trail, r, id) && !r.status.IsTerminal()
    requires s.attempts == r.attempts + (if s.status.IsTerminal() then 0 else 1)
    requires match s.status
             case Processed => s.result.Some? && e == TxProcessed(id, s.result.value)
             case Rejected => s.failure.Some? && e == TxRejected(id, s.failure.value)
             case PendingReference => e.TxPendingReference? && e.attempt == s.attempts
             case _ => false
    ensures TrailHolds(trail + [e], s, id)
  {
  }

  /** What a commit announces of its row, which it found with so many attempts. */
  lemma EventOfRow(db: Db, c: Commit)
    requires RowsHold(db) && Legal(db, c) && c.WritesTx()
    ensures |TxEvents(c)| == 1
    ensures var s, e := c.Row(), TxEvents(c)[0];
            && s.attempts == (if c.TxId() in db.txs then db.txs[c.TxId()].attempts else 0)
                             + (if s.status.IsTerminal() then 0 else 1)
            && match s.status
               case Processed => s.result.Some? && e == TxProcessed(c.TxId(), s.result.value)
               case Rejected => s.failure.Some? && e == TxRejected(c.TxId(), s.failure.value)
               case PendingReference => e.TxPendingReference? && e.attempt == s.attempts
               case _ => false
  {
    RowIsSound(db, c);
  }

  lemma NewTrail(db: Db, c: Commit)
    requires RowsHold(db) && TrailsHold(db) && Legal(db, c) && c.WritesTx()
    ensures TrailHolds(Trail(db.outbox, c.TxId()) + TxEvents(c), c.Row(), c.TxId())
  {
    EventOfRow(db, c);
    var e := TxEvents(c)[0];
    assert TxEvents(c) == [e];
    if c.TxId() in db.txs {
      RowShape(db, c);
      TrailGrows(Trail(db.outbox, c.TxId()), db.txs[c.TxId()], c.Row(), e, c.TxId());
    } else {
      assert Trail(db.outbox, c.TxId()) + [e] == [e];
    }
  }

  lemma TrailAfter(db: Db, c: Commit, id: Uuid)
    requires RowsHold(db) && Legal(db, c)
    ensures Trail(Apply(db, c).outbox, id)
            == Trail(db.outbox, id) + (if c.WritesTx() && id == c.TxId() then TxEvents(c) else [])
  {
    if c.WritesTx() {
      OneEventPerRow(db, c);
    }
    AppendCommit(db, c, id);
  }

  lemma TrailKept(trail: seq<Event>, r: TxRow, s: TxRow, id: Uuid)
    requires TrailHolds(trail, r, id) && Kept(r, s)
    ensures TrailHolds(trail + [], s, id)
  {
    assert trail + [] == trail;
  }

  lemma CommitKeepsTrail(db: Db, c: Commit, id: Uuid)
    requires RowsHold(db) && TrailsHold(db) && Legal(db, c) && id in Apply(db, c).txs
    ensures TrailHolds(Trail(Apply(db, c).outbox, id), Apply(db, c).txs[id], id)
  {
    TrailAfter(db, c, id);
    if c.WritesTx() {
      TxsShape(db.txs, c);
    }
    if c.WritesTx() && id == c.TxId() {
      NewTrail(db, c);
    } else {
      TrailKept(Trail(db.outbox, id), db.txs[id], Apply(db, c).txs[id], id);
    }
  }

  lemma CommitKeepsTrails(db: Db, c: Commit)
    requires RowsHold(db) && TrailsHold(db) && Legal(db, c)
    ensures TrailsHold(Apply(db, c))
  {
    var after := Apply(db, c);
    forall id | id in after.txs
      ensures TrailHolds(Trail(after.outbox, id), after.txs[id], id)
    {
      CommitKeepsTrail(db, c, id);
    }
    forall id | id !in after.txs
      ensures Trail(after.outbox, id) == []
    {
      TrailAfter(db, c, id);
      NoRowIsDeleted(db, c, id);
    }
  }

  lemma NoRowIsDeleted(db: Db, c: Commit, id: Uuid)
    requires Legal(db, c) && id !in Apply(db, c).txs
    ensures id !in db.txs && !(c.WritesTx() && id == c.TxId())
  {
    if c.WritesTx() {
      TxsShape(db.txs, c);
    }
  }
}
