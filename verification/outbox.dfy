/** The outbox table and its publisher: claim a batch, deliver it outside any transaction,
    then confirm or reschedule each event. */
module Outboxes {
  import opened Domain

  datatype Lock = Lock(publisher: Name, at: Time)

  /** A row of outbox_events; the stored snapshot never changes, the rest is bookkeeping. */
  datatype Row = Row(content: OutboxRow, attempts: nat, next: Time, published: Option<Time>, lock: Option<Lock>)

  type Rows = map<Uuid, Row>

  /** What the broker is handed: the stable event id and the stored snapshot. */
  datatype Sent = Sent(id: Uuid, content: OutboxRow)

  datatype Claimed = Claimed(id: Uuid, content: OutboxRow, attempts: nat)

  /** The stream an event belongs to: its wallet's or its transaction's. */
  function Aggregate(e: Event): Uuid {
    match e
    case BalanceChanged(w, _, _, _, _, _, _) => w
    case TxProcessed(tx, _) => tx
    case TxRejected(tx, _) => tx
    case TxPendingReference(tx, _, _) => tx
  }

  predicate SameStream(a: Row, b: Row) {
    Aggregate(a.content.event) == Aggregate(b.content.event)
  }

  /** The order within a stream: (occurred_at, event_id). */
  predicate Precedes(rows: Rows, a: Uuid, b: Uuid) {
    a in rows && b in rows && SameStream(rows[a], rows[b]) && Before(rows, a, b)
  }

  predicate Before(rows: Rows, a: Uuid, b: Uuid)
    requires a in rows && b in rows
  {
    || rows[a].content.occurredAt < rows[b].content.occurredAt
    || (rows[a].content.occurredAt == rows[b].content.occurredAt && a < b)
  }

  predicate Earliest(rows: Rows, id: Uuid) {
    forall k :: k in rows && rows[k].published.None? ==> !Precedes(rows, k, id)
  }

  /** Not locked, or locked by somebody who has had more than the lock's time to live. */
  predicate LockIsOpen(r: Row, now: Time, ttl: nat) {
    r.lock.None? || r.lock.value.at + ttl < now
  }

  /** The filter of the claim. */
  predicate Claimable(rows: Rows, id: Uuid, now: Time, ttl: nat) {
    && id in rows && rows[id].published.None? && rows[id].next <= now
    && LockIsOpen(rows[id], now, ttl) && Earliest(rows, id)
  }

  function Locked(rows: Rows, ids: set<Uuid>, publisher: Name, now: Time): Rows {
    map id | id in rows :: if id in ids then rows[id].(lock := Some(Lock(publisher, now))) else rows[id]
  }

  function Confirmed(rows: Rows, id: Uuid, now: Time): Rows {
    if id in rows && rows[id].published.None? then rows[id := rows[id].(published := Some(now), lock := None)] else rows
  }

  function Rescheduled(rows: Rows, id: Uuid, next: Time): Rows {
    if id in rows && rows[id].published.None?
    then rows[id := rows[id].(attempts := rows[id].attempts + 1, next := next, lock := None)] else rows
  }

  /** Rows stay, keep their snapshot, and once published never change again. */
  predicate RowsAdvance(a: Rows, b: Rows) {
    forall id :: id in a ==> id in b && b[id].content == a[id].content && (a[id].published.Some? ==> b[id] == a[id])
  }

  lemma RowsAdvanceTransitive(a: Rows, b: Rows, c: Rows)
    requires RowsAdvance(a, b) && RowsAdvance(b, c)
    ensures RowsAdvance(a, c)
  {
    forall id | id in a
      ensures id in c && c[id].content == a[id].content && (a[id].published.Some? ==> c[id] == a[id])
    {
      assert id in b;
    }
  }

  function IdsOf(batch: seq<Claimed>): set<Uuid> {
    set e | e in batch :: e.id
  }

  /** A batch as the claim hands it out: from claimable rows, at most one of each stream. */
  predicate Fair(rows: Rows, batch: seq<Claimed>, now: Time, ttl: nat) {
    && (forall e :: e in batch ==>
          Claimable(rows, e.id, now, ttl) && e == Claimed(e.id, rows[e.id].content, rows[e.id].attempts))
    && (forall i, j :: 0 <= i < j < |batch| ==> batch[i].id != batch[j].id)
  }

  lemma OnePerStream(rows: Rows, batch: seq<Claimed>, now: Time, ttl: nat, i: nat, j: nat)
    requires Fair(rows, batch, now, ttl) && i < j < |batch|
    ensures Aggregate(batch[i].content.event) != Aggregate(batch[j].content.event)
  {
    assert batch[i] in batch && batch[j] in batch;
    var a, b := batch[i].id, batch[j].id;
    assert !Precedes(rows, a, b) && !Precedes(rows, b, a);
  }

  // ----- the least unpublished event ----------------------------------------------------

  /** Every stream with unpublished events has a least one. */
  lemma {:induction false} LeastExists(rows: Rows, ids: set<Uuid>, id: Uuid) returns (least: Uuid)
    requires id in ids && ids <= rows.Keys
    ensures least in ids && SameStream(rows[least], rows[id])
    ensures forall k :: k in ids ==> !Precedes(rows, k, least)
    decreases |ids|
  {
    if k :| k in ids && Precedes(rows, k, id) {
      assert id !in ids - {id};
      least := LeastExists(rows, ids - {id}, k);
      assert !Precedes(rows, id, least);
    } else {
      least := id;
    }
  }

  /** Nothing is stranded: in whatever state publishers have left the rows, the least
      unpublished event of a stream passes the claim's filter from the moment its retry time
      has come and its lock, if any, has expired. */
  lemma NothingIsStranded(rows: Rows, id: Uuid, ttl: nat) returns (least: Uuid, from: Time)
    requires id in rows && rows[id].published.None?
    ensures least in rows && rows[least].published.None? && SameStream(rows[least], rows[id])
    ensures forall now: Time :: from <= now ==> Claimable(rows, least, now, ttl)
    ensures from == (if rows[least].lock.Some? && rows[least].next <= rows[least].lock.value.at + ttl
                     then rows[least].lock.value.at + ttl + 1 else rows[least].next)
  {
    var ids := set k | k in rows && rows[k].published.None?;
    least := LeastExists(rows, ids, id);
    from := if rows[least].lock.Some? && rows[least].next <= rows[least].lock.value.at + ttl
            then rows[least].lock.value.at + ttl + 1 else rows[least].next;
    assert Earliest(rows, least);
  }

  // ----- the repository -----------------------------------------------------------------

  /** Other publishers and the transactions that store events, as any function of the moment
      and of the rows under which rows advance. */
  ghost predicate Peers(others: (nat, Rows) -> Rows) {
    forall n: nat, rows: Rows :: RowsAdvance(rows, others(n, rows))
  }

  class OutboxRepository {
    var rows: Rows
    var turn: nat
    const others: (nat, Rows) -> Rows
    const clock: nat -> Time

    ghost predicate Valid()
      reads this
    {
      Peers(others)
    }

    constructor (rows: Rows, others: (nat, Rows) -> Rows, clock: nat -> Time)
      requires Peers(others)
      ensures Valid() && this.rows == rows
    {
      this.rows, this.others, this.clock, this.turn := rows, others, clock, 0;
    }

    method Yield()
      requires Valid()
      modifies this
      ensures Valid() && RowsAdvance(old(rows), rows)
      ensures rows == others(old(turn), old(rows)) && turn == old(turn) + 1
    {
      rows := others(turn, rows);
      turn := turn + 1;
    }

    method Now() returns (now: Time)
      modifies this`turn
      ensures now == clock(old(turn)) && turn == old(turn) + 1
    {
      now := clock(turn);
      turn := turn + 1;
    }

    /** Stores an event; it is due from the moment it occurred. */
    method Insert(content: OutboxRow) returns (ok: bool)
      modifies this`rows
      ensures ok == (content.id !in old(rows))
      ensures rows == if ok then old(rows)[content.id := Row(content, 0, content.occurredAt, None, None)] else old(rows)
    {
      if content.id in rows { return false; }
      rows := rows[content.id := Row(content, 0, content.occurredAt, None, None)];
      return true;
    }

    /** The first of some rows in (occurred_at, event_id) order. */
    method First(ids: set<Uuid>) returns (first: Uuid)
      requires ids != {} && ids <= rows.Keys
      ensures first in ids && forall k :: k in ids ==> k == first || Before(rows, first, k)
    {
      first :| first in ids;
      var rest := ids - {first};
      while rest != {}
        invariant rest <= ids && first in ids
        invariant forall k :: k in ids && k !in rest ==> k == first || Before(rows, first, k)
        decreases rest
      {
        var id :| id in rest;
        rest := rest - {id};
        if !Before(rows, first, id) && id != first {
          first := id;
        }
      }
    }

    /** Locks the first `limit` claimable rows, passing over those a concurrent claim is
        locking. */
    method Claim(publisher: Name, now: Time, limit: int, ttl: nat, busy: set<Uuid>) returns (batch: seq<Claimed>)
      modifies this`rows
      ensures Fair(old(rows), batch, now, ttl) && IdsOf(batch) !! busy
      ensures |batch| <= (if limit <= 0 then 10 else limit)
      ensures forall id :: Claimable(old(rows), id, now, ttl) && id !in busy && id !in IdsOf(batch) ==>
                && |batch| == (if limit <= 0 then 10 else limit)
                && forall k :: k in IdsOf(batch) ==> Before(old(rows), k, id)
      ensures rows == Locked(old(rows), IdsOf(batch), publisher, now)
    {
      var n := if limit <= 0 then 10 else limit;
      batch := [];
      var rest := set id | id in rows && Claimable(rows, id, now, ttl) && id !in busy;
      while rest != {} && |batch| < n
        invariant rows == old(rows)
        invariant |batch| <= n && rest <= rows.Keys && IdsOf(batch) !! rest && IdsOf(batch) !! busy
        invariant forall id :: id in rest ==> Claimable(rows, id, now, ttl)
        invariant Fair(rows, batch, now, ttl)
        invariant forall id :: Claimable(rows, id, now, ttl) && id !in busy ==> id in rest || id in IdsOf(batch)
        invariant forall id, k :: id in rest && k in IdsOf(batch) ==> Before(rows, k, id)
        decreases rest
      {
        var id := First(rest);
        rest := rest - {id};
        AddToBatch(rows, batch, id, now, ttl);
        batch := batch + [Claimed(id, rows[id].content, rows[id].attempts)];
      }
      rows := Locked(rows, IdsOf(batch), publisher, now);
    }

    method MarkPublished(id: Uuid, now: Time) returns (ok: bool)
      modifies this`rows
      ensures ok == (id in old(rows) && old(rows)[id].published.None?)
      ensures rows == Confirmed(old(rows), id, now)
    {
      if id !in rows || rows[id].published.Some? { return false; }
      rows := rows[id := rows[id].(published := Some(now), lock := None)];
      return true;
    }

    method MarkFailed(id: Uuid, next: Time)
      modifies this`rows
      ensures rows == Rescheduled(old(rows), id, next)
    {
      if id in rows && rows[id].published.None? {
        rows := rows[id := rows[id].(attempts := rows[id].attempts + 1, next := next, lock := None)];
      }
    }
  }

  lemma AddToBatch(rows: Rows, batch: seq<Claimed>, id: Uuid, now: Time, ttl: nat)
    requires Fair(rows, batch, now, ttl) && Claimable(rows, id, now, ttl) && id !in IdsOf(batch)
    ensures var more := batch + [Claimed(id, rows[id].content, rows[id].attempts)];
            Fair(rows, more, now, ttl) && IdsOf(more) == IdsOf(batch) + {id}
  {
    var more := batch + [Claimed(id, rows[id].content, rows[id].attempts)];
    forall i | 0 <= i < |batch| ensures batch[i].id != id {
      assert batch[i] in batch;
    }
    assert forall e :: e in more <==> e in batch || e == more[|batch|];
    assert IdsOf(more) == IdsOf(batch) + {id} by {
      assert more[|batch|] in more;
      assert forall e :: e in batch ==> e in more;
    }
  }
}
