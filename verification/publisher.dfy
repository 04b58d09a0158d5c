/** The publisher's round over one batch. */
module Publishers {
  import opened Domain
  import opened Backoffs
  import opened Outboxes

  /** What publishing comes to: confirmed, refused, or received although an error came back. */
  datatype Answer = Accepted | Refused | Unconfirmed

  /** A call of the broker and its answer. */
  datatype Call = Call(sent: Sent, answer: Answer)

  /** One event's turn in a round: the broker's answer, whether the database could be written
      afterwards, the rows it was written to, and when. */
  datatype Try = Try(answer: Answer, saved: bool, before: Rows, at: Time)

  /** The event is counted: accepted, and its confirmation stored by nobody before. */
  predicate Counts(e: Claimed, t: Try) {
    t.answer == Accepted && t.saved && e.id in t.before && t.before[e.id].published.None?
  }

  /** The rows after a try, given the wait until the next one. */
  function RowsAfter(e: Claimed, t: Try, wait: int): Rows {
    if !t.saved then t.before
    else if t.answer == Accepted then Confirmed(t.before, e.id, t.at)
    else Rescheduled(t.before, e.id, t.at + wait)
  }

  function Counted(batch: seq<Claimed>, tries: seq<Try>): nat
    requires |tries| <= |batch|
  {
    if tries == [] then 0
    else
      var n := |tries| - 1;
      Counted(batch, tries[..n]) + (if Counts(batch[n], tries[n]) then 1 else 0)
  }

  function CallOf(e: Claimed, t: Try): Call {
    Call(Sent(e.id, e.content), t.answer)
  }

  /** The broker was called for the first events of the batch, in order. */
  predicate Called(start: seq<Call>, calls: seq<Call>, batch: seq<Claimed>, tries: seq<Try>)
    requires |tries| <= |batch|
  {
    && |calls| == |start| + |tries| && start <= calls
    && forall i :: 0 <= i < |tries| ==> calls[|start| + i] == CallOf(batch[i], tries[i])
  }

  /** Each counted event is published, at the moment of its try. */
  predicate CountedArePublished(batch: seq<Claimed>, tries: seq<Try>, rows: Rows)
    requires |tries| <= |batch|
  {
    forall i :: 0 <= i < |tries| && Counts(batch[i], tries[i]) ==>
      batch[i].id in rows && rows[batch[i].id].published == Some(tries[i].at)
  }

  class Publisher {
    const repo: OutboxRepository
    const name: Name
    const batchSize: int
    const base: int
    const cap: int
    const ttl: nat
    const broker: nat -> Answer
    const stores: nat -> bool
    var calls: seq<Call>

    ghost predicate Valid()
      reads this, repo
    {
      repo.Valid() && 1 <= batchSize && 0 < base && 0 < cap
    }

    /** Settings that are not positive are replaced: 20 events, 2 s to 5 min, 30 s. */
    constructor (repo: OutboxRepository, name: Name, batchSize: int, base: int, cap: int, ttl: int,
                 broker: nat -> Answer, stores: nat -> bool)
      requires repo.Valid()
      ensures Valid() && this.repo == repo && this.name == name && calls == []
      ensures this.batchSize == (if batchSize < 1 then 20 else batchSize)
      ensures this.base == (if base <= 0 then 2_000_000_000 else base)
      ensures this.cap == (if cap <= 0 then 300_000_000_000 else cap)
      ensures this.ttl == (if ttl <= 0 then 30_000_000_000 else ttl)
    {
      this.repo, this.name := repo, name;
      this.batchSize := if batchSize < 1 then 20 else batchSize;
      this.base := if base <= 0 then 2_000_000_000 else base;
      this.cap := if cap <= 0 then 300_000_000_000 else cap;
      this.ttl := if ttl <= 0 then 30_000_000_000 else ttl;
      this.broker, this.stores, this.calls := broker, stores, [];
    }

    /** The wait before the attempt after `attempts` failures. */
    method Wait(attempts: nat) returns (wait: int)
      requires Valid()
      ensures wait == Doubled(base, attempts, cap)
      ensures Safe(base, cap) ==> wait == Min(base * Pow2(attempts), cap)
    {
      wait := Backoff(base, cap, attempts + 1);
      if Safe(base, cap) {
        SafeDoubling(base, attempts, cap);
      }
    }

    /** Delivers one claimed event, outside any transaction, then stores the outcome, if the
        database lets it: accepted and unpublished, it is confirmed and counts; refused or
        unanswered, it is rescheduled. */
    method PublishOne(e: Claimed) returns (ok: bool, ghost t: Try)
      requires Valid()
      modifies this`calls, repo
      ensures Valid() && RowsAdvance(old(repo.rows), t.before) && RowsAdvance(t.before, repo.rows)
      ensures calls == old(calls) + [CallOf(e, t)]
      ensures t.answer == broker(old(repo.turn)) && t.saved == stores(old(repo.turn) + 2)
      ensures ok <==> Counts(e, t)
      ensures repo.rows == RowsAfter(e, t, Doubled(base, e.attempts, cap))
      ensures ok ==> e.id in repo.rows && repo.rows[e.id].published == Some(t.at)
      ensures Safe(base, cap) ==> Doubled(base, e.attempts, cap) == Min(base * Pow2(e.attempts), cap)
    {
      var answer := broker(repo.turn);
      calls := calls + [Call(Sent(e.id, e.content), answer)];
      repo.Yield();
      var now := repo.Now();
      var saved := stores(repo.turn);
      t := Try(answer, saved, repo.rows, now);
      ok := false;
      var wait := Wait(e.attempts);
      if saved {
        if answer == Accepted {
          ok := repo.MarkPublished(e.id, now);
        } else {
          repo.MarkFailed(e.id, now + wait);
        }
      }
    }

    /** One round: the broker is called once for each event of the batch, in order and
        whatever fails, and the events counted are exactly those confirmed. */
    method PublishDue(busy: set<Uuid>)
      returns (published: nat, ghost batch: seq<Claimed>, ghost tries: seq<Try>, ghost at: Rows, ghost now: Time)
      requires Valid()
      modifies this`calls, repo
      ensures Valid() && RowsAdvance(old(repo.rows), at) && RowsAdvance(at, repo.rows)
      ensures Fair(at, batch, now, ttl) && |batch| <= batchSize
      ensures |batch| < batchSize ==> forall id :: Claimable(at, id, now, ttl) && id !in busy ==> id in IdsOf(batch)
      ensures |tries| == |batch| && Called(old(calls), calls, batch, tries)
      ensures published == Counted(batch, tries) && CountedArePublished(batch, tries, repo.rows)
    {
      repo.Yield();
      var time := repo.Now();
      now, at := time, repo.rows;
      var claimed := repo.Claim(name, time, batchSize, ttl, busy);
      batch := claimed;
      published, tries := 0, [];
      var i := 0;
      while i < |claimed|
        invariant Valid() && 0 <= i == |tries| <= |batch| && RowsAdvance(at, repo.rows)
        invariant Called(old(calls), calls, batch, tries)
        invariant published == Counted(batch, tries) && CountedArePublished(batch, tries, repo.rows)
      {
        ghost var rows, made := repo.rows, calls;
        ghost var t;
        var ok;
        ok, t := PublishOne(claimed[i]);
        RowsAdvanceTransitive(rows, t.before, repo.rows);
        RowsAdvanceTransitive(at, rows, repo.rows);
        CallsGoOn(old(calls), made, batch, tries, t);
        RoundGoesOn(batch, tries, t, rows, repo.rows);
        tries := tries + [t];
        if ok {
          published := published + 1;
        }
        i := i + 1;
      }
    }
  }

  lemma CallsGoOn(start: seq<Call>, calls: seq<Call>, batch: seq<Claimed>, tries: seq<Try>, t: Try)
    requires |tries| < |batch| && Called(start, calls, batch, tries)
    ensures Called(start, calls + [CallOf(batch[|tries|], t)], batch, tries + [t])
  {
  }

  lemma RoundGoesOn(batch: seq<Claimed>, tries: seq<Try>, t: Try, rows: Rows, after: Rows)
    requires |tries| < |batch| && CountedArePublished(batch, tries, rows) && RowsAdvance(rows, after)
    requires Counts(batch[|tries|], t) ==>
               batch[|tries|].id in after && after[batch[|tries|].id].published == Some(t.at)
    ensures CountedArePublished(batch, tries + [t], after)
    ensures Counted(batch, tries + [t]) == Counted(batch, tries) + (if Counts(batch[|tries|], t) then 1 else 0)
  {
    assert (tries + [t])[..|tries|] == tries;
  }
}
