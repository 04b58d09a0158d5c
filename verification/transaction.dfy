/** The transaction aggregate: the life cycle of one operation. */
module Transactions {
  import opened Domain
  import opened Rules
  import opened Tables

  datatype TransitionError = TerminalState | InvalidTransition | InvalidArgument

  /** The transitions assertTransition lets through. */
  predicate Allowed(from: Status, to: Status) {
    match from
    case Pending => to != Pending
    case PendingReference => to.IsTerminal()
    case _ => false
  }

  function Refusal(from: Status): TransitionError {
    if from.IsTerminal() then TerminalState else InvalidTransition
  }

  class Transaction {
    const id: Uuid
    const terms: Terms
    var status: Status
    var failure: Option<Code>
    var reference: Option<Uuid>
    var result: Option<int>
    var attempts: nat
    var due: Option<Time>
    var updatedAt: Time

    function Row(): TxRow
      reads this
    {
      TxRow(terms, status, failure, reference, result, attempts, due, updatedAt)
    }

    /** A new external operation; its fields have been validated. */
    constructor NewExternal(id: Uuid, key: Name, payload: Payload, now: Time)
      requires ValidExternal(key, payload)
      ensures this.id == id && Row() == PendingRow(key, payload, now)
    {
      this.id, this.terms := id, Terms(External, key, payload, now);
      status, failure, reference, result := Pending, None, None, None;
      attempts, due, updatedAt := 0, None, now;
    }

    constructor Rehydrate(id: Uuid, row: TxRow)
      ensures this.id == id && Row() == row
    {
      this.id, this.terms := id, row.terms;
      status, failure, reference, result := row.status, row.failure, row.reference, row.result;
      attempts, due, updatedAt := row.attempts, row.due, row.updatedAt;
    }

    method MarkPendingReference(now: Time) returns (error: Option<TransitionError>)
      modifies this
      ensures error == if Allowed(old(status), PendingReference) then None else Some(Refusal(old(status)))
      ensures Row() == if error.None? then old(Row()).(status := PendingReference, updatedAt := now) else old(Row())
    {
      if !Allowed(status, PendingReference) { return Some(Refusal(status)); }
      status, updatedAt := PendingReference, now;
      return None;
    }

    method ScheduleRetry(next: Time, now: Time) returns (error: Option<TransitionError>)
      modifies this
      ensures error == if old(status).IsTerminal() then Some(TerminalState)
                       else if next == 0 then Some(InvalidArgument) else None
      ensures Row() == if error.None?
                       then old(Row()).(attempts := old(attempts) + 1, due := Some(next), updatedAt := now)
                       else old(Row())
    {
      if status != Pending && status != PendingReference { return Some(TerminalState); }
      if next == 0 { return Some(InvalidArgument); }
      attempts, due, updatedAt := attempts + 1, Some(next), now;
      return None;
    }

    method MarkProcessed(balance: int, now: Time) returns (error: Option<TransitionError>)
      modifies this
      ensures error == if Allowed(old(status), Processed) then None else Some(Refusal(old(status)))
      ensures Row() == if error.None? then Finished(old(Row()), balance, old(reference), now) else old(Row())
    {
      if !Allowed(status, Processed) { return Some(Refusal(status)); }
      status, result, failure, due, updatedAt := Processed, Some(balance), None, None, now;
      return None;
    }

    method MarkRejected(code: Code, balance: Option<int>, now: Time) returns (error: Option<TransitionError>)
      modifies this
      ensures error == if Allowed(old(status), Rejected) then None else Some(Refusal(old(status)))
      ensures Row() == if error.None? then Refused(old(Row()), code, balance, now) else old(Row())
    {
      if !Allowed(status, Rejected) { return Some(Refusal(status)); }
      status, failure, result, due, updatedAt := Rejected, Some(code), balance, None, now;
      return None;
    }

    method MarkFailed(code: Code, now: Time) returns (error: Option<TransitionError>)
      modifies this
      ensures error == if Allowed(old(status), Failed) then None else Some(Refusal(old(status)))
      ensures Row() == if error.None?
                       then old(Row()).(status := Failed, failure := Some(code), due := None, updatedAt := now)
                       else old(Row())
    {
      if !Allowed(status, Failed) { return Some(Refusal(status)); }
      status, failure, due, updatedAt := Failed, Some(code), None, now;
      return None;
    }

    method SetReferenceResolution(reference: Uuid, now: Time)
      modifies this
      ensures Row() == old(Row()).(reference := Some(reference), updatedAt := now)
    {
      this.reference, updatedAt := Some(reference), now;
    }
  }

  // ----- any sequence of calls ------------------------------------------------------

  datatype Call =
    | CallPendingReference(now: Time)
    | CallScheduleRetry(next: Time, now: Time)
    | CallProcessed(balance: int, now: Time)
    | CallRejected(code: Code, observed: Option<int>, now: Time)
    | CallFailed(code: Code, now: Time)
    | CallResolution(reference: Uuid, now: Time)

  /** The effect the contracts above give a call. */
  function Called(r: TxRow, c: Call): TxRow {
    match c
    case CallPendingReference(now) =>
      if Allowed(r.status, PendingReference) then r.(status := PendingReference, updatedAt := now) else r
    case CallScheduleRetry(next, now) =>
      if r.status.IsTerminal() || next == 0 then r
      else r.(attempts := r.attempts + 1, due := Some(next), updatedAt := now)
    case CallProcessed(balance, now) =>
      if Allowed(r.status, Processed) then Finished(r, balance, r.reference, now) else r
    case CallRejected(code, observed, now) =>
      if Allowed(r.status, Rejected) then Refused(r, code, observed, now) else r
    case CallFailed(code, now) =>
      if Allowed(r.status, Failed) then r.(status := Failed, failure := Some(code), due := None, updatedAt := now)
      else r
    case CallResolution(reference, now) => r.(reference := Some(reference), updatedAt := now)
  }

  function CalledAll(r: TxRow, cs: seq<Call>): TxRow
    decreases |cs|
  {
    if cs == [] then r else CalledAll(Called(r, cs[0]), cs[1..])
  }

  /** A final outcome is final: status, failure code, balance and attempts outlive any calls. */
  lemma {:induction false} OutcomeIsFinal(r: TxRow, cs: seq<Call>)
    requires r.status.IsTerminal()
    ensures var s := CalledAll(r, cs);
            s.status == r.status && s.failure == r.failure && s.result == r.result && s.attempts == r.attempts
                && s.due == r.due
    decreases |cs|
  {
    if cs != [] {
      OutcomeIsFinal(Called(r, cs[0]), cs[1..]);
    }
  }

  /** The whole aggregate is immutable once final exactly under calls that do not set the
      reference, which has no terminal guard: only the stored row is protected from it. */
  lemma FinalAggregateIffUnresolved(r: TxRow, c: Call)
    requires r.status.IsTerminal()
    ensures Called(r, c) == r <==> !(c.CallResolution? && (r.reference != Some(c.reference) || r.updatedAt != c.now))
  {
  }

  lemma ResolutionChangesFinalAggregate(r: TxRow, reference: Uuid, now: Time)
    requires r.status.IsTerminal() && r.reference != Some(reference)
    ensures Called(r, CallResolution(reference, now)) != r
  {
    assert Called(r, CallResolution(reference, now)).reference == Some(reference);
  }

  /** Statuses only move forward: from PENDING to PENDING_REFERENCE to a final status. */
  function Rank(s: Status): nat {
    match s
    case Pending => 0
    case PendingReference => 1
    case _ => 2
  }

  lemma {:induction false} StatusesMoveForward(r: TxRow, cs: seq<Call>)
    ensures Rank(r.status) <= Rank(CalledAll(r, cs).status)
    ensures Rank(r.status) == Rank(CalledAll(r, cs).status) ==> r.status == CalledAll(r, cs).status
    ensures r.attempts <= CalledAll(r, cs).attempts && r.terms == CalledAll(r, cs).terms
    decreases |cs|
  {
    if cs != [] {
      StatusesMoveForward(Called(r, cs[0]), cs[1..]);
    }
  }
}
