/** How a transaction is stored in columns and rebuilt from them. Absent text and instants
    become NULL, and of an amount only the minor units are kept. */
module Columns {
  import opened Domain
  import opened Moneys

  /** The aggregate in memory: the observed balance carries its own currency. */
  datatype Aggregate = Aggregate(
    id: Uuid,
    origin: Origin,
    key: Name,
    payload: Payload,
    referenceId: Option<Uuid>,
    status: Status,
    failure: Name,
    result: Option<Money>,
    attempts: int,
    next: Option<Time>,
    createdAt: Time,
    updatedAt: Time)

  datatype Stored = Stored(
    id: Uuid,
    origin: Origin,
    provider: Option<Name>,
    external: Option<Name>,
    key: Option<Name>,
    wallet: Uuid,
    player: Uuid,
    round: Option<Name>,
    game: Option<Name>,
    kind: Kind,
    amount: int,
    currency: Name,
    reference: Option<Name>,
    referenceId: Option<Uuid>,
    status: Status,
    failure: Option<Name>,
    result: Option<int>,
    attempts: int,
    next: Option<Time>,
    createdAt: Time,
    updatedAt: Time)

  function NullableString(s: Name): Option<Name> { if s == NO_NAME then None else Some(s) }

  function DerefString(s: Option<Name>): Name { if s.None? then NO_NAME else s.value }

  function NullableTime(t: Option<Time>): Option<Time> { if t == Some(0) then None else t }

  function Store(a: Aggregate): Stored {
    var p := a.payload;
    Stored(a.id, a.origin, NullableString(p.provider), NullableString(p.external), NullableString(a.key),
           p.wallet, p.player, NullableString(p.round), NullableString(p.game), p.kind, p.amount, p.currency,
           NullableString(p.reference), a.referenceId, a.status, NullableString(a.failure),
           if a.result.Some? then Some(a.result.value.amount) else None,
           a.attempts, NullableTime(a.next), a.createdAt, a.updatedAt)
  }

  /** The checks made on what is rebuilt. */
  predicate Rehydratable(a: Aggregate) {
    && a.id != NIL && a.payload.wallet != NIL && a.payload.player != NIL
    && a.payload.currency != NO_NAME && 0 <= a.attempts
    && (a.status == Processed && a.payload.kind != Loss ==> a.result.Some?)
    && (a.status == Rejected || a.status == Failed ==> a.failure != NO_NAME)
    && a.createdAt != 0 && a.updatedAt != 0
  }

  function Scan(s: Stored): Option<Aggregate> {
    var a := Aggregate(
      s.id, s.origin, DerefString(s.key),
      Payload(DerefString(s.provider), DerefString(s.external), s.player, s.wallet, DerefString(s.round),
              DerefString(s.game), s.kind, s.amount, s.currency, DerefString(s.reference)),
      s.referenceId, s.status, DerefString(s.failure),
      if s.result.Some? then Some(Money(s.result.value, s.currency)) else None,
      s.attempts, s.next, s.createdAt, s.updatedAt);
    if Rehydratable(a) then Some(a) else None
  }

  lemma TextRoundTrip(s: Name)
    ensures DerefString(NullableString(s)) == s
  {
  }

  /** Reloading accepts exactly what could be rebuilt in the first place, and then changes
      nothing but the label of the observed balance and an instant of zero. */
  lemma ReloadKeepsAllButLabel(a: Aggregate)
    ensures Scan(Store(a)).Some? <==> Rehydratable(a)
    ensures Rehydratable(a) ==>
              Scan(Store(a)).value
              == a.(result := if a.result.Some? then Some(Money(a.result.value.amount, a.payload.currency)) else None,
                    next := NullableTime(a.next))
  {
    TextRoundTrip(a.failure);
    TextRoundTrip(a.payload.provider);
  }

  /** The round trip is exact if and only if the observed balance is in the currency of the
      operation and the retry time is not the zero instant. */
  lemma RoundTripIffSameCurrency(a: Aggregate)
    requires Rehydratable(a)
    ensures Scan(Store(a)) == Some(a)
            <==> (a.result.Some? ==> a.result.value.currency == a.payload.currency) && a.next != Some(0)
  {
    ReloadKeepsAllButLabel(a);
  }

  /** A rejection for another currency keeps the wallet's minor units but, once reloaded,
      shows them in the currency of the operation. */
  lemma MismatchedBalanceIsRelabelled(a: Aggregate, balance: Money)
    requires Rehydratable(a) && a.status == Rejected && a.result == Some(balance)
    requires balance.currency != a.payload.currency
    ensures Scan(Store(a)) != Some(a)
    ensures Scan(Store(a)).Some? && Scan(Store(a)).value.result == Some(Money(balance.amount, a.payload.currency))
  {
    ReloadKeepsAllButLabel(a);
  }
}
