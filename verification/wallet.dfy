/** The wallet aggregate and the ledger entry that must accept each of its movements. */
module Wallets {
  import opened Domain
  import opened Rules
  import opened Tables
  import opened Moneys

  datatype WalletError = InvalidWallet | NonPositiveAmount | WrongCurrency | NotEnough | MoneyOverflow

  datatype BalanceChange = BalanceChange(before: int, after: int)

  /** What a movement of the row should come to, in exact arithmetic. */
  function MoveRow(row: WalletRow, direction: Direction, amount: Money, now: Time): Result<WalletRow, WalletError> {
    var after := Moved(row.balance, direction, amount.amount);
    if !amount.IsValid() then Err(InvalidWallet)
    else if amount.amount <= 0 then Err(NonPositiveAmount)
    else if amount.currency != row.currency then Err(WrongCurrency)
    else if now == 0 then Err(InvalidWallet)
    else if after < 0 then Err(NotEnough)
    else if MAX_INT64 < after then Err(MoneyOverflow)
    else Ok(Bumped(row, after, now))
  }

  class Wallet {
    const id: Uuid
    const player: Uuid
    const currency: Name
    const createdAt: Time
    var balance: Money
    var version: int
    var updatedAt: Time

    function Row(): WalletRow
      reads this
    {
      WalletRow(id, player, currency, balance.amount, version, createdAt, updatedAt)
    }

    predicate Valid()
      reads this
    {
      currency != NO_NAME && balance.currency == currency && 0 <= balance.amount <= MAX_INT64 && 1 <= version
    }

    /** The wallet of a stored row. */
    constructor Rehydrate(row: WalletRow)
      requires WalletHolds(row)
      ensures Valid() && Row() == row
    {
      id, player, currency, createdAt := row.id, row.player, row.currency, row.createdAt;
      balance, version, updatedAt := Money(row.balance, row.currency), row.version, row.updatedAt;
    }

    /** A new wallet: version 1, the opening credit being part of its creation. */
    constructor Open(id: Uuid, player: Uuid, initial: Money, now: Time)
      requires id != NIL && player != NIL && initial.IsValid() && 0 <= initial.amount <= MAX_INT64 && now != 0
      ensures Valid() && Row() == WalletRow(id, player, initial.currency, initial.amount, 1, now, now)
    {
      this.id, this.player, this.currency, this.createdAt := id, player, initial.currency, now;
      balance, version, updatedAt := initial, 1, now;
    }

    method AssertMovement(amount: Money, now: Time) returns (error: Option<WalletError>)
      ensures error ==
              if !amount.IsValid() then Some(InvalidWallet)
              else if amount.amount <= 0 then Some(NonPositiveAmount)
              else if amount.currency != currency then Some(WrongCurrency)
              else if now == 0 then Some(InvalidWallet)
              else None
    {
      if !amount.IsValid() { return Some(InvalidWallet); }
      if !(amount.amount > 0) { return Some(NonPositiveAmount); }
      if amount.currency != currency { return Some(WrongCurrency); }
      if now == 0 { return Some(InvalidWallet); }
      return None;
    }

    method Put(after: Money, now: Time)
      modifies this
      ensures Row() == Bumped(old(Row()), after.amount, now) && balance == after
    {
      balance := after;
      version := version + 1;
      updatedAt := now;
    }

    method Debit(amount: Money, now: Time) returns (r: Result<BalanceChange, WalletError>)
      requires Valid() && IsInt64(amount.amount)
      modifies this
      ensures Valid()
      ensures match MoveRow(old(Row()), Direction.Debit, amount, now)
              case Err(e) => r == Err(e) && Row() == old(Row())
              case Ok(row) => r == Ok(BalanceChange(old(Row()).balance, row.balance)) && Row() == row
    {
      var error := AssertMovement(amount, now);
      if error.Some? { return Err(error.value); }
      var after := Sub(balance, amount);
      if after.Err? { return Err(MoneyOverflow); }
      if after.value.amount < 0 { return Err(NotEnough); }
      var change := BalanceChange(balance.amount, after.value.amount);
      Put(after.value, now);
      return Ok(change);
    }

    method Credit(amount: Money, now: Time) returns (r: Result<BalanceChange, WalletError>)
      requires Valid() && IsInt64(amount.amount)
      modifies this
      ensures Valid()
      ensures match MoveRow(old(Row()), Direction.Credit, amount, now)
              case Err(e) => r == Err(e) && Row() == old(Row())
              case Ok(row) => r == Ok(BalanceChange(old(Row()).balance, row.balance)) && Row() == row
    {
      var error := AssertMovement(amount, now);
      if error.Some? { return Err(error.value); }
      var after := Add(balance, amount);
      if after.Err? { return Err(MoneyOverflow); }
      var change := BalanceChange(balance.amount, after.value.amount);
      Put(after.value, now);
      return Ok(change);
    }
  }

  // ----- the ledger entry -----------------------------------------------------------

  /** The validation of a new entry: balanceAfter must be balanceBefore plus or minus the
      amount, computed with the same overflow-checked arithmetic. */
  function ValidateEntry(wallet: Uuid, tx: Uuid, direction: Direction, amount: Money, before: Money, after: Money,
                         now: Time): bool
    requires IsInt64(amount.amount) && IsInt64(before.amount) && IsInt64(after.amount)
  {
    && wallet != NIL && tx != NIL
    && amount.IsValid() && amount.amount > 0
    && before.IsValid() && after.IsValid()
    && before.amount >= 0 && after.amount >= 0
    && now != 0
    && var expected := if direction == Direction.Debit then Sub(before, amount) else Add(before, amount);
       expected.Ok? && Compatible(expected.value, after).None? && expected.value.amount == after.amount
  }

  /** Every successful movement is one the ledger accepts. */
  lemma MovementIsAccepted(row: WalletRow, tx: Uuid, direction: Direction, amount: Money, now: Time)
    requires 0 <= row.balance <= MAX_INT64 && row.id != NIL && tx != NIL && IsInt64(amount.amount)
    requires MoveRow(row, direction, amount, now).Ok?
    ensures var after := MoveRow(row, direction, amount, now).value;
            ValidateEntry(row.id, tx, direction, amount, Money(row.balance, row.currency),
                          Money(after.balance, row.currency), now)
  {
  }

  // ----- any sequence of movements --------------------------------------------------

  datatype Movement = Movement(direction: Direction, amount: Money, now: Time)

  /** A refused movement leaves the row as it was. */
  function After(row: WalletRow, m: Movement): WalletRow {
    var r := MoveRow(row, m.direction, m.amount, m.now);
    if r.Ok? then r.value else row
  }

  function AfterAll(row: WalletRow, ms: seq<Movement>): WalletRow {
    if ms == [] then row else After(AfterAll(row, ms[..|ms| - 1]), ms[|ms| - 1])
  }

  /** The exact signed sum, and the number, of the movements that were accepted. */
  function Accepted(row: WalletRow, ms: seq<Movement>): (int, nat) {
    if ms == [] then (0, 0)
    else
      var (sum, n) := Accepted(row, ms[..|ms| - 1]);
      var m := ms[|ms| - 1];
      if MoveRow(AfterAll(row, ms[..|ms| - 1]), m.direction, m.amount, m.now).Ok?
      then (sum + Moved(0, m.direction, m.amount.amount), n + 1)
      else (sum, n)
  }

  /** However many movements are tried, the balance is the exact sum of the accepted ones,
      within [0, MaxInt64], and the version counts them. */
  lemma {:induction false} BalanceIsExactSum(row: WalletRow, ms: seq<Movement>)
    requires 0 <= row.balance <= MAX_INT64
    ensures var last := AfterAll(row, ms); var (sum, n) := Accepted(row, ms);
            && last.balance == row.balance + sum && 0 <= last.balance <= MAX_INT64
            && last.version == row.version + n
            && last.id == row.id && last.player == row.player && last.currency == row.currency
  {
    if ms != [] {
      BalanceIsExactSum(row, ms[..|ms| - 1]);
    }
  }
}
