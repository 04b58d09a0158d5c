/** The payload hash: what two submissions are compared by. SHA-256 and the JSON encoding
    are taken to be injective, so the hash is the canonical form itself. */
module Hashing {
  import opened Domain
  import opened Moneys

  datatype Canonical = Canonical(
    provider: Name,
    external: Name,
    player: Uuid,
    wallet: Uuid,
    round: Name,
    game: Name,
    kind: string,
    amount: string,
    currency: Name,
    reference: Name)

  function KindName(k: Kind): string {
    match k
    case Opening => "OPENING"
    case Bet => "BET"
    case Win => "WIN"
    case Loss => "LOSS"
    case Refund => "REFUND"
    case Rollback => "ROLLBACK"
  }

  /** The business fields with the amount as a fixed-scale decimal; the idempotency key is
      not among them. */
  function PayloadHash(p: Payload): Canonical
    requires IsInt64(p.amount)
  {
    Canonical(p.provider, p.external, p.player, p.wallet, p.round, p.game, KindName(p.kind),
              FormatMinorUnits(p.amount), p.currency, p.reference)
  }

  lemma KindNamesDiffer(k: Kind, l: Kind)
    ensures KindName(k) == KindName(l) <==> k == l
  {
    assert "WIN" != "BET" by { assert "WIN"[0] != "BET"[0]; }
    assert "REFUND"[1..3] == "EF" && "ROLLBACK"[1..3] == "OL";
    assert "OPENING"[0] == 'O' && "LOSS"[0] == 'L' && "BET"[0] == 'B' && "REFUND"[0] == 'R' && "WIN"[0] == 'W';
  }

  /** Equal hashes mean equal business fields, and only they do. */
  lemma HashTellsPayloadsApart(p: Payload, q: Payload)
    requires IsInt64(p.amount) && IsInt64(q.amount)
    ensures PayloadHash(p) == PayloadHash(q) <==> p == q
  {
    KindNamesDiffer(p.kind, q.kind);
    RoundTrip(p.amount);
    RoundTrip(q.amount);
    PrintAlikeIffEqual(FormatMinorUnits(p.amount), FormatMinorUnits(q.amount), p.amount, q.amount);
  }
}
