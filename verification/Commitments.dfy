/** 32-byte values as terms. The persistent hash is a constructor, so it is injective and never
    collides with a padded text, an amount or a random value. */
module Commitments {
  import opened Pricing

  datatype Bytes32 =
    | Pad(text: string)
    | Amount(value: int)
    | Random(id: nat)
    | PersistentHash(parts: seq<Bytes32>)

  type Uint64 = x: int | 0 <= x <= MAX_KRW

  /** What opens a price commitment, as a party's private store keeps it. */
  datatype Opening = Opening(price: Uint64, randomness: Bytes32)

  const BUYER_DOMAIN: string := "negotiation:buyer:"
  const SELLER_DOMAIN: string := "negotiation:seller:"

  function PublicKey(secret: Bytes32): Bytes32 {
    PersistentHash([Pad("negotiation:public-key:"), secret])
  }

  function LimitCommitment(dealId: Bytes32, domain: string, key: Bytes32, limit: Uint64, randomness: Bytes32): Bytes32 {
    PersistentHash([dealId, Pad(domain), key, Amount(limit), randomness])
  }

  function PriceCommitment(dealId: Bytes32, price: Uint64, randomness: Bytes32): Bytes32 {
    PersistentHash([dealId, Pad("negotiation:price:"), Amount(price), randomness])
  }

  lemma PublicKeyBinds(a: Bytes32, b: Bytes32)
    requires PublicKey(a) == PublicKey(b)
    ensures a == b
  {
    assert PublicKey(a).parts[1] == a && PublicKey(b).parts[1] == b;
  }

  /** A limit commitment fixes the deal, the side, the party's key, the limit and the randomness. */
  lemma LimitBinds(dealA: Bytes32, sideA: string, keyA: Bytes32, a: Uint64, r: Bytes32,
                   dealB: Bytes32, sideB: string, keyB: Bytes32, b: Uint64, t: Bytes32)
    requires LimitCommitment(dealA, sideA, keyA, a, r) == LimitCommitment(dealB, sideB, keyB, b, t)
    ensures dealA == dealB && sideA == sideB && keyA == keyB && a == b && r == t
  {
    var left, right := LimitCommitment(dealA, sideA, keyA, a, r), LimitCommitment(dealB, sideB, keyB, b, t);
    assert forall i :: 0 <= i < 5 ==> left.parts[i] == right.parts[i];
  }

  /** No commitment or key of one kind is one of another kind, nor the empty value of a fresh ledger. */
  lemma KindsDiffer(dealA: Bytes32, side: string, key: Bytes32, limit: Uint64, r: Bytes32,
                    dealB: Bytes32, price: Uint64, t: Bytes32, secret: Bytes32)
    ensures LimitCommitment(dealA, side, key, limit, r) != PriceCommitment(dealB, price, t)
    ensures PublicKey(secret) !in {LimitCommitment(dealA, side, key, limit, r), PriceCommitment(dealB, price, t)}
    ensures Pad("") !in
      {LimitCommitment(dealA, side, key, limit, r), PriceCommitment(dealB, price, t), PublicKey(secret)}
  {
    assert |LimitCommitment(dealA, side, key, limit, r).parts| == 5 && |PriceCommitment(dealB, price, t).parts| == 4;
    assert |PublicKey(secret).parts| == 2;
  }

  lemma PriceBinds(dealA: Bytes32, a: Uint64, r: Bytes32, dealB: Bytes32, b: Uint64, t: Bytes32)
    requires PriceCommitment(dealA, a, r) == PriceCommitment(dealB, b, t)
    ensures dealA == dealB && a == b && r == t
  {
    var left, right := PriceCommitment(dealA, a, r), PriceCommitment(dealB, b, t);
    assert left.parts[0] == right.parts[0] && left.parts[2] == right.parts[2] && left.parts[3] == right.parts[3];
  }
}
