/** Arithmetic of the public ladder: it concedes monotonically, the two sides cannot meet before
    round 6, and from round 6 on they bracket the reference price. */
module Ladder {
  import opened Pricing

  function Floor250(x: nat): nat { x / INCREMENT * INCREMENT }

  function Ceil250(x: nat): nat { Floor250(x + (INCREMENT - 1)) }

  lemma RoundingBounds(x: nat)
    ensures Floor250(x) % INCREMENT == 0 && Ceil250(x) % INCREMENT == 0
    ensures Floor250(x) <= x < Floor250(x) + INCREMENT
    ensures Ceil250(x) - INCREMENT < x <= Ceil250(x)
    ensures RoundDown(x) == if INCREMENT <= Floor250(x) <= MAX_KRW then Some(Floor250(x)) else None
    ensures RoundUp(x) == if INCREMENT <= Ceil250(x) <= MAX_KRW then Some(Ceil250(x)) else None
  {
    var q, r := x / INCREMENT, x % INCREMENT;
    assert x == q * INCREMENT + r;
    if r == 0 {
      assert (x + (INCREMENT - 1)) / INCREMENT == q;
    } else {
      assert x + (INCREMENT - 1) == (q + 1) * INCREMENT + (r - 1);
      assert (x + (INCREMENT - 1)) / INCREMENT == q + 1;
    }
  }

  lemma RoundingMonotone(x: nat, y: nat)
    requires x <= y
    ensures Floor250(x) <= Floor250(y) && Ceil250(x) <= Ceil250(y)
  {}

  /** A multiple of 250 crosses a bound exactly when it crosses the rounded bound. */
  lemma RoundingIsTight(m: int, x: nat)
    requires m % INCREMENT == 0
    ensures m <= x ==> m <= Floor250(x)
    ensures x <= m ==> Ceil250(x) <= m
  {
    RoundingBounds(x);
    var k := m / INCREMENT;
    assert m == k * INCREMENT;
  }

  lemma DivideMonotone(a: nat, b: nat)
    requires a <= b
    ensures a / 10_000 <= b / 10_000
  {}

  lemma ShareMonotone(reference: int, early: int, late: int)
    requires IsPrice(reference) && 1 <= early <= late <= MAX_ROUNDS
    ensures LadderShare(Buyer, reference, early) <= LadderShare(Buyer, reference, late)
    ensures LadderShare(Seller, reference, late) <= LadderShare(Seller, reference, early)
  {
    MultiplyMonotone(reference, BasisPoints(Buyer, early), BasisPoints(Buyer, late));
    MultiplyMonotone(reference, BasisPoints(Seller, late), BasisPoints(Seller, early));
    DivideMonotone(reference * BasisPoints(Buyer, early), reference * BasisPoints(Buyer, late));
    DivideMonotone(reference * BasisPoints(Seller, late), reference * BasisPoints(Seller, early));
  }

  lemma MultiplyMonotone(k: nat, a: int, b: int)
    requires a <= b
    ensures k * a <= k * b
  {}

  /** Every step of the ladder is a concession: the Buyer never goes down, the Seller never up. */
  lemma LadderConcedes(reference: int, early: int, late: int)
    requires IsPrice(reference) && 1 <= early <= late <= MAX_ROUNDS
    ensures var (b, b') := (LadderPrice(Buyer, reference, early), LadderPrice(Buyer, reference, late));
      b.Some? && b'.Some? ==> b.value <= b'.value
    ensures var (s, s') := (LadderPrice(Seller, reference, early), LadderPrice(Seller, reference, late));
      s.Some? && s'.Some? ==> s'.value <= s.value
    ensures LadderPrice(Seller, reference, early).Some? && 230 <= reference ==>
      LadderPrice(Seller, reference, late).Some?
  {
    ShareMonotone(reference, early, late);
    LadderIsRounded(reference, early);
    LadderIsRounded(reference, late);
    RoundingMonotone(LadderShare(Buyer, reference, early), LadderShare(Buyer, reference, late));
    RoundingMonotone(LadderShare(Seller, reference, late), LadderShare(Seller, reference, early));
    ShareMonotone(reference, late, MAX_ROUNDS);
  }

  lemma LadderIsRounded(reference: int, round: int)
    requires IsPrice(reference) && 1 <= round <= MAX_ROUNDS
    ensures var (b, s) := (LadderPrice(Buyer, reference, round), LadderPrice(Seller, reference, round));
      && (b.Some? <==> INCREMENT <= Floor250(LadderShare(Buyer, reference, round)) <= MAX_KRW)
      && (b.Some? ==> b.value == Floor250(LadderShare(Buyer, reference, round)))
      && (s.Some? <==> INCREMENT <= Ceil250(LadderShare(Seller, reference, round)) <= MAX_KRW)
      && (s.Some? ==> s.value == Ceil250(LadderShare(Seller, reference, round)))
  {
    RoundingBounds(LadderShare(Buyer, reference, round));
    RoundingBounds(LadderShare(Seller, reference, round));
  }

  lemma ShareAnchors(reference: int)
    requires IsPrice(reference)
    ensures LadderShare(Buyer, reference, 6) == reference == LadderShare(Seller, reference, 6)
    ensures 50 <= reference ==> reference < LadderShare(Seller, reference, 5)
    ensures 12_500 <= reference ==> reference + INCREMENT <= LadderShare(Buyer, reference, 7)
    ensures 12_500 <= reference ==> LadderShare(Seller, reference, 7) <= reference - INCREMENT
  {}

  /** Before round 6 the Seller's rung is above every price the Buyer may accept or have offered. */
  lemma SidesApartBeforeSix(reference: int, round: int)
    requires IsPrice(reference) && 1 <= round <= 5
    requires LadderPrice(Buyer, reference, round + 1).Some?
    requires LadderPrice(Seller, reference, round).Some?
    ensures LadderPrice(Buyer, reference, round + 1).value < LadderPrice(Seller, reference, round).value
  {
    var b, s := LadderShare(Buyer, reference, round + 1), LadderShare(Seller, reference, round);
    assert LadderPrice(Buyer, reference, round + 1).value == Floor250(b) >= INCREMENT by {
      LadderIsRounded(reference, round + 1);
    }
    assert LadderPrice(Seller, reference, round).value == Ceil250(s) by { LadderIsRounded(reference, round); }
    RoundingBounds(b);
    RoundingBounds(s);
    assert b <= reference by { ShareMonotone(reference, round + 1, 6); ShareAnchors(reference); }
    assert reference < s by { ShareMonotone(reference, round, 5); ShareAnchors(reference); }
  }

  /** What it takes to close in a round: at or above the Seller's rung, and at or below the Buyer's
      rung of the next round, taken without its uint64 bound. */
  predicate Closable(reference: int, round: int, price: int) {
    && IsPrice(reference) && 1 <= round <= MAX_ROUNDS
    && LadderPrice(Seller, reference, round).Some?
    && LadderPrice(Seller, reference, round).value <= price
    && price <= Floor250(LadderShare(Buyer, reference, if round < MAX_ROUNDS then round + 1 else MAX_ROUNDS))
  }

  /** No closing before round 6, and every closing lies in the corridor of the last rungs. */
  lemma ClosingCorridor(reference: int, round: int, price: int)
    requires Closable(reference, round, price)
    ensures 6 <= round
    ensures LadderPrice(Seller, reference, MAX_ROUNDS).Some?
    ensures LadderPrice(Seller, reference, MAX_ROUNDS).value <= price
    ensures price <= Floor250(LadderShare(Buyer, reference, MAX_ROUNDS))
    ensures LadderPrice(Buyer, reference, MAX_ROUNDS).Some? ==> price <= LadderPrice(Buyer, reference, MAX_ROUNDS).value
  {
    var next := if round < MAX_ROUNDS then round + 1 else MAX_ROUNDS;
    var b, last := LadderShare(Buyer, reference, next), LadderShare(Buyer, reference, MAX_ROUNDS);
    assert INCREMENT <= price by { LadderIsRounded(reference, round); }
    RoundingBounds(b);
    if round <= 5 {
      assert b <= reference by { ShareMonotone(reference, next, 6); ShareAnchors(reference); }
      LadderIsRounded(reference, next);
      SidesApartBeforeSix(reference, round);
    }
    assert Floor250(b) <= Floor250(last) by {
      ShareMonotone(reference, next, MAX_ROUNDS);
      RoundingMonotone(b, last);
    }
    LadderIsRounded(reference, MAX_ROUNDS);
    ShareAtMost(reference, next);
    LadderConcedes(reference, round, MAX_ROUNDS);
  }

  lemma ShareAtMost(reference: int, round: int)
    requires IsPrice(reference) && 1 <= round <= MAX_ROUNDS
    ensures 250 <= LadderShare(Buyer, reference, round) ==> 230 <= reference
  {
    ShareMonotone(reference, round, MAX_ROUNDS);
    assert LadderShare(Buyer, reference, MAX_ROUNDS) == reference * 10_800 / 10_000;
  }

  /** A reference price for which the rounded ladder crosses the reference as intended. */
  predicate Regular(reference: int) {
    IsPrice(reference) && ((500 <= reference && reference % INCREMENT == 0) || 12_500 <= reference)
  }

  /** The price, in shifted coordinates, at which round `n` can close. */
  function ClosingPrice(reference: int, round: int): int
    requires IsPrice(reference) && 6 <= round <= MAX_ROUNDS
  {
    if round == 6 then Ceil250(reference) else Floor250(LadderShare(Buyer, reference, round))
  }

  lemma SharesAroundReference(reference: int, round: int)
    requires Regular(reference) && 6 <= round <= MAX_ROUNDS
    ensures reference <= LadderShare(Buyer, reference, round)
    ensures LadderShare(Seller, reference, round) <= reference
    ensures 7 <= round && 12_500 <= reference ==> reference + INCREMENT <= LadderShare(Buyer, reference, round)
    ensures 7 <= round && 12_500 <= reference ==> LadderShare(Seller, reference, round) <= reference - INCREMENT
  {
    ShareAnchors(reference);
    ShareMonotone(reference, 6, round);
    if 7 <= round { ShareMonotone(reference, 7, round); }
  }

  /** Rounding around the reference: from round 7 on the Seller's share rounds up to at most what
      the Buyer's share rounds down to, with the rounded reference in between. */
  lemma RoundedAround(reference: int, up: nat, down: nat)
    requires Regular(reference)
    requires down <= reference <= up
    requires 12_500 <= reference ==> reference + INCREMENT <= up && down <= reference - INCREMENT
    ensures Ceil250(down) <= Ceil250(reference) <= Floor250(up)
  {
    RoundingBounds(reference);
    if reference % INCREMENT == 0 {
      RoundingIsTight(reference, up);
      RoundingIsTight(reference, down);
      RoundingIsTight(reference, reference);
    } else {
      RoundingIsTight(Ceil250(reference), up);
      RoundingIsTight(Floor250(reference), down);
    }
  }

  /** From round 7 on the Seller's rung is at or below the Buyer's. In round 6 the Seller's rung is
      the reference rounded up, which the Buyer may accept because of its next rung. */
  lemma RungsMeet(reference: int, round: int)
    requires Regular(reference) && 6 <= round <= MAX_ROUNDS
    ensures Ceil250(LadderShare(Seller, reference, round)) <= ClosingPrice(reference, round)
    ensures Floor250(LadderShare(Buyer, reference, round)) <= ClosingPrice(reference, round)
    ensures round == 6 ==> Ceil250(LadderShare(Seller, reference, 6)) == ClosingPrice(reference, 6)
    ensures round == 6 ==> Floor250(LadderShare(Buyer, reference, 6)) == Floor250(reference)
    ensures round < MAX_ROUNDS ==> ClosingPrice(reference, round) <= ClosingPrice(reference, round + 1)
    ensures ClosingPrice(reference, round) % INCREMENT == 0
  {
    var up, down := LadderShare(Buyer, reference, round), LadderShare(Seller, reference, round);
    RoundingBounds(reference);
    RoundingBounds(up);
    if round == 6 {
      ShareAnchors(reference);
    } else {
      SharesAroundReference(reference, round);
      RoundedAround(reference, up, down);
    }
    if round < MAX_ROUNDS {
      var next := LadderShare(Buyer, reference, round + 1);
      if round == 6 {
        SharesAroundReference(reference, 7);
        RoundedAround(reference, next, LadderShare(Seller, reference, 7));
      } else {
        ShareMonotone(reference, round, round + 1);
        RoundingMonotone(up, next);
      }
    }
  }
}
