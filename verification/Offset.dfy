/** The private price offset of a session: drawn from key material by rejection sampling, so that
    every admissible offset is equally likely. Key derivation is an arbitrary function of its inputs
    and the attempt (section 2 of RFC 5869 describes the one in use). */
module Offset {
  import opened Pricing

  const SPACE: int := 0x1_0000000000000000_0000000000000000_0000000000000000_0000000000000000

  datatype Inputs = Inputs(sharedKey: seq<bv8>, sessionId: string, productCode: string, reference: int)

  /** The 32 derived bytes of an attempt, read as one number. */
  type Derivation = (Inputs, nat) -> int

  predicate IsIdentifier(text: string) {
    && 1 <= |text| <= 128
    && forall c <- text ::
         'A' <= c <= 'Z' || 'a' <= c <= 'z' || '0' <= c <= '9' || c == '_' || c == '-'
  }

  predicate IsProductCode(text: string) {
    |text| == 4 && forall c <- text :: '0' <= c <= '9'
  }

  predicate ValidInputs(i: Inputs) {
    |i.sharedKey| == 32 && IsPrice(i.reference) && IsIdentifier(i.sessionId) && IsProductCode(i.productCode)
  }

  function Steps(reference: int): nat
    requires IsPrice(reference)
  {
    MaxOffset(reference) / INCREMENT
  }

  function Count(reference: int): nat
    requires IsPrice(reference)
  {
    Steps(reference) * 2 + 1
  }

  function Ceiling(reference: int): int
    requires IsPrice(reference)
  {
    SPACE - SPACE % Count(reference)
  }

  function OffsetOf(sample: int, reference: int): int
    requires IsPrice(reference)
  {
    (sample % Count(reference) - Steps(reference)) * INCREMENT
  }

  /** The attempt whose sample is used: the first below the ceiling. */
  ghost predicate FirstAccepted(derive: Derivation, i: Inputs, attempt: nat)
    requires IsPrice(i.reference)
  {
    derive(i, attempt) < Ceiling(i.reference) && forall k: nat :: k < attempt ==> Ceiling(i.reference) <= derive(i, k)
  }

  /** Throws for malformed inputs. Otherwise some attempt must be accepted at some point. */
  method DeriveSessionPriceOffset(derive: Derivation, i: Inputs, ghost accepted: nat) returns (r: Attempt<int>)
    requires ValidInputs(i) ==> derive(i, accepted) < Ceiling(i.reference)
    ensures r.Threw? <==> !ValidInputs(i)
    ensures r.Returned? ==> exists attempt: nat ::
      FirstAccepted(derive, i, attempt) && r.value == OffsetOf(derive(i, attempt), i.reference)
    ensures r.Returned? ==> ValidOffset(i.reference, r.value)
  {
    if !ValidInputs(i) { return Threw; }
    var steps := Steps(i.reference);
    var count := steps * 2 + 1;
    var ceiling := SPACE - SPACE % count;
    var attempt := 0;
    while derive(i, attempt) >= ceiling
      invariant attempt <= accepted && forall k: nat :: k < attempt ==> ceiling <= derive(i, k)
      decreases accepted - attempt
    {
      attempt := attempt + 1;
    }
    var sample := derive(i, attempt);
    OffsetIsValid(sample, i.reference);
    assert FirstAccepted(derive, i, attempt);
    r := Returned((sample % count - steps) * INCREMENT);
  }

  /** Equal inputs give equal offsets: Buyer and Seller agree without talking. */
  lemma BothDeriveTheSame(derive: Derivation, i: Inputs, a: nat, b: nat)
    requires IsPrice(i.reference) && FirstAccepted(derive, i, a) && FirstAccepted(derive, i, b)
    ensures a == b && OffsetOf(derive(i, a), i.reference) == OffsetOf(derive(i, b), i.reference)
  {
    NoEarlier(derive, i, a, b);
    NoEarlier(derive, i, b, a);
  }

  lemma NoEarlier(derive: Derivation, i: Inputs, first: nat, attempt: nat)
    requires IsPrice(i.reference) && FirstAccepted(derive, i, first) && derive(i, attempt) < Ceiling(i.reference)
    ensures first <= attempt
  {}

  // ---- What offsets there are ----

  /** Exactly the multiples of 250 within 3 percent of the reference price are admissible. */
  lemma OffsetsAreSteps(reference: int, offset: int)
    requires IsPrice(reference)
    ensures ValidOffset(reference, offset) <==>
      offset % INCREMENT == 0 && 0 - Steps(reference) <= offset / INCREMENT <= Steps(reference)
  {}

  /** Every sample gives an offset that normalisation admits, whatever the context, unless the shifted
      current offer is no price. */
  lemma OffsetIsValid(sample: int, reference: int)
    requires IsPrice(reference)
    ensures ValidOffset(reference, OffsetOf(sample, reference))
    ensures forall x: Context, policy: Policy :: x.reference == Some(reference) ==>
      (Normalize(x, policy, OffsetOf(sample, reference)).None? <==>
       x.current.Some? && !IsPrice(x.current.value.price - OffsetOf(sample, reference)))
  {
    var residue := sample % Count(reference) - Steps(reference);
    OffsetsAreSteps(reference, residue * INCREMENT);
    assert (residue * INCREMENT) % INCREMENT == 0 && (residue * INCREMENT) / INCREMENT == residue;
  }

  /** The offsets count up in steps of 250 with the sample, from the lowest one, and then start again. */
  lemma OffsetsCountUp(reference: int, sample: int)
    requires IsPrice(reference) && sample >= 0
    ensures OffsetOf(0, reference) == -(reference * 300 / 10_000 / 250) * 250
    ensures OffsetOf(sample + 1, reference) ==
      if OffsetOf(sample, reference) == reference * 300 / 10_000 / 250 * 250 then OffsetOf(0, reference)
      else OffsetOf(sample, reference) + 250
  {
    var count, q, rest := Count(reference), sample / Count(reference), sample % Count(reference);
    assert sample == count * q + rest;
    assert MaxOffset(reference) == reference * 300 / 10_000;
    hide MaxOffset;
    if rest == count - 1 {
      NextBlock(count, q + 1);
      ModIs(sample + 1, count, q + 1, 0);
    } else {
      ModIs(sample + 1, count, q, rest + 1);
    }
  }

  // ---- How often each offset is drawn ----

  /** The samples below the ceiling that give this offset. */
  ghost function Preimages(reference: int, offset: int): set<int>
    requires IsPrice(reference)
  {
    set sample: int | 0 <= sample < Ceiling(reference) && OffsetOf(sample, reference) == offset
  }

  function Progression(residue: int, count: int, n: nat): set<int> {
    if n == 0 then {} else Progression(residue, count, n - 1) + {residue + count * (n - 1)}
  }

  lemma {:induction false} ProgressionIs(residue: int, count: int, n: nat)
    requires 0 <= residue < count
    ensures |Progression(residue, count, n)| == n
    ensures forall x :: x in Progression(residue, count, n) <==> InProgression(x, residue, count, n)
  {
    if n > 0 {
      ProgressionIs(residue, count, n - 1);
      forall x
        ensures InProgression(x, residue, count, n) <==>
          InProgression(x, residue, count, n - 1) || x == residue + count * (n - 1)
      {
        NextInProgression(x, residue, count, n);
      }
      LastIsNew(residue, count, n);
    } else {
      forall x ensures !InProgression(x, residue, count, 0) { TimesZero(count); }
    }
  }

  predicate InProgression(x: int, residue: int, count: int, n: nat)
    requires count > 0
  {
    0 <= x < count * n && x % count == residue
  }

  lemma TimesZero(count: int)
    ensures count * 0 == 0
  {}

  lemma NextBlock(count: int, n: int)
    ensures count * n == count * (n - 1) + count
  {}

  lemma NotNegative(count: int, n: int)
    requires 0 <= count && 0 <= n
    ensures 0 <= count * n
  {}

  lemma NextInProgression(x: int, residue: int, count: int, n: nat)
    requires 0 <= residue < count && n > 0
    ensures InProgression(x, residue, count, n) <==>
      InProgression(x, residue, count, n - 1) || x == residue + count * (n - 1)
  {
    NextBlock(count, n);
    NotNegative(count, n - 1);
    ResidueInBlock(x, residue, count, n - 1);
  }

  lemma LastIsNew(residue: int, count: int, n: nat)
    requires 0 <= residue < count && n > 0
    ensures !InProgression(residue + count * (n - 1), residue, count, n - 1)
  {}

  /** Within one block of `count` numbers, exactly one has the residue. */
  lemma ResidueInBlock(x: int, residue: int, count: int, block: int)
    requires 0 <= residue < count
    ensures count * block <= x < count * block + count ==> (x % count == residue <==> x == residue + count * block)
  {
    if count * block <= x < count * block + count { ModIs(x, count, block, x - count * block); }
  }

  lemma DivisionIsUnique(count: int, q: int, r: int, quotient: int, rest: int)
    requires 0 <= r < count && 0 <= rest < count && count * q + r == count * quotient + rest
    ensures q == quotient && r == rest
  {
    var d := q - quotient;
    Distributes(count, q, quotient);
    if d >= 1 { Grows(count, d); } else if d <= -1 { Grows(count, quotient - q); }
  }

  lemma Distributes(count: int, a: int, b: int)
    ensures count * (a - b) == count * a - count * b && count * (b - a) == count * b - count * a
  {}

  lemma Grows(count: int, d: int)
    requires count >= 1 && d >= 1
    ensures count * d >= count
  {}

  lemma ModIs(x: int, count: int, quotient: int, rest: int)
    requires 0 <= rest < count && x == count * quotient + rest
    ensures x % count == rest && x / count == quotient
  {
    assert x == count * (x / count) + x % count;
    DivisionIsUnique(count, x / count, x % count, quotient, rest);
  }

  /** No modulo bias: every admissible offset has exactly the same number of samples below the ceiling,
      and no other offset has any. */
  lemma EveryOffsetIsEquallyLikely(reference: int, offset: int)
    requires IsPrice(reference)
    ensures Ceiling(reference) == Count(reference) * (SPACE / Count(reference))
    ensures ValidOffset(reference, offset) ==> |Preimages(reference, offset)| == SPACE / Count(reference)
    ensures !ValidOffset(reference, offset) ==> Preimages(reference, offset) == {}
  {
    hide MaxOffset;
    var count, n := Count(reference), SPACE / Count(reference);
    assert Ceiling(reference) == count * n;
    if ValidOffset(reference, offset) {
      OffsetsAreSteps(reference, offset);
      var residue := offset / INCREMENT + Steps(reference);
      ProgressionIs(residue, count, n);
      forall x ensures x in Preimages(reference, offset) <==> x in Progression(residue, count, n) {
        assert OffsetOf(x, reference) == offset <==> x % count == residue;
        assert InProgression(x, residue, count, n) <==> 0 <= x < count * n && x % count == residue;
      }
      assert Preimages(reference, offset) == Progression(residue, count, n);
    } else {
      forall x | x in Preimages(reference, offset) ensures false {
        OffsetIsValid(x, reference);
      }
    }
  }

  /** A sample is rejected less than half of the time. */
  lemma FewSamplesAreRejected(reference: int)
    requires IsPrice(reference)
    ensures SPACE - Count(reference) < Ceiling(reference) <= SPACE && SPACE < 2 * Ceiling(reference)
  {}
}
