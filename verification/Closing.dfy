/** The exact outcome of a negotiation in which both parties only use the local fallback. */
module Closing {
  import opened Pricing
  import opened Ladder
  import opened Runtimes
  import opened Bargain
  import opened Play
  import opened Fallback

  /** Every shifted rung is a uint64 amount: the highest one, the Seller's first, decides it. */
  predicate InRange(c: Session) {
    var top := LadderPrice(Seller, c.reference, 1);
    top.Some? && top.value + c.offset <= MAX_KRW
  }

  /** The Buyer has an opening rung, and with it both parties have a rung in every round. */
  predicate HasRungs(c: Session) {
    InRange(c) && LadderPrice(Buyer, c.reference, 1).Some?
  }

  function Rung(role: Role, reference: int, round: int): int
    requires IsPrice(reference) && 1 <= round <= MAX_ROUNDS
  {
    if role.Buyer? then Floor250(LadderShare(Buyer, reference, round))
    else Ceil250(LadderShare(Seller, reference, round))
  }

  lemma FirstRungs(reference: int)
    requires IsPrice(reference)
    ensures LadderShare(Buyer, reference, 1) == reference * 9 / 10
    ensures LadderShare(Seller, reference, 10) == reference * 92 / 100
    ensures LadderShare(Buyer, reference, 10) <= LadderShare(Seller, reference, 1)
    ensures MaxOffset(reference) <= reference / 25
  {}

  /** All twenty rungs exist and stay in range when shifted. */
  lemma RungsInRange(c: Session, round: int)
    requires ValidSession(c) && HasRungs(c) && 1 <= round <= MAX_ROUNDS
    ensures LadderPrice(Buyer, c.reference, round) == Some(Rung(Buyer, c.reference, round))
    ensures LadderPrice(Seller, c.reference, round) == Some(Rung(Seller, c.reference, round))
    ensures IsPrice(Rung(Buyer, c.reference, round) + c.offset) && IsPrice(Rung(Seller, c.reference, round) + c.offset)
    ensures OnIncrement(Rung(Buyer, c.reference, round)) && OnIncrement(Rung(Seller, c.reference, round))
  {
    hide LadderShare;
    var r := c.reference;
    var b1, b, b10 := LadderShare(Buyer, r, 1), LadderShare(Buyer, r, round), LadderShare(Buyer, r, MAX_ROUNDS);
    var s1, s, s10 := LadderShare(Seller, r, 1), LadderShare(Seller, r, round), LadderShare(Seller, r, MAX_ROUNDS);
    FirstRungs(r);
    ShareMonotone(r, 1, round);
    ShareMonotone(r, round, MAX_ROUNDS);
    RoundingMonotone(b1, b);
    RoundingMonotone(b, b10);
    RoundingMonotone(b10, s1);
    RoundingMonotone(s10, s);
    RoundingMonotone(s, s1);
    RoundingBounds(b1); RoundingBounds(b); RoundingBounds(s); RoundingBounds(s1); RoundingBounds(s10);
    LadderIsRounded(r, 1);
    LadderIsRounded(r, round);
    SmallReferencesAreNotShifted(r, c.offset);
    assert Floor250(b10) <= Ceil250(s1) by { RoundingBounds(b10); }
  }

  lemma SmallReferencesAreNotShifted(reference: int, offset: int)
    requires ValidOffset(reference, offset)
    ensures offset != 0 ==> 6_250 <= reference
    ensures -reference <= 25 * offset <= reference
  {
    FirstRungs(reference);
    var k := offset / INCREMENT;
    assert offset == k * INCREMENT;
  }

  // ---- The replies, spelled out ----

  predicate AtMostMax(c: Session, rung: int) { rung + c.offset <= c.buyerMax }

  predicate AtLeastMin(c: Session, rung: int) { c.sellerMin <= rung + c.offset }

  /** The Buyer opens a round, after the start or after a decline, with its rung or not at all. */
  lemma BuyerOpens(c: Session, round: int)
    requires ValidSession(c) && HasRungs(c) && 1 <= round <= MAX_ROUNDS
    ensures var rung := Rung(Buyer, c.reference, round);
      FallbackCandidate(OpeningContext(c.reference, round), AtMost(c.buyerMax), Some(c.offset)) ==
        if AtMostMax(c, rung) then Some(MakeOffer(rung + c.offset)) else None
  {
    hide LadderPrice;
    hide Rung;
    RungsInRange(c, round);
  }

  /** The Buyer answers a Seller rung: it accepts at or below its own next rung, and otherwise moves
      to that rung if there is one. */
  lemma BuyerCounters(c: Session, round: int, rung: int)
    requires ValidSession(c) && HasRungs(c) && 1 <= round <= MAX_ROUNDS
    requires IsPrice(rung) && IsPrice(rung + c.offset)
    ensures var next := Rung(Buyer, c.reference, if round < MAX_ROUNDS then round + 1 else MAX_ROUNDS);
      FallbackCandidate(CounterContext(c.reference, round, rung + c.offset), AtMost(c.buyerMax), Some(c.offset)) ==
        if rung <= next && AtMostMax(c, rung) then Some(Accept(rung + c.offset))
        else if round < MAX_ROUNDS && AtMostMax(c, next) then Some(MakeOffer(next + c.offset))
        else None
  {
    hide LadderPrice;
    hide Rung;
    RungsInRange(c, if round < MAX_ROUNDS then round + 1 else MAX_ROUNDS);
  }

  lemma SellerResponds(c: Session, round: int, offered: int)
    requires ValidSession(c) && HasRungs(c) && 1 <= round <= MAX_ROUNDS
    requires IsPrice(offered) && IsPrice(offered + c.offset)
    ensures var rung := Rung(Seller, c.reference, round);
      var x := SellerContext(c.reference, Terms(round, offered + c.offset));
      FallbackCandidate(x, AtLeast(c.sellerMin), Some(c.offset)) ==
        if rung <= offered && AtLeastMin(c, offered) then Some(Accept(offered + c.offset))
        else if AtLeastMin(c, rung) then Some(MakeOffer(rung + c.offset))
        else None
  {
    hide LadderPrice;
    hide Rung;
    RungsInRange(c, round);
  }

  // ---- The closed form ----

  /** The price, in shifted coordinates, at which a round can close: the Buyer's rung if the Seller's is
      no higher, else the Seller's rung if the Buyer's next one reaches it. */
  function ClosesAt(reference: int, round: int): Option<int>
    requires IsPrice(reference) && 1 <= round <= MAX_ROUNDS
  {
    var offered, asked := Rung(Buyer, reference, round), Rung(Seller, reference, round);
    if asked <= offered then Some(offered)
    else if asked <= Rung(Buyer, reference, if round < MAX_ROUNDS then round + 1 else MAX_ROUNDS) then Some(asked)
    else None
  }

  predicate SellerTakes(c: Session, round: int)
    requires IsPrice(c.reference) && 1 <= round <= MAX_ROUNDS
  {
    var price := ClosesAt(c.reference, round);
    price.Some? && AtLeastMin(c, price.value)
  }

  /** The first round from `round` on that can close at a price the Seller takes. */
  function FirstAcceptable(c: Session, round: int): Option<int>
    requires IsPrice(c.reference) && 1 <= round <= MAX_ROUNDS + 1
    decreases MAX_ROUNDS - round
  {
    if MAX_ROUNDS < round then None
    else if SellerTakes(c, round) then Some(round)
    else FirstAcceptable(c, round + 1)
  }

  /** The outcome read off the public ladder and the two limits. */
  function ClosedForm(c: Session, round: int): Outcome
    requires IsPrice(c.reference) && 1 <= round <= MAX_ROUNDS + 1
  {
    var first := FirstAcceptable(c, round);
    if first.Some? && 1 <= first.value <= MAX_ROUNDS && ClosesAt(c.reference, first.value).Some? &&
       AtMostMax(c, ClosesAt(c.reference, first.value).value)
    then Settled(ClosesAt(c.reference, first.value).value + c.offset)
    else Cancelled
  }

  lemma {:induction false} FirstAcceptableIsLeast(c: Session, round: int)
    requires IsPrice(c.reference) && 1 <= round <= MAX_ROUNDS + 1
    ensures var first := FirstAcceptable(c, round);
      && (first.Some? ==> round <= first.value <= MAX_ROUNDS && SellerTakes(c, first.value))
      && (forall k :: round <= k <= MAX_ROUNDS && (first.Some? ==> k < first.value) ==> !SellerTakes(c, k))
    decreases MAX_ROUNDS - round
  {
    if round <= MAX_ROUNDS && !SellerTakes(c, round) { FirstAcceptableIsLeast(c, round + 1); }
  }

  lemma BuyerRungsRise(reference: int, early: int, late: int)
    requires IsPrice(reference) && 1 <= early <= late <= MAX_ROUNDS
    ensures Rung(Buyer, reference, early) <= Rung(Buyer, reference, late)
  {
    ShareMonotone(reference, early, late);
    RoundingMonotone(LadderShare(Buyer, reference, early), LadderShare(Buyer, reference, late));
  }

  /** Once the Buyer cannot afford its own rung it cannot afford to close in that round or any later one. */
  lemma TooDearStaysTooDear(c: Session, round: int)
    requires IsPrice(c.reference) && 1 <= round <= MAX_ROUNDS && !AtMostMax(c, Rung(Buyer, c.reference, round))
    ensures ClosedForm(c, round) == Cancelled
  {
    hide LadderShare;
    FirstAcceptableIsLeast(c, round);
    var first := FirstAcceptable(c, round);
    if first.Some? { BuyerRungsRise(c.reference, round, first.value); }
  }

  ghost predicate Silent(c: Session, v: Providers) {
    ValidSession(c) && HasRungs(c) && FallbackOnly(v.buyer) && FallbackOnly(v.seller)
  }

  /** From the Buyer's opening of a round, or from its move to the rung of that round. */
  function FromRung(c: Session, v: Providers, round: int): Outcome
    requires IsPrice(c.reference) && 1 <= round <= MAX_ROUNDS
  {
    var rung := Rung(Buyer, c.reference, round);
    if AtMostMax(c, rung) then SellerTurn(c, v, Terms(round, rung + c.offset)).outcome else Cancelled
  }

  lemma OpeningIsFromRung(c: Session, v: Providers, round: int)
    requires Silent(c, v) && 1 <= round <= MAX_ROUNDS
    ensures BuyerTurn(c, v, OpeningContext(c.reference, round)).outcome == FromRung(c, v, round)
  {
    hide LadderShare;
    hide Reply;
    BuyerOpens(c, round);
  }

  /** A Buyer asked about a Seller rung accepts it or goes on from its own next rung. */
  lemma CounterIsFromRung(c: Session, v: Providers, round: int, rung: int)
    requires Silent(c, v) && 1 <= round <= MAX_ROUNDS && IsPrice(rung) && IsPrice(rung + c.offset)
    ensures BuyerTurn(c, v, CounterContext(c.reference, round, rung + c.offset)).outcome ==
      if rung <= Rung(Buyer, c.reference, if round < MAX_ROUNDS then round + 1 else MAX_ROUNDS) && AtMostMax(c, rung)
      then Settled(rung + c.offset)
      else if round < MAX_ROUNDS then FromRung(c, v, round + 1)
      else Cancelled
  {
    hide LadderShare;
    hide Reply;
    hide FallbackCandidate;
    BuyerCounters(c, round, rung);
  }

  /** A round played from the Buyer's rung, read off the two rungs and the two limits. */
  lemma RoundFromRung(c: Session, v: Providers, round: int)
    requires Silent(c, v) && 1 <= round <= MAX_ROUNDS && AtMostMax(c, Rung(Buyer, c.reference, round))
    ensures var (offered, rung) := (Rung(Buyer, c.reference, round), Rung(Seller, c.reference, round));
      FromRung(c, v, round) ==
        if rung <= offered && AtLeastMin(c, offered) then Settled(offered + c.offset)
        else if AtLeastMin(c, rung) then BuyerTurn(c, v, CounterContext(c.reference, round, rung + c.offset)).outcome
        else if round < MAX_ROUNDS then FromRung(c, v, round + 1)
        else Cancelled
  {
    hide LadderShare;
    hide Reply;
    hide FallbackCandidate;
    RungsInRange(c, round);
    SellerResponds(c, round, Rung(Buyer, c.reference, round));
    var terms := Terms(round, Rung(Buyer, c.reference, round) + c.offset);
    var reply := FallbackCandidate(SellerContext(c.reference, terms), AtLeast(c.sellerMin), Some(c.offset));
    assert SellerTurn(c, v, terms).outcome == AfterAnswer(c, v, AnswerOf(terms, reply)).outcome;
    if round < MAX_ROUNDS { OpeningIsFromRung(c, v, round + 1); }
  }

  /** From any round on: either it closes there, or both answers of the Seller lead to the next rung. */
  lemma {:induction false} EveryRoundCloses(c: Session, v: Providers, round: int)
    requires Silent(c, v) && 1 <= round <= MAX_ROUNDS
    ensures FromRung(c, v, round) == ClosedForm(c, round)
    decreases MAX_ROUNDS - round
  {
    hide LadderShare;
    hide SellerTurn;
    hide BuyerTurn;
    var offered, asked := Rung(Buyer, c.reference, round), Rung(Seller, c.reference, round);
    if !AtMostMax(c, offered) {
      TooDearStaysTooDear(c, round);
    } else {
      RungsInRange(c, round);
      RoundFromRung(c, v, round);
      CounterIsFromRung(c, v, round, asked);
      if round < MAX_ROUNDS {
        EveryRoundCloses(c, v, round + 1);
        if !AtMostMax(c, Rung(Buyer, c.reference, round + 1)) { TooDearStaysTooDear(c, round + 1); }
      }
    }
  }

  /** A Buyer whose first rung is below one increment has nothing to open with. */
  lemma NoRungNoOpening(c: Session, v: Providers)
    requires ValidSession(c) && LadderPrice(Buyer, c.reference, 1).None? && FallbackOnly(v.buyer)
    ensures Script(c, v) == Trace([], Cancelled)
  {
    hide LadderShare;
    hide Reply;
    var x := OpeningContext(c.reference, 1);
    assert FallbackCandidate(x, AtMost(c.buyerMax), Some(c.offset)).None?;
    assert Reply(v.buyer, x, AtMost(c.buyerMax), c.offset).None?;
    assert Script(c, v) == BuyerGoesOn(c, v, x, None);
  }

  /** The outcome of every unattended negotiation. */
  function UnattendedOutcome(c: Session): Outcome
    requires IsPrice(c.reference)
  {
    if LadderPrice(Buyer, c.reference, 1).None? then Cancelled else ClosedForm(c, 1)
  }

  /** The exact outcome, for every reference price and over every order of events: without an opening
      rung the negotiation is cancelled; otherwise it settles at the first closing price that the
      Seller can take, exactly when the Buyer can afford that one. */
  lemma FallbackOutcome(c: Session, v: Providers, ticks: seq<Tick>)
    requires ValidSession(c) && InRange(c) && FallbackOnly(v.buyer) && FallbackOnly(v.seller)
    ensures var s := Run(c, Schedule(ticks, v));
      s.buyer.finished ==> s.buyer.outcomes == [UnattendedOutcome(c)]
  {
    RunsFollowPlay(c, v, ticks);
    if LadderPrice(Buyer, c.reference, 1).None? {
      NoRungNoOpening(c, v);
    } else {
      OpeningIsFromRung(c, v, 1);
      EveryRoundCloses(c, v, 1);
    }
  }

  /** Where no round closes early: up to round 5 the Seller asks for more than the Buyer's next rung. */
  lemma NothingClosesEarly(c: Session, round: int)
    requires ValidSession(c) && HasRungs(c) && 1 <= round <= 5
    ensures ClosesAt(c.reference, round) == None
  {
    hide LadderShare;
    RungsInRange(c, round);
    RungsInRange(c, round + 1);
    SidesApartBeforeSix(c.reference, round);
    BuyerRungsRise(c.reference, round, round + 1);
  }

  /** The closed form says when it settles: some round closes at a price within both limits that is
      the first one the Seller can take, and no earlier than round 6. */
  lemma ClosedFormMeans(c: Session)
    requires ValidSession(c) && HasRungs(c)
    ensures UnattendedOutcome(c).Settled? <==> exists n :: IsClosing(c, n)
    ensures forall n :: IsClosing(c, n) ==>
      6 <= n && UnattendedOutcome(c) == Settled(ClosesAt(c.reference, n).value + c.offset)
  {
    hide LadderShare;
    hide ClosesAt;
    FirstAcceptableIsLeast(c, 1);
    var first := FirstAcceptable(c, 1);
    if UnattendedOutcome(c).Settled? { assert IsClosing(c, first.value); }
    forall n | IsClosing(c, n)
      ensures 6 <= n && UnattendedOutcome(c) == Settled(ClosesAt(c.reference, n).value + c.offset)
    {
      if n <= 5 { NothingClosesEarly(c, n); }
      assert first == Some(n);
    }
  }

  predicate IsClosing(c: Session, n: int)
    requires IsPrice(c.reference)
  {
    && 1 <= n <= MAX_ROUNDS && SellerTakes(c, n) && AtMostMax(c, ClosesAt(c.reference, n).value)
    && forall k :: 1 <= k < n ==> !SellerTakes(c, k)
  }

  // ---- Regular references ----

  /** For a regular reference the closing prices are those of rounds 6 to 10. */
  lemma RegularCloses(c: Session, round: int)
    requires ValidSession(c) && Regular(c.reference) && InRange(c) && 1 <= round <= MAX_ROUNDS
    ensures HasRungs(c)
    ensures ClosesAt(c.reference, round) == if round <= 5 then None else Some(ClosingPrice(c.reference, round))
  {
    hide LadderShare;
    RegularHasRungs(c.reference);
    if round <= 5 {
      NothingClosesEarly(c, round);
    } else {
      RungsMeet(c.reference, round);
      if round == 6 {
        RungsMeet(c.reference, 7);
        RoundingBounds(c.reference);
      }
    }
  }

  lemma RegularHasRungs(reference: int)
    requires Regular(reference)
    ensures LadderPrice(Buyer, reference, 1).Some?
  {
    FirstRungs(reference);
    LadderIsRounded(reference, 1);
    RoundingBounds(LadderShare(Buyer, reference, 1));
  }

  lemma {:induction false} ClosingPricesRise(reference: int, early: int, late: int)
    requires Regular(reference) && 6 <= early <= late <= MAX_ROUNDS
    ensures ClosingPrice(reference, early) <= ClosingPrice(reference, late)
    decreases late - early
  {
    if early < late {
      RungsMeet(reference, early);
      ClosingPricesRise(reference, early + 1, late);
    }
  }

  predicate WithinLimits(c: Session, price: int) {
    AtLeastMin(c, price) && AtMostMax(c, price)
  }

  /** For a regular reference an unattended negotiation settles if and only if some closing price of
      rounds 6 to 10 lies within both limits, and then at the first one that the Seller can take. */
  lemma RegularOutcome(c: Session)
    requires ValidSession(c) && Regular(c.reference) && InRange(c)
    ensures UnattendedOutcome(c).Settled? <==>
      exists n :: 6 <= n <= MAX_ROUNDS && WithinLimits(c, ClosingPrice(c.reference, n))
    ensures UnattendedOutcome(c).Settled? ==>
      exists n :: 6 <= n <= MAX_ROUNDS && UnattendedOutcome(c).amount == ClosingPrice(c.reference, n) + c.offset &&
        WithinLimits(c, ClosingPrice(c.reference, n)) &&
        forall k :: 6 <= k < n ==> !AtLeastMin(c, ClosingPrice(c.reference, k))
  {
    hide LadderShare;
    hide ClosesAt;
    hide ClosingPrice;
    hide UnattendedOutcome;
    forall n | 1 <= n <= MAX_ROUNDS
      ensures ClosesAt(c.reference, n) == if n <= 5 then None else Some(ClosingPrice(c.reference, n))
    {
      RegularCloses(c, n);
    }
    RegularCloses(c, 6);
    ClosedFormMeans(c);
    FirstAcceptableIsLeast(c, 1);
    var first := FirstAcceptable(c, 1);
    if UnattendedOutcome(c).Settled? {
      var n :| IsClosing(c, n);
      assert 6 <= n <= MAX_ROUNDS && WithinLimits(c, ClosingPrice(c.reference, n));
      assert forall k :: 6 <= k < n ==> SellerTakes(c, k) == AtLeastMin(c, ClosingPrice(c.reference, k));
    }
    forall n | 6 <= n <= MAX_ROUNDS && WithinLimits(c, ClosingPrice(c.reference, n))
      ensures UnattendedOutcome(c).Settled?
    {
      assert SellerTakes(c, n);
      ClosingPricesRise(c.reference, first.value, n);
      assert IsClosing(c, first.value);
    }
  }
}
