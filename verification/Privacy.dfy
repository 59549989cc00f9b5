/** What the messages reveal: limits never shape a price, and the secret offset moves a whole run
    rigidly. */
module Privacy {
  import opened Pricing
  import opened Runtimes
  import opened Bargain
  import opened Play
  import opened Fallback

  ghost predicate LocalOnly(v: Providers) {
    FallbackOnly(v.buyer) && FallbackOnly(v.seller)
  }

  // ---- Stricter limits only shorten a run ----

  predicate Stricter(tight: Session, loose: Session) {
    tight.(buyerMax := loose.buyerMax) == loose && tight.buyerMax <= loose.buyerMax
  }

  /** Contexts that honest messages can produce. */
  predicate Asked(c: Session, x: Context) {
    && ValidContext(x) && x.role == Buyer && x.reference == Some(c.reference)
  }

  lemma SentPricesAreValid(x: Context, policy: Policy, offset: int)
    ensures var reply := FallbackCandidate(x, policy, Some(offset)); reply.Some? ==> IsPrice(reply.value.price)
  {
    hide LocalFallback;
  }

  lemma {:induction false} StricterBuyerTurn(tight: Session, loose: Session, v: Providers, x: Context)
    requires LocalOnly(v) && Stricter(tight, loose) && Asked(loose, x)
    ensures BuyerTurn(tight, v, x).messages <= BuyerTurn(loose, v, x).messages
    decreases MAX_ROUNDS + 1 - NextOfferRound(x), 2
  {
    hide LocalFallback;
    hide Reply;
    LimitsNeverShapeAPrice(x, AtMost(loose.buyerMax), AtMost(tight.buyerMax), Some(loose.offset));
    SentPricesAreValid(x, AtMost(tight.buyerMax), tight.offset);
    var reply := Reply(v.buyer, x, AtMost(tight.buyerMax), tight.offset);
    if reply.Some? && reply.value.MakeOffer? && NextOfferRound(x) <= MAX_ROUNDS {
      StricterSellerTurn(tight, loose, v, Terms(NextOfferRound(x), reply.value.price));
    }
  }

  lemma {:induction false} StricterSellerTurn(tight: Session, loose: Session, v: Providers, terms: Terms)
    requires LocalOnly(v) && Stricter(tight, loose) && IsPrice(loose.reference)
    requires 1 <= terms.round <= MAX_ROUNDS && IsPrice(terms.price)
    ensures SellerTurn(tight, v, terms).messages <= SellerTurn(loose, v, terms).messages
    decreases MAX_ROUNDS + 1 - terms.round, 1
  {
    hide LocalFallback;
    hide Reply;
    var x := SellerContext(loose.reference, terms);
    SentPricesAreValid(x, AtLeast(loose.sellerMin), loose.offset);
    var answer := AnswerOf(terms, Reply(v.seller, x, AtLeast(loose.sellerMin), loose.offset));
    match answer
    case Proposal(round, price) => StricterBuyerTurn(tight, loose, v, CounterContext(loose.reference, round, price));
    case Decline(round) =>
      if round < MAX_ROUNDS { StricterBuyerTurn(tight, loose, v, OpeningContext(loose.reference, round + 1)); }
    case Acceptance(_, _) =>
  }

  /** Two-run property over all orders of events: what is sent under a stricter Buyer limit is a
      prefix of what is sent under a looser one, so no message depends on the limit except by being
      absent. */
  lemma StricterRunsArePrefixes(tight: Session, loose: Session, v: Providers, ticks: seq<Tick>, others: seq<Tick>)
    requires ValidSession(tight) && ValidSession(loose) && LocalOnly(v) && Stricter(tight, loose)
    requires Run(loose, Schedule(others, v)).buyer.finished
    ensures Run(tight, Schedule(ticks, v)).log <= Run(loose, Schedule(others, v)).log
  {
    hide Reply;
    RunsFollowPlay(tight, v, ticks);
    RunsFollowPlay(loose, v, others);
    StricterBuyerTurn(tight, loose, v, OpeningContext(loose.reference, 1));
  }

  // ---- Only public rungs are ever named ----

  /** The price is the public rung of a role in a round, shifted by the offset. */
  predicate IsRung(c: Session, role: Role, round: int, price: int) {
    LadderPrice(role, c.reference, round) == Some(price - c.offset)
  }

  /** A proposal names its sender's rung of the round, an acceptance the other party's. */
  predicate OnLadder(c: Session, e: Entry) {
    match e.payload
    case Proposal(round, price) => IsRung(c, e.sender, round, price)
    case Acceptance(round, price) => IsRung(c, Opposite(e.sender), round, price)
    case _ => true
  }

  lemma OffersAreRungs(x: Context, policy: Policy, offset: int)
    ensures var reply := FallbackCandidate(x, policy, Some(offset));
      reply.Some? && reply.value.MakeOffer? ==>
        && x.reference.Some?
        && LadderPrice(x.role, x.reference.value, NextOfferRound(x)) == Some(reply.value.price - offset)
    ensures var reply := FallbackCandidate(x, policy, Some(offset));
      reply.Some? && reply.value.Accept? ==> x.current.Some? && reply.value.price == x.current.value.price
  {
    hide LadderShare;
    hide StrategyAllows;
  }

  lemma {:induction false} BuyerTurnOnLadder(c: Session, v: Providers, x: Context)
    requires LocalOnly(v) && Asked(c, x)
    requires x.current.Some? ==> IsRung(c, Seller, x.round, x.current.value.price)
    ensures forall e <- BuyerTurn(c, v, x).messages :: OnLadder(c, e)
    decreases MAX_ROUNDS + 1 - NextOfferRound(x), 2
  {
    hide LocalFallback;
    hide LadderPrice;
    hide Reply;
    OffersAreRungs(x, AtMost(c.buyerMax), c.offset);
    SentPricesAreValid(x, AtMost(c.buyerMax), c.offset);
    var reply := Reply(v.buyer, x, AtMost(c.buyerMax), c.offset);
    if reply.Some? && reply.value.MakeOffer? && NextOfferRound(x) <= MAX_ROUNDS {
      SellerTurnOnLadder(c, v, Terms(NextOfferRound(x), reply.value.price));
    }
  }

  lemma {:induction false} SellerTurnOnLadder(c: Session, v: Providers, terms: Terms)
    requires LocalOnly(v) && IsPrice(c.reference) && 1 <= terms.round <= MAX_ROUNDS && IsPrice(terms.price)
    requires IsRung(c, Buyer, terms.round, terms.price)
    ensures forall e <- SellerTurn(c, v, terms).messages :: OnLadder(c, e)
    decreases MAX_ROUNDS + 1 - terms.round, 1
  {
    hide LocalFallback;
    hide LadderPrice;
    hide Reply;
    var x := SellerContext(c.reference, terms);
    OffersAreRungs(x, AtLeast(c.sellerMin), c.offset);
    SentPricesAreValid(x, AtLeast(c.sellerMin), c.offset);
    var answer := AnswerOf(terms, Reply(v.seller, x, AtLeast(c.sellerMin), c.offset));
    match answer
    case Proposal(round, price) => BuyerTurnOnLadder(c, v, CounterContext(c.reference, round, price));
    case Decline(round) =>
      if round < MAX_ROUNDS { BuyerTurnOnLadder(c, v, OpeningContext(c.reference, round + 1)); }
    case Acceptance(_, _) =>
  }

  /** Every price in an unattended run is a public rung of its round, shifted by the secret offset: the
      sender's own in a proposal, the other party's in an acceptance. No limit enters a price. */
  lemma PricesAreRungs(c: Session, v: Providers, ticks: seq<Tick>, k: nat)
    requires ValidSession(c) && LocalOnly(v) && k < |Run(c, Schedule(ticks, v)).log|
    ensures var e := Run(c, Schedule(ticks, v)).log[k];
      && OnLadder(c, e)
      && (e.payload.Proposal? ==> IsRung(c, if k % 2 == 0 then Buyer else Seller, k / 2 + 1, e.payload.price))
  {
    hide Reply;
    hide LadderPrice;
    RunsFollowPlay(c, v, ticks);
    RoundsCountUp(c, Schedule(ticks, v), k);
    BuyerTurnOnLadder(c, v, OpeningContext(c.reference, 1));
    var log := Run(c, Schedule(ticks, v)).log;
    assert log[k] == Script(c, v).messages[k] && log[k] in Script(c, v).messages;
  }

  // ---- The offset moves a run rigidly ----

  function Centred(c: Session): Session {
    c.(offset := 0, buyerMax := c.buyerMax - c.offset, sellerMin := c.sellerMin - c.offset)
  }

  function ShiftPayload(p: Payload, delta: int): Payload {
    if p.Decline? then p else p.(price := p.price + delta)
  }

  function ShiftEntries(log: seq<Entry>, delta: int): seq<Entry> {
    seq(|log|, i requires 0 <= i < |log| => Entry(log[i].sender, ShiftPayload(log[i].payload, delta)))
  }

  function ShiftOutcome(o: Outcome, delta: int): Outcome {
    if o.Settled? then Settled(o.amount + delta) else o
  }

  function ShiftTrace(t: Trace, delta: int): Trace {
    Trace(ShiftEntries(t.messages, delta), ShiftOutcome(t.outcome, delta))
  }

  function ShiftReply(reply: Option<Candidate>, delta: int): Option<Candidate> {
    if reply.None? then None else Some(ShiftCandidate(reply.value, delta))
  }

  /** Every rung that exists is a uint64 amount after the shift. */
  predicate RungsShift(c: Session) {
    forall role: Role, round: int :: 1 <= round <= MAX_ROUNDS && LadderPrice(role, c.reference, round).Some? ==>
      IsPrice(LadderPrice(role, c.reference, round).value + c.offset)
  }

  /** A provider is asked the same question, whatever the offset, and any answer that stays a uint64
      amount comes out shifted. */
  lemma ReplyIsEquivariant(provider: Provider, x: Context, policy: Policy, offset: int)
    requires x.reference.Some? && ValidOffset(x.reference.value, offset)
    requires x.current.Some? ==> IsPrice(x.current.value.price) && IsPrice(x.current.value.price - offset)
    ensures Normalize(x, policy, offset) == Normalize(ShiftContext(x, -offset), ShiftPolicy(policy, -offset), 0)
    ensures var centred :=
      AllowedCandidate(provider, ShiftContext(x, -offset), ShiftPolicy(policy, -offset), MAX_REQUESTS, Some(0));
      (centred.Some? ==> IsPrice(centred.value.price + offset)) ==>
        AllowedCandidate(provider, x, policy, MAX_REQUESTS, Some(offset)) == ShiftReply(centred, offset)
    ensures var centred := FallbackCandidate(ShiftContext(x, -offset), ShiftPolicy(policy, -offset), Some(0));
      (centred.Some? ==> IsPrice(centred.value.price + offset)) ==>
        FallbackCandidate(x, policy, Some(offset)) == ShiftReply(centred, offset)
  {
    hide StrategyTarget;
    hide FirstAllowed;
    hide LadderShare;
    hide LocalFallback;
    var n := Normalize(x, policy, offset).value;
    assert Normalize(n.context, n.policy, 0) == Some(n);
    FirstAllowedSound(provider, n.policy, n.context, 0, MAX_REQUESTS);
    FallbackIsAllowed(n.context, n.policy);
  }

  /** Shifting by the offset stays within uint64 for a price on the table. */
  predicate Shiftable(x: Context, offset: int) {
    x.current.Some? ==> IsPrice(x.current.value.price) && IsPrice(x.current.value.price - offset)
  }

  lemma FallbackShifts(c: Session, x: Context, policy: Policy)
    requires ValidOffset(c.reference, c.offset) && RungsShift(c)
    requires ValidContext(x) && x.reference == Some(c.reference) && Shiftable(x, c.offset)
    ensures var centred := FallbackCandidate(ShiftContext(x, -c.offset), ShiftPolicy(policy, -c.offset), Some(0));
      var reply := FallbackCandidate(x, policy, Some(c.offset));
      && reply == ShiftReply(centred, c.offset)
      && (reply.Some? ==> IsPrice(reply.value.price) && IsPrice(reply.value.price - c.offset))
    // the final check of the actual limit never rejects what the shifted coordinates allowed
    ensures Normalize(x, policy, c.offset).Some?
    ensures var n := Normalize(x, policy, c.offset).value;
      FallbackCandidate(x, policy, Some(c.offset)).Some? <==> LocalFallback(n.context, n.policy).Some?
  {
    hide LadderShare;
    hide StrategyTarget;
    hide FallbackCandidate;
    ReplyIsEquivariant(OFFLINE, x, policy, c.offset);
    var n := Normalize(x, policy, c.offset).value;
    var local := LocalFallback(n.context, n.policy);
    FallbackIsAllowed(n.context, n.policy);
    LocalFallbackPrice(n.context, n.policy);
    CentredFallback(x, policy, c.offset);
  }

  lemma LocalFallbackPrice(x: Context, policy: Policy)
    requires x.reference.Some?
    ensures var local := LocalFallback(x, policy);
      local.Some? ==>
        if local.value.Accept? then x.current.Some? && local.value.price == x.current.value.price
        else
          && 1 <= NextOfferRound(x) <= MAX_ROUNDS
          && LadderPrice(x.role, x.reference.value, NextOfferRound(x)) == Some(local.value.price)
  {
    hide LadderShare;
  }

  lemma CentredFallback(x: Context, policy: Policy, offset: int)
    requires x.reference.Some? && ValidOffset(x.reference.value, offset) && Shiftable(x, offset)
    ensures var n := Normalize(x, policy, offset).value;
      FallbackCandidate(ShiftContext(x, -offset), ShiftPolicy(policy, -offset), Some(0)) ==
        LocalFallback(n.context, n.policy)
    ensures var local :=
      LocalFallback(Normalize(x, policy, offset).value.context, Normalize(x, policy, offset).value.policy);
      FallbackCandidate(x, policy, Some(offset)).Some? ==> local.Some?
  {
    hide LocalFallback;
    var n := Normalize(x, policy, offset).value;
    assert Normalize(n.context, n.policy, 0) == Some(n);
    FallbackIsAllowed(n.context, n.policy);
  }

  lemma PrependShifts(e: Entry, t: Trace, delta: int)
    ensures ShiftTrace(Prepend(e, t), delta) ==
      Prepend(Entry(e.sender, ShiftPayload(e.payload, delta)), ShiftTrace(t, delta))
    ensures ShiftTrace(Trace([], t.outcome), delta) == Trace([], ShiftOutcome(t.outcome, delta))
    ensures ShiftTrace(Trace([e], t.outcome), delta) ==
      Trace([Entry(e.sender, ShiftPayload(e.payload, delta))], ShiftOutcome(t.outcome, delta))
  {}

  lemma {:induction false} BuyerTurnShifts(c: Session, v: Providers, x: Context)
    requires LocalOnly(v) && ValidOffset(c.reference, c.offset) && RungsShift(c)
    requires Asked(c, x) && Shiftable(x, c.offset)
    ensures BuyerTurn(c, v, x) == ShiftTrace(BuyerTurn(Centred(c), v, ShiftContext(x, -c.offset)), c.offset)
    decreases MAX_ROUNDS + 1 - NextOfferRound(x), 2
  {
    hide FallbackCandidate;
    hide Reply;
    FallbackShifts(c, x, AtMost(c.buyerMax));
    var x0 := ShiftContext(x, -c.offset);
    assert ValidContext(x0);
    var reply := FallbackCandidate(x, AtMost(c.buyerMax), Some(c.offset));
    var centred := FallbackCandidate(x0, AtMost(c.buyerMax - c.offset), Some(0));
    assert BuyerTurn(c, v, x) == BuyerGoesOn(c, v, x, reply);
    assert BuyerTurn(Centred(c), v, x0) == BuyerGoesOn(Centred(c), v, x0, centred);
    var round := NextOfferRound(x);
    if reply.Some? && reply.value.MakeOffer? && round <= MAX_ROUNDS {
      var terms := Terms(round, reply.value.price);
      SellerTurnShifts(c, v, terms);
      PrependShifts(Entry(Buyer, Proposal(round, centred.value.price)),
        SellerTurn(Centred(c), v, Terms(round, centred.value.price)), c.offset);
    } else if reply.Some? {
      PrependShifts(Entry(Buyer, Acceptance(x.round, centred.value.price)), BuyerGoesOn(Centred(c), v, x0, centred),
        c.offset);
    } else {
      PrependShifts(Entry(Buyer, Decline(1)), BuyerGoesOn(Centred(c), v, x0, centred), c.offset);
    }
  }

  lemma {:induction false} SellerTurnShifts(c: Session, v: Providers, terms: Terms)
    requires LocalOnly(v) && ValidOffset(c.reference, c.offset) && RungsShift(c)
    requires 1 <= terms.round <= MAX_ROUNDS && IsPrice(terms.price) && IsPrice(terms.price - c.offset)
    ensures SellerTurn(c, v, terms) ==
      ShiftTrace(SellerTurn(Centred(c), v, terms.(price := terms.price - c.offset)), c.offset)
    decreases MAX_ROUNDS + 1 - terms.round, 1
  {
    hide FallbackCandidate;
    hide Reply;
    var terms0 := terms.(price := terms.price - c.offset);
    var x := SellerContext(c.reference, terms);
    FallbackShifts(c, x, AtLeast(c.sellerMin));
    var x0 := SellerContext(c.reference, terms0);
    assert x0 == ShiftContext(x, -c.offset) && ValidContext(x0);
    var answer := AnswerOf(terms, FallbackCandidate(x, AtLeast(c.sellerMin), Some(c.offset)));
    var answer0 := AnswerOf(terms0, FallbackCandidate(x0, AtLeast(c.sellerMin - c.offset), Some(0)));
    assert answer == ShiftPayload(answer0, c.offset);
    AfterAnswerShifts(c, v, answer, answer0);
    PrependShifts(Entry(Seller, answer0), AfterAnswer(Centred(c), v, answer0), c.offset);
  }

  lemma {:induction false} AfterAnswerShifts(c: Session, v: Providers, answer: Payload, answer0: Payload)
    requires LocalOnly(v) && ValidOffset(c.reference, c.offset) && RungsShift(c)
    requires !answer0.PriceOpening? && answer == ShiftPayload(answer0, c.offset) && 1 <= answer.round <= MAX_ROUNDS
    requires !answer.Decline? ==> IsPrice(answer.price) && IsPrice(answer.price - c.offset)
    ensures AfterAnswer(c, v, answer) == ShiftTrace(AfterAnswer(Centred(c), v, answer0), c.offset)
    decreases MAX_ROUNDS - answer.round, 3
  {
    match answer
    case Proposal(round, price) => BuyerTurnShifts(c, v, CounterContext(c.reference, round, price));
    case Decline(round) =>
      if round < MAX_ROUNDS { BuyerTurnShifts(c, v, OpeningContext(c.reference, round + 1)); }
    case Acceptance(_, _) =>
  }

  /** A whole unattended run with an offset is the computation without one, on limits moved the other
      way, with every price shifted by the offset. The moved limits may be any integers. */
  lemma RunsAreEquivariant(c: Session, v: Providers, ticks: seq<Tick>)
    requires ValidSession(c) && LocalOnly(v) && RungsShift(c)
    ensures var (s, centred) := (Run(c, Schedule(ticks, v)), Script(Centred(c), v));
      && s.log <= ShiftEntries(centred.messages, c.offset)
      && (s.buyer.finished ==>
            && s.log == ShiftEntries(centred.messages, c.offset)
            && s.buyer.outcomes == [ShiftOutcome(centred.outcome, c.offset)])
  {
    hide Reply;
    RunsFollowPlay(c, v, ticks);
    BuyerTurnShifts(c, v, OpeningContext(c.reference, 1));
  }

  /** Where the moved limits are limits again, that computation is what centred runs do. */
  lemma CentredRunsShift(c: Session, v: Providers, ticks: seq<Tick>, others: seq<Tick>)
    requires ValidSession(c) && ValidSession(Centred(c)) && LocalOnly(v) && RungsShift(c)
    requires Run(c, Schedule(ticks, v)).buyer.finished && Run(Centred(c), Schedule(others, v)).buyer.finished
    ensures var (s, s0) := (Run(c, Schedule(ticks, v)), Run(Centred(c), Schedule(others, v)));
      && s.log == ShiftEntries(s0.log, c.offset)
      && |s0.buyer.outcomes| == 1
      && s.buyer.outcomes == [ShiftOutcome(s0.buyer.outcomes[0], c.offset)]
  {
    hide Reply;
    RunsAreEquivariant(c, v, ticks);
    RunsFollowPlay(Centred(c), v, others);
  }
}
