/** The sequential evaluation loop, and what the two message-passing runtimes add to it. */
module Scenario {
  import opened Pricing
  import opened Runtimes
  import opened Bargain
  import opened Play
  import opened Fallback

  /** A provider that answers a context the same way every time. */
  type Oracle = Context -> Answer

  function Repeating(o: Oracle): Provider {
    (x: Context, request: nat) => o(x)
  }

  /** How a scenario ends, in which round, and how many moves came from a model. */
  datatype Verdict =
    | SettledIn(amount: int, rounds: int, modelSelections: nat)
    | CancelledIn(rounds: int, modelSelections: nat)

  function FromModel(o: Oracle, x: Context, policy: Policy): Option<Candidate> {
    AllowedCandidate(Repeating(o), x, policy, 1, None)
  }

  /** One request to the provider, without an offset, then the local fallback. */
  function Choose(o: Oracle, x: Context, policy: Policy): Option<Candidate> {
    var model := FromModel(o, x, policy);
    if model.Some? then model else FallbackCandidate(x, policy, None)
  }

  function Selected(o: Oracle, x: Context, policy: Policy): nat {
    if FromModel(o, x, policy).Some? then 1 else 0
  }

  /** The rounds of the loop from a standing Buyer offer, after some moves of a model. */
  function Rounds(c: Session, buyer: Oracle, seller: Oracle, round: int, offer: int, before: nat): Verdict
    decreases MAX_ROUNDS - round
  {
    if MAX_ROUNDS < round then CancelledIn(MAX_ROUNDS, before)
    else
      var x := SellerContext(c.reference, Terms(round, offer));
      var s := Choose(seller, x, AtLeast(c.sellerMin));
      var count := before + Selected(seller, x, AtLeast(c.sellerMin));
      if s.None? then CancelledIn(round, count)
      else if s.value.Accept? then SettledIn(s.value.price, round, count)
      else
        var y := CounterContext(c.reference, round, s.value.price);
        var b := Choose(buyer, y, AtMost(c.buyerMax));
        var count' := count + Selected(buyer, y, AtMost(c.buyerMax));
        if b.None? then CancelledIn(round, count')
        else if b.value.Accept? then SettledIn(b.value.price, round, count')
        else Rounds(c, buyer, seller, round + 1, b.value.price, count')
  }

  function Evaluation(c: Session, buyer: Oracle, seller: Oracle): Verdict {
    var x := OpeningContext(c.reference, 1);
    var opening := Choose(buyer, x, AtMost(c.buyerMax));
    var count := Selected(buyer, x, AtMost(c.buyerMax));
    if opening.None? || !opening.value.MakeOffer? then CancelledIn(1, count)
    else Rounds(c, buyer, seller, 1, opening.value.price, count)
  }

  method ChooseCandidate(o: Oracle, x: Context, policy: Policy) returns (r: Attempt<Option<Candidate>>, fromModel: nat)
    ensures r.Threw? <==> !ValidContext(x)
    ensures r.Returned? ==> r.value == Choose(o, x, policy) && fromModel == Selected(o, x, policy)
    ensures fromModel <= 1
  {
    r := GenerateAllowedCandidate(Repeating(o), x, policy, Some(1), None);
    fromModel := if r.Returned? && r.value.Some? then 1 else 0;
    if r.Returned? && r.value.None? { r := Returned(FallbackCandidate(x, policy, None)); }
  }

  lemma ChosenIsPrice(o: Oracle, x: Context, policy: Policy)
    requires ValidContext(x) && x.reference.Some?
    ensures Choose(o, x, policy).Some? ==> IsPrice(Choose(o, x, policy).value.price)
  {
    OneRequestIsEnough(o, x, policy);
  }

  lemma NoRoundsLeft(c: Session, buyer: Oracle, seller: Oracle, offer: int, before: nat)
    ensures Rounds(c, buyer, seller, MAX_ROUNDS + 1, offer, before) == CancelledIn(MAX_ROUNDS, before)
  {}

  /** One turn of the loop: the Seller answers the standing offer, and then the Buyer. */
  lemma RoundUnfolds(c: Session, buyer: Oracle, seller: Oracle, round: int, offer: int, before: nat)
    requires round <= MAX_ROUNDS
    ensures var verdict := Rounds(c, buyer, seller, round, offer, before);
      var x := SellerContext(c.reference, Terms(round, offer));
      var s := Choose(seller, x, AtLeast(c.sellerMin));
      var count := before + Selected(seller, x, AtLeast(c.sellerMin));
      && (s.None? ==> verdict == CancelledIn(round, count))
      && (s.Some? && s.value.Accept? ==> verdict == SettledIn(s.value.price, round, count))
      && (s.Some? && s.value.MakeOffer? ==>
            var y := CounterContext(c.reference, round, s.value.price);
            var b := Choose(buyer, y, AtMost(c.buyerMax));
            var count' := count + Selected(buyer, y, AtMost(c.buyerMax));
            && (b.None? ==> verdict == CancelledIn(round, count'))
            && (b.Some? && b.value.Accept? ==> verdict == SettledIn(b.value.price, round, count'))
            && (b.Some? && b.value.MakeOffer? ==>
                  verdict == Rounds(c, buyer, seller, round + 1, b.value.price, count')))
  {
    hide Choose;
    hide Selected;
  }

  /** Limits below 1 and a reference that is no price are refused; nothing after that throws. At most
      one move of the opening and two of each round come from a model. */
  method RunNegotiationScenario(c: Session, buyer: Oracle, seller: Oracle) returns (r: Attempt<Verdict>)
    ensures r.Threw? <==> c.buyerMax < 1 || c.sellerMin < 1 || !IsPrice(c.reference)
    ensures r.Returned? ==>
      && r.value == Evaluation(c, buyer, seller)
      && 1 <= r.value.rounds <= MAX_ROUNDS && r.value.modelSelections <= 2 * r.value.rounds + 1
  {
    hide Choose;
    hide Rounds;
    hide Selected;
    if c.buyerMax < 1 || c.sellerMin < 1 || !IsPrice(c.reference) { return Threw; }
    var x := OpeningContext(c.reference, 1);
    var opening, fromModel := ChooseCandidate(buyer, x, AtMost(c.buyerMax));
    ChosenIsPrice(buyer, x, AtMost(c.buyerMax));
    var modelSelections: nat := fromModel;
    if opening.value.None? || !opening.value.value.MakeOffer? { return Returned(CancelledIn(1, modelSelections)); }
    var buyerOffer := opening.value.value.price;
    for round := 1 to MAX_ROUNDS + 1
      invariant IsPrice(buyerOffer) && modelSelections <= 2 * round - 1
      invariant Evaluation(c, buyer, seller) == Rounds(c, buyer, seller, round, buyerOffer, modelSelections)
    {
      RoundUnfolds(c, buyer, seller, round, buyerOffer, modelSelections);
      x := SellerContext(c.reference, Terms(round, buyerOffer));
      var s, sellerModel := ChooseCandidate(seller, x, AtLeast(c.sellerMin));
      modelSelections := modelSelections + sellerModel;
      if s.value.None? { return Returned(CancelledIn(round, modelSelections)); }
      if s.value.value.Accept? { return Returned(SettledIn(s.value.value.price, round, modelSelections)); }
      ChosenIsPrice(seller, x, AtLeast(c.sellerMin));
      x := CounterContext(c.reference, round, s.value.value.price);
      var b, buyerModel := ChooseCandidate(buyer, x, AtMost(c.buyerMax));
      modelSelections := modelSelections + buyerModel;
      if b.value.None? { return Returned(CancelledIn(round, modelSelections)); }
      if b.value.value.Accept? { return Returned(SettledIn(b.value.value.price, round, modelSelections)); }
      ChosenIsPrice(buyer, x, AtMost(c.buyerMax));
      buyerOffer := b.value.value.price;
    }
    NoRoundsLeft(c, buyer, seller, buyerOffer, modelSelections);
    r := Returned(CancelledIn(MAX_ROUNDS, modelSelections));
  }

  // ---- The runtimes refine it ----

  /** With offset zero, three requests to a repeating provider choose what one request chooses. */
  lemma OneRequestIsEnough(o: Oracle, x: Context, policy: Policy)
    requires ValidContext(x) && x.reference.Some?
    ensures Reply(Repeating(o), x, policy, 0) == Choose(o, x, policy)
    ensures var choice := Choose(o, x, policy);
      choice.Some? ==> IsPrice(choice.value.price) && (choice.value.Accept? ==> x.current.Some?)
  {
    hide LadderShare;
    hide LocalFallback;
    var provider := Repeating(o);
    SameEveryRequest(provider, policy, x, 0, MAX_REQUESTS);
    SameEveryRequest(provider, policy, x, 0, 1);
    FirstAllowedSound(provider, policy, x, 0, 1);
    assert Normalize(x, policy, 0) == Some(Normalized(x, policy));
    FallbackIsAllowed(x, policy);
  }

  function Both(buyer: Oracle, seller: Oracle): Providers {
    Providers(Repeating(buyer), Repeating(seller))
  }

  predicate Declined(log: seq<Entry>) {
    exists e <- log :: e.payload.Decline?
  }

  /** The trace reaches the verdict: same outcome, and a settlement closes in the same round. */
  predicate Reaches(t: Trace, verdict: Verdict) {
    match verdict
    case CancelledIn(_, _) => t.outcome == Cancelled
    case SettledIn(amount, rounds, _) =>
      t.outcome == Settled(amount) && t.messages != [] &&
        t.messages[|t.messages| - 1].payload == Acceptance(rounds, amount)
  }

  /** Round by round: without a Seller decline the message-passing continuation reaches the loop's
      verdict, and when the loop settles there is no decline. */
  lemma {:induction false} RoundsAgree(c: Session, buyer: Oracle, seller: Oracle, terms: Terms, before: nat)
    requires c.offset == 0 && IsPrice(c.reference) && 1 <= terms.round <= MAX_ROUNDS && IsPrice(terms.price)
    ensures var t := SellerTurn(c, Both(buyer, seller), terms);
      var verdict := Rounds(c, buyer, seller, terms.round, terms.price, before);
      && t.messages != []
      && (!Declined(t.messages) ==> Reaches(t, verdict))
      && (verdict.SettledIn? ==> !Declined(t.messages))
    decreases MAX_ROUNDS - terms.round
  {
    hide Reply;
    hide Choose;
    hide Selected;
    var v := Both(buyer, seller);
    var x := SellerContext(c.reference, terms);
    OneRequestIsEnough(seller, x, AtLeast(c.sellerMin));
    var reply := Choose(seller, x, AtLeast(c.sellerMin));
    var answer := AnswerOf(terms, reply);
    var t := SellerTurn(c, v, terms);
    assert t == Prepend(Entry(Seller, answer), AfterAnswer(c, v, answer));
    assert t.messages[0] in t.messages;
    if answer.Proposal? {
      var y := CounterContext(c.reference, terms.round, answer.price);
      OneRequestIsEnough(buyer, y, AtMost(c.buyerMax));
      var move := Choose(buyer, y, AtMost(c.buyerMax));
      assert AfterAnswer(c, v, answer) == BuyerGoesOn(c, v, y, move);
      if move.Some? && move.value.MakeOffer? && terms.round < MAX_ROUNDS {
        var next := Terms(terms.round + 1, move.value.price);
        RoundsAgree(c, buyer, seller, next,
                    before + Selected(seller, x, AtLeast(c.sellerMin)) + Selected(buyer, y, AtMost(c.buyerMax)));
        var rest := SellerTurn(c, v, next).messages;
        assert t.messages == [Entry(Seller, answer), Entry(Buyer, Proposal(next.round, next.price))] + rest;
        DeclinedSplits([Entry(Seller, answer), Entry(Buyer, Proposal(next.round, next.price))], rest);
      }
    }
  }

  lemma DeclinedSplits(a: seq<Entry>, b: seq<Entry>)
    ensures Declined(a + b) <==> Declined(a) || Declined(b)
  {
    assert forall e :: e in a + b <==> e in a || e in b;
  }

  /** Refinement, over every order of events, for fixed providers and no offset. When the loop
      settles, the runtimes settle at the same price in the same round. More generally they reach
      the loop's verdict unless the Seller declines, which ends the loop but not the runtimes. */
  lemma RuntimesRefineTheLoop(c: Session, buyer: Oracle, seller: Oracle, ticks: seq<Tick>)
    requires ValidSession(c) && c.offset == 0
    requires Run(c, Schedule(ticks, Both(buyer, seller))).buyer.finished
    ensures var s := Run(c, Schedule(ticks, Both(buyer, seller)));
      var verdict := Evaluation(c, buyer, seller);
      && |s.buyer.outcomes| == 1
      && (!Declined(s.log) ==> Reaches(Trace(s.log, s.buyer.outcomes[0]), verdict))
      && (verdict.SettledIn? ==> !Declined(s.log) && Reaches(Trace(s.log, s.buyer.outcomes[0]), verdict))
  {
    hide Reply;
    hide Choose;
    hide Selected;
    var v := Both(buyer, seller);
    RunsFollowPlay(c, v, ticks);
    var x := OpeningContext(c.reference, 1);
    OneRequestIsEnough(buyer, x, AtMost(c.buyerMax));
    var move := Choose(buyer, x, AtMost(c.buyerMax));
    assert Script(c, v) == BuyerGoesOn(c, v, x, move);
    if move.Some? && move.value.MakeOffer? {
      var terms := Terms(1, move.value.price);
      RoundsAgree(c, buyer, seller, terms, Selected(buyer, x, AtMost(c.buyerMax)));
      var first := [Entry(Buyer, Proposal(1, move.value.price))];
      DeclinedSplits(first, SellerTurn(c, v, terms).messages);
    }
  }
}
