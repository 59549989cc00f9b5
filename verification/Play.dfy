/** The negotiation as one sequential computation, for providers that are fixed functions. Every
    asynchronous run follows it, whatever the order of events. */
module Play {
  import opened Pricing
  import opened Runtimes
  import opened Bargain

  datatype Providers = Providers(buyer: Provider, seller: Provider)

  /** The remaining messages of a negotiation and its outcome. */
  datatype Trace = Trace(messages: seq<Entry>, outcome: Outcome)

  function Prepend(e: Entry, t: Trace): Trace {
    Trace([e] + t.messages, t.outcome)
  }

  /** The Buyer answers a context. */
  function BuyerTurn(c: Session, v: Providers, x: Context): Trace
    requires x.role == Buyer && 1 <= x.round <= MAX_ROUNDS
    decreases MAX_ROUNDS + 1 - NextOfferRound(x), 3
  {
    BuyerGoesOn(c, v, x, Reply(v.buyer, x, AtMost(c.buyerMax), c.offset))
  }

  function BuyerGoesOn(c: Session, v: Providers, x: Context, reply: Option<Candidate>): Trace
    requires x.role == Buyer && 1 <= x.round <= MAX_ROUNDS
    decreases MAX_ROUNDS + 1 - NextOfferRound(x), 2
  {
    if reply.None? then Trace([], Cancelled)
    else if reply.value.Accept? then
      Trace([Entry(Buyer, Acceptance(x.round, reply.value.price))], Settled(reply.value.price))
    else
      var round := NextOfferRound(x);
      if MAX_ROUNDS < round then Trace([], Cancelled)
      else Prepend(Entry(Buyer, Proposal(round, reply.value.price)), SellerTurn(c, v, Terms(round, reply.value.price)))
  }

  /** The Seller answers a Buyer offer, and the Buyer goes on. */
  function SellerTurn(c: Session, v: Providers, terms: Terms): Trace
    requires 1 <= terms.round <= MAX_ROUNDS
    decreases MAX_ROUNDS + 1 - terms.round, 1
  {
    var answer := AnswerOf(terms, Reply(v.seller, SellerContext(c.reference, terms), AtLeast(c.sellerMin), c.offset));
    Prepend(Entry(Seller, answer), AfterAnswer(c, v, answer))
  }

  /** What the Buyer makes of the Seller's answer. */
  function AfterAnswer(c: Session, v: Providers, answer: Payload): Trace
    requires !answer.PriceOpening? && 1 <= answer.round <= MAX_ROUNDS
    decreases MAX_ROUNDS - answer.round, 4
  {
    match answer
    case Acceptance(_, price) => Trace([], Settled(price))
    case Decline(round) =>
      if MAX_ROUNDS <= round then Trace([], Cancelled) else BuyerTurn(c, v, OpeningContext(c.reference, round + 1))
    case Proposal(round, price) => BuyerTurn(c, v, CounterContext(c.reference, round, price))
  }

  function Script(c: Session, v: Providers): Trace {
    BuyerTurn(c, v, OpeningContext(c.reference, 1))
  }

  // ---- Every run follows it ----

  datatype Tick = Fire | BuyerAnswers | SellerAnswers | PassToSeller | PassToBuyer

  function Instance(tick: Tick, v: Providers): Event {
    match tick
    case Fire => Timer
    case BuyerAnswers => BuyerReply(0, v.buyer)
    case SellerAnswers => SellerReply(0, v.seller)
    case PassToSeller => ToSeller
    case PassToBuyer => ToBuyer
  }

  function Schedule(ticks: seq<Tick>, v: Providers): seq<Event> {
    seq(|ticks|, i requires 0 <= i < |ticks| => Instance(ticks[i], v))
  }

  /** What is still to come from a state with the token at `t`. */
  function Future(c: Session, v: Providers, s: System, t: Token): Trace
    requires TokenRounds(t) && (t.Done? ==> s.buyer.outcomes != [])
  {
    match t
    case AtTimer => Script(c, v)
    case BuyerThinks(x) => BuyerTurn(c, v, x)
    case Travelling(p) => SellerTurn(c, v, Terms(p.round, p.price))
    case SellerThinks(terms) => SellerTurn(c, v, terms)
    case Returning(p) => AfterAnswer(c, v, p)
    case Done => Trace([], s.buyer.outcomes[0])
  }

  predicate TokenRounds(t: Token) {
    match t
    case AtTimer => true
    case BuyerThinks(x) => x.role == Buyer && 1 <= x.round <= MAX_ROUNDS
    case Travelling(p) => p.Proposal? && 1 <= p.round <= MAX_ROUNDS
    case SellerThinks(terms) => 1 <= terms.round <= MAX_ROUNDS
    case Returning(p) => !p.PriceOpening? && 1 <= p.round <= MAX_ROUNDS
    case Done => true
  }

  /** Past and future together never change: the log plus what is still to come is the script. */
  ghost predicate Follows(c: Session, v: Providers, s: System, t: Token) {
    && Inv(c, s) && TokenAt(c, s, t) && TokenRounds(t) && (t.Done? ==> s.buyer.outcomes != [])
    && var future := Future(c, v, s, t);
       s.log + future.messages == Script(c, v).messages && future.outcome == Script(c, v).outcome
  }

  /** What the Buyer sends now, and what then follows, is its turn. */
  lemma BuyerSendsItsTurn(c: Session, v: Providers, s: System, x: Context, reply: Option<Candidate>)
    requires Inv(c, s) && TokenAt(c, s, BuyerThinks(x))
    ensures var effect := BuyerExecute(s.buyer.(pending := []), x, reply);
      var t' := TokenAfterBuyer(x, reply);
      && TokenRounds(t') && (t'.Done? ==> effect.state.outcomes != [])
      && var future := Future(c, v, BuyerSends(s, effect), t');
         && Logged(effect.sends) + future.messages == BuyerGoesOn(c, v, x, reply).messages
         && future.outcome == BuyerGoesOn(c, v, x, reply).outcome
  {
    hide Reply;
    var effect := BuyerExecute(s.buyer.(pending := []), x, reply);
    if effect.sends == [] {
      assert Logged(effect.sends) == [];
    } else {
      assert Logged(effect.sends) == [Entry(Buyer, effect.sends[0].payload)];
    }
  }

  lemma SellerSendsItsTurn(s: SellerState, x: Context, terms: Terms, reply: Option<Candidate>)
    requires s.room.Some? && s.offset.Some? && x.round == terms.round
    ensures Logged(SellerExecute(s, x, reply).sends) == [Entry(Seller, AnswerOf(terms, reply))]
  {}

  lemma BuyerAnswerFollows(c: Session, v: Providers, s: System, x: Context) returns (t': Token)
    requires Follows(c, v, s, BuyerThinks(x)) && Enabled(s, BuyerReply(0, v.buyer))
    ensures Follows(c, v, Next(c, s, BuyerReply(0, v.buyer)), t')
  {
    hide Inv;
    hide TokenAt;
    hide Next;
    hide Script;
    hide BuyerExecute;
    hide BuyerGoesOn;
    hide SellerTurn;
    hide AfterAnswer;
    hide Reply;
    BuyerReplyKeeps(c, s, BuyerThinks(x), 0, v.buyer);
    var reply := Reply(v.buyer, x, AtMost(c.buyerMax), c.offset);
    var effect := BuyerExecute(s.buyer.(pending := []), x, reply);
    t' := TokenAfterBuyer(x, reply);
    BuyerSendsItsTurn(c, v, s, x, reply);
    var future := Future(c, v, BuyerSends(s, effect), t');
    assert (s.log + Logged(effect.sends)) + future.messages == s.log + (Logged(effect.sends) + future.messages);
  }

  lemma SellerCanAnswer(c: Session, s: System, terms: Terms)
    requires Inv(c, s) && TokenAt(c, s, SellerThinks(terms))
    ensures s.seller.room.Some? && s.seller.offset.Some? && s.seller.pending == [terms] &&
      1 <= terms.round <= MAX_ROUNDS
  {}

  lemma SellerAnswerFollows(c: Session, v: Providers, s: System, terms: Terms) returns (t': Token)
    requires Follows(c, v, s, SellerThinks(terms)) && Enabled(s, SellerReply(0, v.seller))
    ensures Follows(c, v, Next(c, s, SellerReply(0, v.seller)), t')
  {
    hide Inv;
    hide TokenAt;
    hide Next;
    hide Script;
    hide SellerExecute;
    hide BuyerTurn;
    hide AfterAnswer;
    hide Reply;
    SellerReplyKeeps(c, s, SellerThinks(terms), 0, v.seller);
    var x := SellerContext(c.reference, terms);
    var reply := Reply(v.seller, x, AtLeast(c.sellerMin), c.offset);
    t' := Returning(AnswerOf(terms, reply));
    SellerCanAnswer(c, s, terms);
    SellerSendsItsTurn(s.seller.(pending := []), x, terms, reply);
    var future := AfterAnswer(c, v, t'.payload);
    assert (s.log + [Entry(Seller, t'.payload)]) + future.messages ==
      s.log + ([Entry(Seller, t'.payload)] + future.messages);
  }

  /** A delivery moves the token without sending anything. */
  lemma PassFollows(c: Session, v: Providers, s: System, t: Token, tick: Tick) returns (t': Token)
    requires Follows(c, v, s, t) && Enabled(s, Instance(tick, v))
    requires tick.Fire? || tick.PassToSeller? || tick.PassToBuyer?
    ensures Follows(c, v, Next(c, s, Instance(tick, v)), t')
  {
    hide Inv;
    hide TokenAt;
    hide Reply;
    hide SellerTurn;
    hide BuyerTurn;
    hide BuyerTimer;
    hide BuyerAccepts;
    hide SellerAccepts;
    match tick
    case Fire =>
      TimerKeeps(c, s);
      OneToken(c, s, t, AtTimer);
      t' := BuyerThinks(OpeningContext(c.reference, 1));
    case PassToSeller =>
      ToSellerKeeps(c, s, t);
      t' := if t.Done? then Done else SellerThinks(Terms(t.payload.round, t.payload.price));
    case PassToBuyer =>
      ToBuyerKeeps(c, s, t);
      AnswersHaveRounds(c, s, t.payload);
      t' := TokenAfterAnswer(c, t.payload);
  }

  lemma AnswersHaveRounds(c: Session, s: System, p: Payload)
    requires AnswerFits(c, s, p)
    ensures !p.PriceOpening? && 1 <= p.round <= MAX_ROUNDS
  {}

  lemma OneToken(c: Session, s: System, t: Token, u: Token)
    requires Inv(c, s) && TokenAt(c, s, t) && TokenAt(c, s, u)
    ensures t == u
  {}

  lemma TickFollows(c: Session, v: Providers, s: System, t: Token, tick: Tick) returns (t': Token)
    requires Follows(c, v, s, t)
    ensures Follows(c, v, Next(c, s, Instance(tick, v)), t')
  {
    if !Enabled(s, Instance(tick, v)) {
      t' := t;
    } else if tick.BuyerAnswers? {
      t' := BuyerAnswerFollows(c, v, s, t.context);
    } else if tick.SellerAnswers? {
      t' := SellerAnswerFollows(c, v, s, t.terms);
    } else {
      t' := PassFollows(c, v, s, t, tick);
    }
  }

  lemma {:induction false} RunFollows(c: Session, v: Providers, ticks: seq<Tick>) returns (t: Token)
    requires ValidSession(c)
    ensures Follows(c, v, Run(c, Schedule(ticks, v)), t)
  {
    hide BuyerTurn;
    hide Next;
    hide Script;
    if ticks == [] {
      ReadyInv(c);
      t := AtTimer;
    } else {
      var init, last := ticks[..|ticks| - 1], ticks[|ticks| - 1];
      var before := RunFollows(c, v, init);
      assert Schedule(ticks, v)[..|ticks| - 1] == Schedule(init, v);
      t := TickFollows(c, v, Run(c, Schedule(init, v)), before, last);
    }
  }

  /** The order of events does not matter: every run of fixed providers sends a prefix of the script,
      and once finished it has sent all of it and published its outcome. */
  lemma RunsFollowPlay(c: Session, v: Providers, ticks: seq<Tick>)
    requires ValidSession(c)
    ensures var s := Run(c, Schedule(ticks, v));
      && s.log <= Script(c, v).messages
      && (s.buyer.finished ==> s.log == Script(c, v).messages && s.buyer.outcomes == [Script(c, v).outcome])
  {
    var t := RunFollows(c, v, ticks);
    var s := Run(c, Schedule(ticks, v));
    SingleToken(c, s);
  }

  function DueTick(s: System): Tick {
    if s.buyer.timer then Fire
    else if s.buyer.pending != [] then BuyerAnswers
    else if s.seller.pending != [] then SellerAnswers
    else if s.toSeller != [] then PassToSeller
    else PassToBuyer
  }

  /** Every schedule can be continued until the outcome of the script is published. */
  lemma {:induction false} PlayIsReached(c: Session, v: Providers, ticks: seq<Tick>) returns (more: seq<Tick>)
    requires ValidSession(c)
    ensures var s := Run(c, Schedule(ticks + more, v));
      s.log == Script(c, v).messages && s.buyer.outcomes == [Script(c, v).outcome]
    decreases Weight(Run(c, Schedule(ticks, v)))
  {
    hide Inv;
    hide Next;
    hide Script;
    hide Ready;
    var s := Run(c, Schedule(ticks, v));
    RunKeeps(c, Schedule(ticks, v));
    if s.buyer.finished {
      more := [];
      assert ticks + more == ticks;
      RunsFollowPlay(c, v, ticks);
    } else {
      var tick := DueTick(s);
      NeverStuck(c, s, v.buyer, v.seller);
      EventsUseWeight(c, s, Instance(tick, v));
      assert Schedule(ticks + [tick], v)[..|ticks|] == Schedule(ticks, v);
      var rest := PlayIsReached(c, v, ticks + [tick]);
      more := [tick] + rest;
      assert ticks + more == ticks + [tick] + rest;
    }
  }
}
