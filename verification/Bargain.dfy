/** Buyer and Seller runtimes joined by a first-in first-out relay. A run is any sequence of events;
    providers are arbitrary and may differ from event to event. */
module Bargain {
  import opened Pricing
  import opened Ladder
  import opened Commitments
  import opened Runtimes

  /** What a session is set up with. Both limits are positive amounts of at most 19 digits. */
  datatype Session = Session(room: Room, reference: int, offset: int, buyerMax: int, sellerMin: int)

  const MAX_LIMIT: int := 9_999_999_999_999_999_999

  predicate ValidSession(c: Session) {
    ValidOffset(c.reference, c.offset) && 1 <= c.buyerMax <= MAX_LIMIT && 1 <= c.sellerMin <= MAX_LIMIT
  }

  datatype Entry = Entry(sender: Role, payload: Payload)

  /** `log` is the history of negotiation messages, oldest first; `openingSent` says that the Buyer has
      already sent its price opening. */
  datatype System = System(
    buyer: BuyerState, seller: SellerState, toSeller: seq<Packet>, toBuyer: seq<Packet>, log: seq<Entry>,
    openingSent: bool)

  datatype Event =
    | Timer
    | BuyerReply(index: nat, provider: Provider)
    | SellerReply(index: nat, provider: Provider)
    | ToSeller
    | ToBuyer
    | Open(randomness: Bytes32)

  /** Both parties have joined, locked a limit, agreed on a key and been told to start. */
  function Ready(c: Session): System {
    var b := BuyerSetLimit(BuyerJoin(FRESH_BUYER, c.room), c.room, c.buyerMax);
    var s := SellerSetLimit(SellerJoin(FRESH_SELLER, c.room), c.room, c.sellerMin);
    System(BuyerStart(BuyerPeerReady(BuyerPeerKey(b, c.room, c.offset), c.room)),
           SellerPeerReady(SellerPeerKey(s, c.room, c.offset), c.room), [], [], [], false)
  }

  function Logged(sends: seq<Packet>): seq<Entry> {
    seq(|sends|, i requires 0 <= i < |sends| => Entry(sends[i].sender, sends[i].payload))
  }

  /** The Buyer may open its price once, after it has published a settlement. */
  predicate MayOpen(s: System) {
    !s.openingSent && s.buyer.outcomes != [] && s.buyer.outcomes[0].Settled? && s.buyer.room.Some? &&
      s.buyer.offset.Some?
  }

  predicate Enabled(s: System, e: Event) {
    match e
    case Timer => s.buyer.timer
    case BuyerReply(i, _) => i < |s.buyer.pending|
    case SellerReply(i, _) => i < |s.seller.pending|
    case ToSeller => s.toSeller != []
    case ToBuyer => s.toBuyer != []
    case Open(_) => MayOpen(s)
  }

  function Next(c: Session, s: System, e: Event): System {
    if !Enabled(s, e) then s
    else match e
      case Timer => s.(buyer := BuyerTimer(s.buyer, c.reference))
      case BuyerReply(i, provider) =>
        BuyerSends(s, BuyerReplies(s.buyer, i, provider))
      case SellerReply(i, provider) =>
        SellerSends(s, SellerReplies(s.seller, c.reference, i, provider))
      case ToSeller => s.(seller := SellerAccepts(s.seller, s.toSeller[0]), toSeller := s.toSeller[1..])
      case ToBuyer => s.(buyer := BuyerAccepts(s.buyer, c.reference, s.toBuyer[0]), toBuyer := s.toBuyer[1..])
      case Open(randomness) =>
        var effect := BuyerRelay(s.buyer, PriceOpening(s.buyer.outcomes[0].amount, randomness));
        s.(buyer := effect.state, toSeller := s.toSeller + effect.sends, openingSent := true)
  }

  function Run(c: Session, events: seq<Event>): System {
    if events == [] then Ready(c) else Next(c, Run(c, events[..|events| - 1]), events[|events| - 1])
  }

  // ---- The invariant ----

  /** A price the Buyer has offered for a round. */
  predicate BuyerOffered(c: Session, terms: Terms) {
    && 1 <= terms.round <= MAX_ROUNDS
    && OnIncrement(terms.price) && IsPrice(terms.price - c.offset) && terms.price <= c.buyerMax
    && LadderPrice(Buyer, c.reference, terms.round).Some?
    && terms.price - c.offset <= LadderPrice(Buyer, c.reference, terms.round).value
  }

  predicate SellerOffered(c: Session, terms: Terms) {
    && 1 <= terms.round <= MAX_ROUNDS
    && OnIncrement(terms.price) && IsPrice(terms.price - c.offset) && c.sellerMin <= terms.price
    && LadderPrice(Seller, c.reference, terms.round).Some?
    && LadderPrice(Seller, c.reference, terms.round).value <= terms.price - c.offset
  }

  /** A price both sides have agreed to in a round. */
  predicate Agreed(c: Session, terms: Terms) {
    && OnIncrement(terms.price) && c.sellerMin <= terms.price <= c.buyerMax
    && Closable(c.reference, terms.round, terms.price - c.offset)
  }

  predicate BuyerStatic(c: Session, b: BuyerState) {
    && b.room == Some(c.room) && b.limit == Some(c.buyerMax) && b.offset == Some(c.offset)
    && b.peerReady && b.started && b.faults == 0
  }

  predicate SellerStatic(c: Session, s: SellerState) {
    && s.room == Some(c.room) && s.limit == Some(c.sellerMin) && s.offset == Some(c.offset)
    && s.peerReady && s.faults == 0
  }

  /** Packets in flight carry consecutive sequence numbers, just above what the peer has received. */
  predicate Wire(c: Session, queue: seq<Packet>, sender: Role, sent: nat, received: nat) {
    && sent == received + |queue|
    && forall i :: 0 <= i < |queue| ==>
         queue[i].room == c.room && queue[i].sender == sender && queue[i].sequence == received + 1 + i &&
           WellFormed(queue[i].payload)
  }

  /** Where the one negotiation token is. */
  datatype Token =
    | AtTimer
    | BuyerThinks(context: Context)
    | Travelling(payload: Payload)
    | SellerThinks(terms: Terms)
    | Returning(payload: Payload)
    | Done

  /** The offer a Buyer context replies to has been made, and the rounds are in step. */
  predicate BuyerAsked(c: Session, s: System, x: Context) {
    && x.role == Buyer && x.reference == Some(c.reference) && 1 <= x.round <= MAX_ROUNDS
    && (if x.current.None? then
          if x.round == 1 then s.buyer.lastSent.None?
          else s.buyer.lastSent.Some? && s.buyer.lastSent.value.round == x.round - 1
        else
          && x.current.value.maker == Seller
          && s.seller.lastSent == Some(Terms(x.round, x.current.value.price))
          && s.buyer.lastSent.Some? && s.buyer.lastSent.value.round == x.round
          && SellerOffered(c, Terms(x.round, x.current.value.price)))
    && |s.log| == 2 * (NextOfferRound(x) - 1)
  }

  predicate AnswerFits(c: Session, s: System, p: Payload) {
    && s.buyer.lastSent.Some? && !p.PriceOpening? && p.round == s.buyer.lastSent.value.round &&
      1 <= p.round <= MAX_ROUNDS
    && |s.log| == 2 * p.round
    && (match p
        case Proposal(round, price) =>
          s.seller.lastSent == Some(Terms(round, price)) && SellerOffered(c, Terms(round, price)) &&
          s.seller.agreed.None?
        case Acceptance(round, price) =>
          && s.buyer.lastSent == Some(Terms(round, price)) && Agreed(c, Terms(round, price))
          && s.seller.agreed == Some(price) && s.log[|s.log| - 1].payload == p
        case Decline(_) => s.seller.agreed.None?
        case PriceOpening(_, _) => false)
  }

  /** After the outcome: the Seller knows the settled price, or an acceptance that will tell it is
      still first in line; a price opening comes last. */
  ghost predicate Finished(c: Session, s: System) {
    && s.buyer.finished && s.toBuyer == []
    && |s.buyer.outcomes| == 1
    && match s.buyer.outcomes[0]
       case Cancelled => s.toSeller == [] && s.seller.agreed.None? && s.seller.operations == [] && !s.openingSent
       case Settled(price) => exists round :: SettledIn(c, s, Terms(round, price))
  }

  predicate SettledIn(c: Session, s: System, terms: Terms) {
    var waiting := s.seller.agreed.None?;
    var rest := if waiting && s.toSeller != [] then s.toSeller[1..] else s.toSeller;
    && Agreed(c, terms)
    && s.log != [] && s.log[|s.log| - 1].payload == Acceptance(terms.round, terms.price)
    && (if waiting then
          s.toSeller != [] && s.toSeller[0].payload == Acceptance(terms.round, terms.price) &&
            s.seller.lastSent == Some(terms)
        else s.seller.agreed == Some(terms.price))
    && (waiting ==> s.seller.operations == [])
    && |s.seller.operations| + |rest| == (if s.openingSent then 1 else 0)
    && (forall p <- rest :: p.payload.PriceOpening? && p.payload.price == terms.price)
    && (forall o <- s.seller.operations :: o.SettleOnChain? && o.price == terms.price)
  }

  ghost predicate TokenAt(c: Session, s: System, t: Token) {
    && s.buyer.timer == t.AtTimer?
    && s.buyer.pending == (if t.BuyerThinks? then [t.context] else [])
    && s.seller.pending == (if t.SellerThinks? then [t.terms] else [])
    && (t.Done? ==> Finished(c, s))
    && (!t.Done? ==>
          && !s.buyer.finished && s.buyer.outcomes == [] && s.seller.operations == [] && !s.openingSent
          && (if t.Travelling? then |s.toSeller| == 1 && s.toSeller[0].payload == t.payload else s.toSeller == [])
          && (if t.Returning? then |s.toBuyer| == 1 && s.toBuyer[0].payload == t.payload else s.toBuyer == []))
    && match t
       case AtTimer => s.buyer.lastSent.None? && s.seller.agreed.None? && s.log == []
       case BuyerThinks(x) => BuyerAsked(c, s, x) && s.seller.agreed.None?
       case Travelling(p) => p.Proposal? && SellerAsked(c, s, Terms(p.round, p.price))
       case SellerThinks(terms) => SellerAsked(c, s, terms)
       case Returning(p) => AnswerFits(c, s, p)
       case Done => true
  }

  predicate SellerAsked(c: Session, s: System, terms: Terms) {
    && s.buyer.lastSent == Some(terms) && BuyerOffered(c, terms) && s.seller.agreed.None?
    && |s.log| == 2 * terms.round - 1 && s.log[|s.log| - 1].payload == Proposal(terms.round, terms.price)
  }

  /** Messages alternate: the k-th belongs to round k/2 + 1, except the Buyer's final acceptance. */
  predicate LogFits(log: seq<Entry>) {
    && |log| <= 2 * MAX_ROUNDS + 1
    && forall k :: 0 <= k < |log| ==> EntryFits(log, k)
  }

  predicate EntryFits(log: seq<Entry>, k: nat)
    requires k < |log|
  {
    var e := log[k];
    && !e.payload.PriceOpening?
    && (if k % 2 == 0 then
          && e.sender == Buyer && !e.payload.Decline?
          && (e.payload.Proposal? ==> e.payload.round == k / 2 + 1)
          && (e.payload.Acceptance? ==> e.payload.round == k / 2 && k == |log| - 1)
        else e.sender == Seller && e.payload.round == k / 2 + 1)
  }

  ghost predicate Inv(c: Session, s: System) {
    && ValidSession(c)
    && BuyerStatic(c, s.buyer) && SellerStatic(c, s.seller)
    && Wire(c, s.toSeller, Buyer, s.buyer.sent, s.seller.received)
    && Wire(c, s.toBuyer, Seller, s.seller.sent, s.buyer.received)
    && LogFits(s.log)
    && exists t :: TokenAt(c, s, t)
  }

  // ---- Preservation ----

  lemma ReadyInv(c: Session)
    requires ValidSession(c)
    ensures Inv(c, Ready(c))
  {
    assert TokenAt(c, Ready(c), AtTimer);
  }

  lemma TimerKeeps(c: Session, s: System)
    requires Inv(c, s) && s.buyer.timer
    ensures Inv(c, Next(c, s, Timer))
    ensures TokenAt(c, s, AtTimer) && TokenAt(c, Next(c, s, Timer), BuyerThinks(OpeningContext(c.reference, 1)))
  {
    hide Agreed;
    hide BuyerOffered;
    hide SellerOffered;
    hide LogFits;
    var s' := Next(c, s, Timer);
    assert TokenAt(c, s, AtTimer);
    assert TokenAt(c, s', BuyerThinks(OpeningContext(c.reference, 1)));
  }

  lemma ToSellerKeeps(c: Session, s: System, t: Token)
    requires Inv(c, s) && TokenAt(c, s, t) && s.toSeller != []
    ensures Inv(c, Next(c, s, ToSeller))
    ensures t.Done? || t == Travelling(s.toSeller[0].payload)
    ensures TokenAt(c, Next(c, s, ToSeller),
                    if t.Done? then Done else SellerThinks(Terms(t.payload.round, t.payload.price)))
  {
    hide AnswerFits;
    hide BuyerAsked;
    hide Agreed;
    hide BuyerOffered;
    hide SellerOffered;
    hide LogFits;
    var s' := Next(c, s, ToSeller);
    var p := s.toSeller[0].payload;
    if t.Done? {
      var round :| SettledIn(c, s, Terms(round, s.buyer.outcomes[0].amount));
      assert SettledIn(c, s', Terms(round, s.buyer.outcomes[0].amount));
      assert TokenAt(c, s', Done);
    } else {
      assert TokenAt(c, s', SellerThinks(Terms(p.round, p.price)));
    }
  }

  function TokenAfterAnswer(c: Session, p: Payload): Token {
    match p
    case Proposal(round, price) => BuyerThinks(CounterContext(c.reference, round, price))
    case Decline(round) => if MAX_ROUNDS <= round then Done else BuyerThinks(OpeningContext(c.reference, round + 1))
    case _ => Done
  }

  lemma ToBuyerKeeps(c: Session, s: System, t: Token)
    requires Inv(c, s) && TokenAt(c, s, t) && s.toBuyer != []
    ensures Inv(c, Next(c, s, ToBuyer))
    ensures t == Returning(s.toBuyer[0].payload) && AnswerFits(c, s, t.payload)
    ensures TokenAt(c, Next(c, s, ToBuyer), TokenAfterAnswer(c, t.payload))
    ensures t.payload.Acceptance? ==> Next(c, s, ToBuyer).buyer.outcomes == [Settled(t.payload.price)]
    ensures t.payload.Decline? && MAX_ROUNDS <= t.payload.round ==> Next(c, s, ToBuyer).buyer.outcomes == [Cancelled]
  {
    hide Agreed;
    hide BuyerOffered;
    hide LogFits;
    hide LadderPrice;
    var s' := Next(c, s, ToBuyer);
    var p := s.toBuyer[0].payload;
    if p.Acceptance? { assert SettledIn(c, s', Terms(p.round, p.price)); }
    assert TokenAt(c, s', TokenAfterAnswer(c, p));
  }

  lemma OpenKeeps(c: Session, s: System, randomness: Bytes32)
    requires Inv(c, s) && MayOpen(s)
    ensures Inv(c, Next(c, s, Open(randomness)))
  {
    hide Closable;
    hide BuyerOffered;
    hide SellerOffered;
    hide LogFits;
    var s' := Next(c, s, Open(randomness));
    var t :| TokenAt(c, s, t);
    assert t.Done?;
    var price := s.buyer.outcomes[0].amount;
    var round :| SettledIn(c, s, Terms(round, price));
    assert SettledIn(c, s', Terms(round, price));
    assert TokenAt(c, s', Done);
  }

  function BuyerSends(s: System, effect: BuyerEffect): System {
    s.(buyer := effect.state, toSeller := s.toSeller + effect.sends, log := s.log + Logged(effect.sends))
  }

  function SellerSends(s: System, effect: SellerEffect): System {
    s.(seller := effect.state, toBuyer := s.toBuyer + effect.sends, log := s.log + Logged(effect.sends))
  }

  lemma LogGrows(log: seq<Entry>, sends: seq<Packet>)
    requires LogFits(log) && |sends| <= 1
    requires |log| % 2 == 1 ==> log[|log| - 1].payload.Proposal?
    requires sends != [] ==> |log| <= 2 * MAX_ROUNDS && EntryFits(log + Logged(sends), |log|)
    ensures LogFits(log + Logged(sends))
  {
    var all := log + Logged(sends);
    forall k | 0 <= k < |all| ensures EntryFits(all, k) {
      if k < |log| { assert EntryFits(log, k) && all[k] == log[k]; }
    }
  }

  function TokenAfterBuyer(x: Context, reply: Option<Candidate>): Token {
    if reply.None? || reply.value.Accept? || MAX_ROUNDS < NextOfferRound(x) then Done
    else Travelling(Proposal(NextOfferRound(x), reply.value.price))
  }

  function AnswerOf(terms: Terms, reply: Option<Candidate>): Payload {
    if reply.None? then Decline(terms.round)
    else if reply.value.Accept? then Acceptance(terms.round, reply.value.price)
    else Proposal(terms.round, reply.value.price)
  }

  lemma BuyerMayAccept(c: Session, s: System, x: Context, accept: Candidate)
    requires ValidSession(c) && BuyerAsked(c, s, x) && accept.Accept?
    requires Permitted(x, AtMost(c.buyerMax), c.offset, accept)
    ensures x.current.Some? && Agreed(c, Terms(x.round, accept.price)) &&
      s.seller.lastSent == Some(Terms(x.round, accept.price))
  {
    hide LadderShare;
    var round := NextOfferRound(x);
    LadderIsRounded(c.reference, if round < MAX_ROUNDS then round else MAX_ROUNDS);
  }

  lemma BuyerMayOffer(c: Session, s: System, x: Context, offer: Candidate)
    requires ValidSession(c) && BuyerAsked(c, s, x) && offer.MakeOffer? && NextOfferRound(x) <= MAX_ROUNDS
    requires Permitted(x, AtMost(c.buyerMax), c.offset, offer)
    ensures BuyerOffered(c, Terms(NextOfferRound(x), offer.price))
  {
    hide LadderShare;
  }

  /** Carrying out any permitted candidate, or none, keeps the invariant. */
  lemma BuyerExecuteKeeps(c: Session, s: System, x: Context, reply: Option<Candidate>)
    requires Inv(c, s) && TokenAt(c, s, BuyerThinks(x))
    requires reply.Some? ==> Permitted(x, AtMost(c.buyerMax), c.offset, reply.value)
    ensures Inv(c, BuyerSends(s, BuyerExecute(s.buyer.(pending := []), x, reply)))
    ensures TokenAt(c, BuyerSends(s, BuyerExecute(s.buyer.(pending := []), x, reply)), TokenAfterBuyer(x, reply))
  {
    hide LadderPrice;
    hide Permitted;
    hide Closable;
    hide EntryFits;
    if reply.Some? {
      if reply.value.Accept? { BuyerMayAccept(c, s, x, reply.value); }
      else if NextOfferRound(x) <= MAX_ROUNDS { BuyerMayOffer(c, s, x, reply.value); }
    }
    LogGrows(s.log, BuyerExecute(s.buyer.(pending := []), x, reply).sends);
    var s' := BuyerSends(s, BuyerExecute(s.buyer.(pending := []), x, reply));
    if reply.Some? && reply.value.Accept? { assert SettledIn(c, s', Terms(x.round, reply.value.price)); }
    assert TokenAt(c, s', TokenAfterBuyer(x, reply));
  }

  lemma SellerMayAnswer(c: Session, s: System, terms: Terms, reply: Candidate)
    requires ValidSession(c) && SellerAsked(c, s, terms)
    requires Permitted(SellerContext(c.reference, terms), AtLeast(c.sellerMin), c.offset, reply)
    ensures reply.Accept? ==> reply.price == terms.price && Agreed(c, terms)
    ensures reply.MakeOffer? ==> SellerOffered(c, Terms(terms.round, reply.price))
  {
    hide LadderShare;
    hide Closable;
    if reply.Accept? { SellerMayAccept(c, terms); }
  }

  lemma SellerExecuteKeeps(c: Session, s: System, terms: Terms, reply: Option<Candidate>)
    requires Inv(c, s) && TokenAt(c, s, SellerThinks(terms))
    requires reply.Some? ==> Permitted(SellerContext(c.reference, terms), AtLeast(c.sellerMin), c.offset, reply.value)
    ensures Inv(c, SellerSends(s, SellerExecute(s.seller.(pending := []), SellerContext(c.reference, terms), reply)))
    ensures TokenAt(
      c, SellerSends(s, SellerExecute(s.seller.(pending := []), SellerContext(c.reference, terms), reply)),
      Returning(AnswerOf(terms, reply)))
  {
    hide LadderPrice;
    hide Permitted;
    hide Closable;
    if reply.Some? { SellerMayAnswer(c, s, terms, reply.value); }
    LogGrows(s.log, SellerExecute(s.seller.(pending := []), SellerContext(c.reference, terms), reply).sends);
    var s' := SellerSends(s, SellerExecute(s.seller.(pending := []), SellerContext(c.reference, terms), reply));
    assert TokenAt(c, s', Returning(AnswerOf(terms, reply)));
  }

  lemma BuyerReplyKeeps(c: Session, s: System, t: Token, index: nat, provider: Provider)
    requires Inv(c, s) && TokenAt(c, s, t) && index < |s.buyer.pending|
    ensures t == BuyerThinks(s.buyer.pending[0])
    ensures var reply := Reply(provider, t.context, AtMost(c.buyerMax), c.offset);
      && Next(c, s, BuyerReply(index, provider)) ==
        BuyerSends(s, BuyerExecute(s.buyer.(pending := []), t.context, reply))
      && TokenAt(c, Next(c, s, BuyerReply(index, provider)), TokenAfterBuyer(t.context, reply))
    ensures Inv(c, Next(c, s, BuyerReply(index, provider)))
  {
    hide Agreed;
    hide LogFits;
    hide BuyerExecute;
    hide Reply;
    hide Permitted;
    hide Wire;
    var x := s.buyer.pending[0];
    ReplyIsPermitted(provider, x, AtMost(c.buyerMax), c.offset);
    BuyerExecuteKeeps(c, s, x, Reply(provider, x, AtMost(c.buyerMax), c.offset));
    assert s.buyer.pending[..0] + s.buyer.pending[1..] == [];
  }

  lemma SellerReplyKeeps(c: Session, s: System, t: Token, index: nat, provider: Provider)
    requires Inv(c, s) && TokenAt(c, s, t) && index < |s.seller.pending|
    ensures t == SellerThinks(s.seller.pending[0])
    ensures var x := SellerContext(c.reference, t.terms);
      var reply := Reply(provider, x, AtLeast(c.sellerMin), c.offset);
      && Next(c, s, SellerReply(index, provider)) == SellerSends(s, SellerExecute(s.seller.(pending := []), x, reply))
      && TokenAt(c, Next(c, s, SellerReply(index, provider)), Returning(AnswerOf(t.terms, reply)))
    ensures Inv(c, Next(c, s, SellerReply(index, provider)))
  {
    hide Agreed;
    hide LogFits;
    hide SellerExecute;
    hide Reply;
    hide Permitted;
    hide Wire;
    var terms := s.seller.pending[0];
    var x := SellerContext(c.reference, terms);
    ReplyIsPermitted(provider, x, AtLeast(c.sellerMin), c.offset);
    SellerExecuteKeeps(c, s, terms, Reply(provider, x, AtLeast(c.sellerMin), c.offset));
    assert s.seller.pending[..0] + s.seller.pending[1..] == [];
  }

  /** A Buyer offer at or above the Seller's rung can close: the Buyer's next rung is no lower. */
  lemma SellerMayAccept(c: Session, terms: Terms)
    requires ValidSession(c) && BuyerOffered(c, terms)
    requires LadderPrice(Seller, c.reference, terms.round).Some?
    requires LadderPrice(Seller, c.reference, terms.round).value <= terms.price - c.offset
    ensures Closable(c.reference, terms.round, terms.price - c.offset)
  {
    var next := if terms.round < MAX_ROUNDS then terms.round + 1 else MAX_ROUNDS;
    LadderIsRounded(c.reference, terms.round);
    ShareMonotone(c.reference, terms.round, next);
    RoundingMonotone(LadderShare(Buyer, c.reference, terms.round), LadderShare(Buyer, c.reference, next));
  }

  // ---- Whole runs ----

  lemma NextKeeps(c: Session, s: System, e: Event)
    requires Inv(c, s)
    ensures Inv(c, Next(c, s, e))
  {
    if Enabled(s, e) {
      var t :| TokenAt(c, s, t);
      match e
      case Timer => TimerKeeps(c, s);
      case BuyerReply(i, provider) => BuyerReplyKeeps(c, s, t, i, provider);
      case SellerReply(i, provider) => SellerReplyKeeps(c, s, t, i, provider);
      case ToSeller => ToSellerKeeps(c, s, t);
      case ToBuyer => ToBuyerKeeps(c, s, t);
      case Open(randomness) => OpenKeeps(c, s, randomness);
    }
  }

  lemma {:induction false} RunKeeps(c: Session, events: seq<Event>)
    requires ValidSession(c)
    ensures Inv(c, Run(c, events))
  {
    if events == [] {
      ReadyInv(c);
    } else {
      RunKeeps(c, events[..|events| - 1]);
      NextKeeps(c, Run(c, events[..|events| - 1]), events[|events| - 1]);
    }
  }

  /** No handler throws, whatever the order of events and whatever the providers answer. */
  lemma NoFaults(c: Session, events: seq<Event>)
    requires ValidSession(c)
    ensures Run(c, events).buyer.faults == 0 && Run(c, events).seller.faults == 0
  {
    RunKeeps(c, events);
  }

  /** A published settlement is within both limits, in the corridor of the ladder, closed in round 6
      or later, and either known to the Seller or about to be: the acceptance of the Seller's own
      last offer is first in line. */
  lemma SettlementIsAgreed(c: Session, events: seq<Event>) returns (round: int)
    requires ValidSession(c)
    requires var outcomes := Run(c, events).buyer.outcomes; outcomes != [] && outcomes[0].Settled?
    ensures var s := Run(c, events);
      var price := s.buyer.outcomes[0].amount;
      && s.buyer.outcomes == [Settled(price)]
      && c.sellerMin <= price <= c.buyerMax && price % INCREMENT == 0 && price <= MAX_LIMIT
      && s.log != [] && s.log[|s.log| - 1].payload == Acceptance(round, price)
      && 6 <= round <= MAX_ROUNDS && Closable(c.reference, round, price - c.offset)
      && LadderPrice(Seller, c.reference, MAX_ROUNDS).Some?
      && LadderPrice(Seller, c.reference, MAX_ROUNDS).value <= price - c.offset
      && price - c.offset <= Floor250(LadderShare(Buyer, c.reference, MAX_ROUNDS))
      && (s.seller.agreed == Some(price) ||
          (s.seller.agreed.None? && s.toSeller != [] && s.toSeller[0].payload == Acceptance(round, price) &&
           s.seller.lastSent == Some(Terms(round, price))))
  {
    RunKeeps(c, events);
    var s := Run(c, events);
    var t :| TokenAt(c, s, t);
    round :| SettledIn(c, s, Terms(round, s.buyer.outcomes[0].amount));
    ClosingCorridor(c.reference, round, s.buyer.outcomes[0].amount - c.offset);
  }

  /** The Seller never agrees on a price that is not, or will not be, the published one. */
  lemma SellerAgreesOnlyToTheOutcome(c: Session, events: seq<Event>)
    requires ValidSession(c)
    ensures var s := Run(c, events);
      s.seller.agreed.Some? && s.buyer.finished ==> s.buyer.outcomes == [Settled(s.seller.agreed.value)]
    ensures var s := Run(c, events);
      s.seller.agreed.Some? && !s.buyer.finished ==>
        && s.toBuyer != [] && s.toBuyer[0].payload.Acceptance? && s.toBuyer[0].payload.price == s.seller.agreed.value
        && s.buyer.lastSent == Some(Terms(s.toBuyer[0].payload.round, s.seller.agreed.value))
  {
    RunKeeps(c, events);
    var t :| TokenAt(c, Run(c, events), t);
  }

  function Negotiating(queue: seq<Packet>): nat {
    if queue == [] then 0 else (if queue[0].payload.PriceOpening? then 0 else 1) + Negotiating(queue[1..])
  }

  function Tokens(s: System): nat {
    (if s.buyer.timer then 1 else 0) + |s.buyer.pending| + |s.seller.pending|
    + Negotiating(s.toSeller) + Negotiating(s.toBuyer)
  }

  /** One negotiation message or pending reply at a time; exactly one until the outcome. */
  lemma SingleToken(c: Session, s: System)
    requires Inv(c, s)
    ensures Tokens(s) <= 1
    ensures !s.buyer.finished ==> Tokens(s) == 1 && s.buyer.outcomes == []
    ensures s.buyer.finished ==>
      |s.buyer.outcomes| == 1 && s.toBuyer == [] && s.buyer.pending == [] && s.seller.pending == []
  {
    var t :| TokenAt(c, s, t);
    if t.Done? && s.buyer.outcomes[0].Settled? {
      var round :| SettledIn(c, s, Terms(round, s.buyer.outcomes[0].amount));
      var rest := if s.seller.agreed.None? then s.toSeller[1..] else s.toSeller;
      assert |rest| <= 1;
      if rest != [] { assert rest[0] in rest && Negotiating(rest[1..]) == 0; }
      assert Negotiating(rest) == 0;
    } else {
      assert |s.toSeller| + |s.toBuyer| <= 1;
      if s.toSeller != [] { assert Negotiating(s.toSeller[1..]) == 0; }
      if s.toBuyer != [] { assert Negotiating(s.toBuyer[1..]) == 0; }
    }
  }

  /** The k-th message of any run: rounds count up by one from 1, at most 21 messages are sent, and
      the Buyer's proposals carry the rounds 1, 2, 3, ... */
  lemma RoundsCountUp(c: Session, events: seq<Event>, k: nat)
    requires ValidSession(c) && k < |Run(c, events).log|
    ensures var log := Run(c, events).log;
      && |log| <= 21
      && log[k].sender == (if k % 2 == 0 then Buyer else Seller)
      && !log[k].payload.PriceOpening?
      && log[k].payload.round == (if k % 2 == 0 && log[k].payload.Acceptance? then k / 2 else k / 2 + 1)
      && (k % 2 == 0 && k < |log| - 1 ==> log[k].payload.Proposal?)
  {
    RunKeeps(c, events);
    assert EntryFits(Run(c, events).log, k);
  }

  /** Every effective event uses up weight. */
  function Weight(s: System): int {
    5 * (21 - |s.log|) + 3 * (|s.toSeller| + |s.toBuyer|) + 2 * (|s.buyer.pending| + |s.seller.pending|)
    + (if s.buyer.timer then 3 else 0) + (if s.openingSent then 0 else 4)
  }

  lemma EventsUseWeight(c: Session, s: System, e: Event)
    requires Inv(c, s) && Enabled(s, e)
    ensures 0 <= Weight(Next(c, s, e)) < Weight(s)
  {
    NextKeeps(c, s, e);
    match e
    case Timer =>
    case BuyerReply(i, provider) => BuyerReplyUsesWeight(c, s, i, provider);
    case SellerReply(i, provider) => SellerReplyUsesWeight(c, s, i, provider);
    case ToSeller =>
    case ToBuyer =>
    case Open(_) =>
  }

  lemma BuyerReplyUsesWeight(c: Session, s: System, i: nat, provider: Provider)
    requires Inv(c, s) && i < |s.buyer.pending|
    ensures Weight(Next(c, s, BuyerReply(i, provider))) < Weight(s)
  {
    var effect := BuyerReplies(s.buyer, i, provider);
    assert |Logged(effect.sends)| == |effect.sends| <= 1;
    assert |effect.state.pending| == |s.buyer.pending| - 1 && effect.state.timer == s.buyer.timer;
  }

  lemma SellerReplyUsesWeight(c: Session, s: System, i: nat, provider: Provider)
    requires Inv(c, s) && i < |s.seller.pending|
    ensures Weight(Next(c, s, SellerReply(i, provider))) < Weight(s)
  {
    var effect := SellerReplies(s.seller, c.reference, i, provider);
    assert |Logged(effect.sends)| == |effect.sends| <= 1;
    assert |effect.state.pending| == |s.seller.pending| - 1;
  }

  /** How many events of a run found something to do. */
  function Effective(c: Session, events: seq<Event>): nat {
    if events == [] then 0
    else
      var init, last := events[..|events| - 1], events[|events| - 1];
      Effective(c, init) + (if Enabled(Run(c, init), last) then 1 else 0)
  }

  lemma {:induction false} RunsEnd(c: Session, events: seq<Event>)
    requires ValidSession(c)
    ensures Effective(c, events) + Weight(Run(c, events)) <= 112
    ensures Effective(c, events) <= 112
  {
    RunKeeps(c, events);
    if events != [] {
      var init, last := events[..|events| - 1], events[|events| - 1];
      RunsEnd(c, init);
      RunKeeps(c, init);
      if Enabled(Run(c, init), last) { EventsUseWeight(c, Run(c, init), last); }
    }
  }

  /** The event that the token is waiting for, with given providers. */
  function Due(s: System, buyer: Provider, seller: Provider): Event {
    if s.buyer.timer then Timer
    else if s.buyer.pending != [] then BuyerReply(0, buyer)
    else if s.seller.pending != [] then SellerReply(0, seller)
    else if s.toSeller != [] then ToSeller
    else ToBuyer
  }

  /** Until the outcome is published some party always has something to do, so no run is stuck. */
  lemma NeverStuck(c: Session, s: System, buyer: Provider, seller: Provider)
    requires Inv(c, s) && !s.buyer.finished
    ensures Enabled(s, Due(s, buyer, seller))
  {
    var t :| TokenAt(c, s, t);
  }

  /** From every reachable state every pair of providers leads to an outcome. */
  lemma {:induction false} EveryRunCanFinish(c: Session, events: seq<Event>, buyer: Provider, seller: Provider)
    returns (more: seq<Event>)
    requires ValidSession(c)
    ensures Run(c, events + more).buyer.finished && |Run(c, events + more).buyer.outcomes| == 1
    decreases Weight(Run(c, events))
  {
    hide Inv;
    hide Next;
    hide Ready;
    var s := Run(c, events);
    RunKeeps(c, events);
    SingleToken(c, s);
    if s.buyer.finished {
      more := [];
      assert events + more == events;
    } else {
      var e := Due(s, buyer, seller);
      NeverStuck(c, s, buyer, seller);
      EventsUseWeight(c, s, e);
      assert (events + [e])[..|events + [e]| - 1] == events;
      var rest := EveryRunCanFinish(c, events + [e], buyer, seller);
      more := [e] + rest;
      assert events + more == events + [e] + rest;
    }
  }
}
