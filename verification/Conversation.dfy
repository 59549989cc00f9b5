/** The two runtime objects talking to each other: whatever the order of events, their fields and the
    packets between them are those of the transition system, so what is proved there holds of them. */
module Conversation {
  import opened Pricing
  import opened Commitments
  import opened Runtimes
  import opened Processes
  import opened Bargain
  import opened Sessions

  /** Two runtimes in a session, seen apart from the sessions they have had. A queue is the part of the
      sender's wire the other end has not read. */
  class Talk {
    var session: Session
    var past: Past
    const buyer: BuyerRuntime
    const seller: SellerRuntime
    var buyerRead: nat
    var sellerRead: nat
    ghost var log: seq<Entry>
    var openingSent: bool

    predicate Valid()
      reads this, buyer, seller
    {
      && buyer.reference == seller.reference == session.reference
      && buyerRead <= |seller.wire| && sellerRead <= |buyer.wire|
      && BuyerAfter(buyer.State(), past) && SellerAfter(seller.State(), past)
    }

    ghost function State(): System
      requires Valid()
      reads this, buyer, seller
    {
      System(BuyerSince(buyer.State(), past), SellerSince(seller.State(), past),
             buyer.wire[sellerRead..], seller.wire[buyerRead..], log, openingSent)
    }

    /** Two new runtime processes. */
    constructor (c: Session)
      ensures session == c && fresh(buyer) && fresh(seller) && Valid() && AtRest()
      ensures buyer.State() == FRESH_BUYER && seller.State() == FRESH_SELLER && past == Past([], [], 0, 0)
    {
      buyer := new BuyerRuntime(c.reference);
      seller := new SellerRuntime(c.reference);
      session, past := c, Past([], [], 0, 0);
      buyerRead, sellerRead, log, openingSent := 0, 0, [], false;
    }

    predicate AtRest()
      reads buyer, seller
    {
      BuyerRests(buyer.State()) && SellerRests(seller.State())
    }

    /** Both runtimes join a room, lock their limits, agree on a key, hear that the other is ready, and
        start. Packets of an earlier room that were still under way are gone with its connection. */
    method Begin(c: Session)
      requires Valid() && AtRest() && c.reference == session.reference
      modifies this, buyer, seller
      ensures Valid() && session == c && State() == Ready(c)
      ensures past == Past(old(buyer.outcomes), old(seller.operations), old(buyer.faults), old(seller.faults))
      ensures buyer.outcomes == old(buyer.outcomes) && seller.operations == old(seller.operations)
      ensures buyer.faults == old(buyer.faults) && seller.faults == old(seller.faults)
    {
      ghost var b, s := buyer.State(), seller.State();
      past := Past(buyer.outcomes, seller.operations, buyer.faults, seller.faults);
      session := c;
      SetUpBuyer(c);
      SetUpSeller(c);
      NewSessionsStartClean(b, s, c);
      buyerRead, sellerRead, log, openingSent := |seller.wire|, |buyer.wire|, [], false;
    }

    method SetUpBuyer(c: Session)
      modifies buyer
      ensures buyer.State() == BuyerSetUp(old(buyer.State()), c)
    {
      buyer.JoinRoom(c.room);
      buyer.SetLimit(c.room, c.buyerMax);
      buyer.AcceptPeerKey(c.room, c.offset);
      buyer.PeerReady(c.room);
      buyer.StartRuntime();
    }

    method SetUpSeller(c: Session)
      modifies seller
      ensures seller.State() == SellerSetUp(old(seller.State()), c)
    {
      seller.JoinRoom(c.room);
      seller.SetLimit(c.room, c.sellerMin);
      seller.AcceptPeerKey(c.room, c.offset);
      seller.PeerReady(c.room);
    }

    method BuyerAnswers(index: nat, provider: Provider)
      requires Valid() && index < |buyer.pending|
      modifies this, buyer
      ensures Valid() && State() == Next(session, old(State()), BuyerReply(index, provider))
      ensures session == old(session) && past == old(past)
    {
      hide BuyerReplies;
      BuyerRepliesAlike(buyer.State(), past, index, provider);
      ghost var sent := BuyerReplies(buyer.State(), index, provider).sends;
      buyer.FinishReply(index, provider);
      log := log + Logged(sent);
      assert buyer.wire[sellerRead..] == old(buyer.wire[sellerRead..]) + sent;
    }

    method SellerAnswers(index: nat, provider: Provider)
      requires Valid() && index < |seller.pending|
      modifies this, seller
      ensures Valid() && State() == Next(session, old(State()), SellerReply(index, provider))
      ensures session == old(session) && past == old(past)
    {
      hide SellerReplies;
      SellerRepliesAlike(seller.State(), past, seller.reference, index, provider);
      ghost var sent := SellerReplies(seller.State(), seller.reference, index, provider).sends;
      seller.FinishReply(index, provider);
      log := log + Logged(sent);
      assert seller.wire[buyerRead..] == old(seller.wire[buyerRead..]) + sent;
    }

    method DeliverToSeller()
      requires Valid() && sellerRead < |buyer.wire|
      modifies this, seller
      ensures Valid() && State() == Next(session, old(State()), ToSeller)
      ensures session == old(session) && past == old(past)
    {
      hide SellerAccepts;
      SellerAcceptsAlike(seller.State(), past, buyer.wire[sellerRead]);
      seller.AcceptRelayPacket(buyer.wire[sellerRead]);
      sellerRead := sellerRead + 1;
      assert old(buyer.wire[sellerRead..])[1..] == buyer.wire[sellerRead..];
    }

    method DeliverToBuyer()
      requires Valid() && buyerRead < |seller.wire|
      modifies this, buyer
      ensures Valid() && State() == Next(session, old(State()), ToBuyer)
      ensures session == old(session) && past == old(past)
    {
      hide BuyerAccepts;
      BuyerAcceptsAlike(buyer.State(), past, buyer.reference, seller.wire[buyerRead]);
      buyer.AcceptRelayPacket(seller.wire[buyerRead]);
      buyerRead := buyerRead + 1;
      assert old(seller.wire[buyerRead..])[1..] == seller.wire[buyerRead..];
    }

    method OpenPrice(randomness: Bytes32)
      requires Valid() && MayOpen(State())
      modifies this, buyer
      ensures Valid() && State() == Next(session, old(State()), Open(randomness))
      ensures session == old(session) && past == old(past)
    {
      hide BuyerRelay;
      BuyerStepsAlike(buyer.State(), past);
      var opening := PriceOpening(buyer.outcomes[|past.outcomes|].amount, randomness);
      ghost var sent := BuyerRelay(buyer.State(), opening).sends;
      var _ := buyer.Relay(opening);
      openingSent := true;
      assert buyer.wire[sellerRead..] == old(buyer.wire[sellerRead..]) + sent;
    }

    method FireTimer()
      requires Valid() && buyer.timer
      modifies buyer
      ensures Valid() && State() == Next(session, old(State()), Timer)
    {
      BuyerTimerAlike(buyer.State(), past, buyer.reference);
      buyer.TimerFires();
    }

    predicate CanHappen(e: Event)
      requires Valid()
      reads this, buyer, seller
    {
      match e
      case Timer => buyer.timer
      case BuyerReply(i, _) => i < |buyer.pending|
      case SellerReply(i, _) => i < |seller.pending|
      case ToSeller => sellerRead < |buyer.wire|
      case ToBuyer => buyerRead < |seller.wire|
      case Open(_) =>
        !openingSent && |past.outcomes| < |buyer.outcomes| && buyer.outcomes[|past.outcomes|].Settled? &&
        buyer.room.Some? && buyer.offset.Some?
    }

    method Happen(e: Event)
      requires Valid()
      modifies this, buyer, seller
      ensures Valid() && State() == Next(session, old(State()), e)
      ensures session == old(session) && past == old(past)
    {
      assert CanHappen(e) == Enabled(State(), e);
      if !CanHappen(e) { return; }
      hide Next;
      match e {
        case Timer => FireTimer();
        case BuyerReply(i, provider) => BuyerAnswers(i, provider);
        case SellerReply(i, provider) => SellerAnswers(i, provider);
        case ToSeller => DeliverToSeller();
        case ToBuyer => DeliverToBuyer();
        case Open(randomness) => OpenPrice(randomness);
      }
    }
  }

  /** A session to have, and what happens in it. */
  datatype Chapter = Chapter(session: Session, events: seq<Event>)

  function Outcomes(chapters: seq<Chapter>): seq<Outcome> {
    if chapters == [] then []
    else
      var last := chapters[|chapters| - 1];
      Outcomes(chapters[..|chapters| - 1]) + Run(last.session, last.events).buyer.outcomes
  }

  function Operations(chapters: seq<Chapter>): seq<Operation> {
    if chapters == [] then []
    else
      var last := chapters[|chapters| - 1];
      Operations(chapters[..|chapters| - 1]) + Run(last.session, last.events).seller.operations
  }

  /** A finished session leaves both runtimes at rest. */
  lemma FinishedRests(c: Session, events: seq<Event>)
    requires ValidSession(c) && Run(c, events).buyer.finished
    ensures BuyerRests(Run(c, events).buyer) && SellerRests(Run(c, events).seller)
  {
    RunKeeps(c, events);
    var s := Run(c, events);
    var t :| TokenAt(c, s, t);
    SingleToken(c, s);
  }

  /** Two runtime objects that have one session after another, each with any events and finished before
      the next begins, are at the end in the state of the last run, and have on record exactly what the
      separate runs publish and launch. No session makes a handler throw. */
  method Converse(chapters: seq<Chapter>) returns (talk: Talk)
    requires chapters != [] && forall chapter <- chapters ::
      ValidSession(chapter.session) && chapter.session.reference == chapters[0].session.reference
    requires forall i :: 0 <= i < |chapters| - 1 ==> Run(chapters[i].session, chapters[i].events).buyer.finished
    ensures fresh(talk) && fresh(talk.buyer) && fresh(talk.seller) && talk.Valid()
    ensures var last := chapters[|chapters| - 1];
      talk.session == last.session && talk.State() == Run(last.session, last.events)
    ensures talk.buyer.outcomes == Outcomes(chapters) && talk.seller.operations == Operations(chapters)
    ensures talk.buyer.faults == talk.seller.faults == 0
  {
    hide Run;
    hide Ready;
    hide ValidSession;
    hide PriceIsShared;
    RecordGrows(chapters, 0);
    hide Outcomes;
    hide Operations;
    talk := new Talk(chapters[0].session);
    for n := 0 to |chapters|
      invariant fresh(talk) && fresh(talk.buyer) && fresh(talk.seller) && talk.Valid()
      invariant talk.session.reference == chapters[0].session.reference
      invariant talk.buyer.outcomes == Outcomes(chapters[..n]) && talk.seller.operations == Operations(chapters[..n])
      invariant talk.buyer.faults == talk.seller.faults == 0
      invariant n == 0 ==> talk.AtRest()
      invariant n > 0 ==> talk.session == chapters[n - 1].session
      invariant n > 0 ==> talk.State() == Run(chapters[n - 1].session, chapters[n - 1].events)
    {
      if n > 0 { FinishedRests(chapters[n - 1].session, chapters[n - 1].events); }
      assert chapters[n] in chapters;
      HaveSession(talk, chapters[n].session, chapters[n].events);
      RecordGrows(chapters, n);
    }
    assert chapters[..|chapters|] == chapters;
  }

  lemma RecordGrows(chapters: seq<Chapter>, n: nat)
    requires n < |chapters|
    ensures var run := Run(chapters[n].session, chapters[n].events);
      && Outcomes(chapters[..n + 1]) == Outcomes(chapters[..n]) + run.buyer.outcomes
      && Operations(chapters[..n + 1]) == Operations(chapters[..n]) + run.seller.operations
    ensures Outcomes(chapters[..0]) == [] && Operations(chapters[..0]) == []
  {
    hide Run;
    assert chapters[..n + 1][..n] == chapters[..n];
  }

  /** A price published in this session is a multiple of 250 within both limits, and the Seller has agreed
      to it or will with the acceptance that is next in line. */
  predicate PriceIsShared(talk: Talk, before: nat)
    reads talk, talk.buyer, talk.seller
  {
    var (c, outcomes, seller) := (talk.session, talk.buyer.outcomes, talk.seller);
    |outcomes| == before + 1 && outcomes[before].Settled? ==>
      var price := outcomes[before].amount;
      && c.sellerMin <= price <= c.buyerMax && price % INCREMENT == 0
      && seller.agreedPrice in {None, Some(price)}
      && (seller.agreedPrice.None? ==>
            talk.sellerRead < |talk.buyer.wire| && talk.buyer.wire[talk.sellerRead].payload.Acceptance? &&
            seller.lastSentOffer == Some(Terms(talk.buyer.wire[talk.sellerRead].payload.round, price)))
  }

  /** One session of two runtimes at rest, driven by any events. It runs as a first session does. A
      published price is within both limits and known, or about to be known, to the Seller. */
  method HaveSession(talk: Talk, c: Session, events: seq<Event>)
    requires ValidSession(c) && talk.Valid() && talk.AtRest() && c.reference == talk.session.reference
    modifies talk, talk.buyer, talk.seller
    ensures talk.Valid() && talk.session == c && talk.State() == Run(c, events)
    ensures talk.buyer.outcomes == old(talk.buyer.outcomes) + Run(c, events).buyer.outcomes
    ensures talk.seller.operations == old(talk.seller.operations) + Run(c, events).seller.operations
    ensures talk.buyer.faults == old(talk.buyer.faults) && talk.seller.faults == old(talk.seller.faults)
    ensures |talk.buyer.outcomes| <= |old(talk.buyer.outcomes)| + 1
    ensures PriceIsShared(talk, |old(talk.buyer.outcomes)|)
  {
    hide Run;
    hide Inv;
    hide Ready;
    talk.Begin(c);
    Play(talk, c, events);
    NoFaults(c, events);
    RunKeeps(c, events);
    SingleToken(c, Run(c, events));
    if Run(c, events).buyer.outcomes != [] && Run(c, events).buyer.outcomes[0].Settled? {
      var _ := SettlementIsAgreed(c, events);
    }
  }

  method Play(talk: Talk, c: Session, events: seq<Event>)
    requires talk.Valid() && talk.session == c && talk.State() == Ready(c)
    modifies talk, talk.buyer, talk.seller
    ensures talk.Valid() && talk.session == c && talk.past == old(talk.past) && talk.State() == Run(c, events)
  {
    hide Next;
    hide Ready;
    assert events[..0] == [];
    for k := 0 to |events|
      invariant talk.Valid() && talk.session == c && talk.past == old(talk.past)
      invariant talk.State() == Run(c, events[..k])
    {
      talk.Happen(events[k]);
      assert events[..k + 1][..k] == events[..k];
    }
    assert events[..|events|] == events;
  }
}
