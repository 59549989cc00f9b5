/** The two runtimes as objects: each command and each message handler updates the fields of its
    process. `wire` is everything the process has handed to the relay. */
module Processes {
  import opened Pricing
  import opened Runtimes

  class BuyerRuntime {
    const reference: int
    var room: Option<Room>
    var limit: Option<int>
    var offset: Option<int>
    var peerReady: bool
    var started: bool
    var timer: bool
    var finished: bool
    var sentSequence: nat
    var receivedSequence: nat
    var lastSentOffer: Option<Terms>
    var pending: seq<Context>
    var outcomes: seq<Outcome>
    var faults: nat
    var wire: seq<Packet>

    function State(): BuyerState
      reads this
    {
      BuyerState(room, limit, offset, peerReady, started, timer, finished, sentSequence, receivedSequence,
                 lastSentOffer, pending, outcomes, faults)
    }

    constructor (publicReferencePrice: int)
      ensures State() == FRESH_BUYER && wire == [] && reference == publicReferencePrice
    {
      reference := publicReferencePrice;
      room, limit, offset, lastSentOffer := None, None, None, None;
      peerReady, started, timer, finished := false, false, false, false;
      sentSequence, receivedSequence, faults := 0, 0, 0;
      pending, outcomes, wire := [], [], [];
    }

    method Fault()
      modifies this`faults
      ensures faults == old(faults) + 1
    {
      faults := faults + 1;
    }

    /** Forgets what an earlier session exchanged with its peer. */
    method ForgetExchange()
      modifies this`sentSequence, this`receivedSequence, this`lastSentOffer, this`started, this`finished
      ensures State() == old(State()).(sent := 0, received := 0, lastSent := None, started := false, finished := false)
    {
      sentSequence, receivedSequence, lastSentOffer := 0, 0, None;
      started, finished := false, false;
    }

    method JoinRoom(r: Room)
      modifies this
      ensures State() == BuyerJoin(old(State()), r) && wire == old(wire)
    {
      room, limit, offset, peerReady := Some(r), None, None, false;
      ForgetExchange();
    }

    method SetLimit(r: Room, maximum: int)
      modifies this
      ensures State() == BuyerSetLimit(old(State()), r, maximum) && wire == old(wire)
    {
      if room != Some(r) { Fault(); return; }
      if limit.Some? { Fault(); return; }
      limit := Some(maximum);
    }

    method AcceptPeerKey(r: Room, derivedOffset: int)
      modifies this
      ensures State() == BuyerPeerKey(old(State()), r, derivedOffset) && wire == old(wire)
    {
      if room != Some(r) { Fault(); return; }
      offset := Some(derivedOffset);
    }

    method PeerReady(r: Room)
      modifies this
      ensures State() == BuyerPeerReady(old(State()), r) && wire == old(wire)
    {
      if room != Some(r) || limit.None? { Fault(); return; }
      peerReady := true;
    }

    method StartRuntime()
      modifies this
      ensures State() == BuyerStart(old(State())) && wire == old(wire)
    {
      if limit.None? || offset.None? || !peerReady || started { Fault(); return; }
      started := true;
      timer := true;
    }

    method TimerFires()
      modifies this
      ensures State() == BuyerTimer(old(State()), reference) && wire == old(wire)
    {
      if timer {
        timer := false;
        Launch(OpeningContext(reference, 1));
      }
    }

    method Launch(c: Context)
      modifies this`faults, this`pending
      ensures State() == BuyerLaunch(old(State()), c)
    {
      if room.None? || limit.None? || offset.None? || !peerReady || finished { Fault(); return; }
      pending := pending + [c];
    }

    method PublishOutcome(outcome: Outcome)
      modifies this`finished, this`outcomes
      ensures State() == BuyerPublish(old(State()), outcome)
    {
      if room.None? || finished { return; }
      finished := true;
      outcomes := outcomes + [outcome];
    }

    method Relay(p: Payload) returns (ok: bool)
      modifies this`sentSequence, this`faults, this`wire
      ensures ok == (room.Some? && offset.Some?)
      ensures var effect := BuyerRelay(old(State()), p); State() == effect.state && wire == old(wire) + effect.sends
    {
      if room.None? || offset.None? { Fault(); return false; }
      sentSequence := sentSequence + 1;
      wire := wire + [Packet(room.value, Buyer, sentSequence, p)];
      ok := true;
    }

    method AcceptRelayPacket(packet: Packet)
      modifies this
      ensures State() == BuyerAccepts(old(State()), reference, packet) && wire == old(wire)
    {
      if room != Some(packet.room) || offset.None? || packet.sender != Seller || packet.sequence <= receivedSequence {
        Fault();
        return;
      }
      if !WellFormed(packet.payload) { Fault(); return; }
      if packet.payload.PriceOpening? { Fault(); return; }
      receivedSequence := packet.sequence;
      match packet.payload
      case Acceptance(round, price) =>
        if lastSentOffer.None? || lastSentOffer.value.round != round || lastSentOffer.value.price != price
        { Fault(); return; }
        PublishOutcome(Settled(price));
      case Decline(round) =>
        if lastSentOffer.None? || lastSentOffer.value.round != round { Fault(); return; }
        if MAX_ROUNDS <= round { PublishOutcome(Cancelled); return; }
        Launch(OpeningContext(reference, round + 1));
      case Proposal(round, price) =>
        Launch(CounterContext(reference, round, price));
    }

    method ExecuteCandidate(c: Context, candidate: Candidate)
      modifies this
      ensures var effect := BuyerExecute(old(State()), c, Some(candidate));
        State() == effect.state && wire == old(wire) + effect.sends
    {
      if candidate.Accept? {
        var ok := Relay(Acceptance(c.round, candidate.price));
        if ok { PublishOutcome(Settled(candidate.price)); }
        return;
      }
      if room.None? || offset.None? { Fault(); return; }
      var nextRound := if c.current.None? then c.round else c.round + 1;
      if MAX_ROUNDS < nextRound { PublishOutcome(Cancelled); return; }
      lastSentOffer := Some(Terms(nextRound, candidate.price));
      var _ := Relay(Proposal(nextRound, candidate.price));
    }

    /** The suspended part of a reply, resumed when the provider has answered. */
    method FinishReply(index: nat, provider: Provider)
      requires index < |pending|
      modifies this
      ensures var effect := BuyerReplies(old(State()), index, provider);
        State() == effect.state && wire == old(wire) + effect.sends
    {
      var c := pending[index];
      pending := pending[..index] + pending[index + 1..];
      if limit.None? || offset.None? { Fault(); return; }
      var policy := AtMost(limit.value);
      var chosen := GenerateAllowedCandidate(provider, c, policy, None, offset);
      if chosen.Threw? { Fault(); return; }
      var candidate := if chosen.value.Some? then chosen.value else FallbackCandidate(c, policy, offset);
      if candidate.None? { PublishOutcome(Cancelled); return; }
      ExecuteCandidate(c, candidate.value);
    }
  }

  class SellerRuntime {
    const reference: int
    var room: Option<Room>
    var limit: Option<int>
    var offset: Option<int>
    var peerReady: bool
    var sentSequence: nat
    var receivedSequence: nat
    var agreedPrice: Option<int>
    var lastSentOffer: Option<Terms>
    var pending: seq<Terms>
    var operations: seq<Operation>
    var faults: nat
    var wire: seq<Packet>

    function State(): SellerState
      reads this
    {
      SellerState(room, limit, offset, peerReady, sentSequence, receivedSequence, agreedPrice, lastSentOffer,
        pending, operations, faults)
    }

    constructor (publicReferencePrice: int)
      ensures State() == FRESH_SELLER && wire == [] && reference == publicReferencePrice
    {
      reference := publicReferencePrice;
      room, limit, offset, agreedPrice, lastSentOffer := None, None, None, None, None;
      peerReady := false;
      sentSequence, receivedSequence, faults := 0, 0, 0;
      pending, operations, wire := [], [], [];
    }

    method Fault()
      modifies this`faults
      ensures faults == old(faults) + 1
    {
      faults := faults + 1;
    }

    method JoinRoom(r: Room)
      modifies this
      ensures State() == SellerJoin(old(State()), r) && wire == old(wire)
    {
      room, limit, offset, agreedPrice, lastSentOffer := Some(r), None, None, None, None;
      sentSequence, receivedSequence, peerReady := 0, 0, false;
    }

    method SetLimit(r: Room, minimum: int)
      modifies this
      ensures State() == SellerSetLimit(old(State()), r, minimum) && wire == old(wire)
    {
      if room != Some(r) { Fault(); return; }
      if limit.Some? { Fault(); return; }
      limit := Some(minimum);
    }

    method AcceptPeerKey(r: Room, derivedOffset: int)
      modifies this
      ensures State() == SellerPeerKey(old(State()), r, derivedOffset) && wire == old(wire)
    {
      if room != Some(r) { Fault(); return; }
      offset := Some(derivedOffset);
    }

    method PeerReady(r: Room)
      modifies this
      ensures State() == SellerPeerReady(old(State()), r) && wire == old(wire)
    {
      if room != Some(r) || limit.None? { Fault(); return; }
      peerReady := true;
    }

    method Relay(p: Payload)
      modifies this`sentSequence, this`faults, this`wire
      ensures var effect := SellerRelay(old(State()), p); State() == effect.state && wire == old(wire) + effect.sends
    {
      if room.None? || offset.None? { Fault(); return; }
      sentSequence := sentSequence + 1;
      wire := wire + [Packet(room.value, Seller, sentSequence, p)];
    }

    method AcceptRelayPacket(packet: Packet)
      modifies this
      ensures State() == SellerAccepts(old(State()), packet) && wire == old(wire)
    {
      if room != Some(packet.room) || offset.None? || packet.sender != Buyer || packet.sequence <= receivedSequence {
        Fault();
        return;
      }
      if !WellFormed(packet.payload) { Fault(); return; }
      receivedSequence := packet.sequence;
      if packet.payload.PriceOpening? {
        if agreedPrice.None? || packet.payload.price != agreedPrice.value {
          Fault();
          operations := operations + [CancelOnChain];
          return;
        }
        operations := operations + [SettleOnChain(packet.payload.price, packet.payload.randomness)];
        return;
      }
      if limit.None? { Fault(); return; }
      if agreedPrice.Some? { Fault(); return; }
      match packet.payload
      case Acceptance(round, price) =>
        if lastSentOffer.None? || lastSentOffer.value.round != round || lastSentOffer.value.price != price
        { Fault(); return; }
        agreedPrice := Some(price);
      case Decline(_) => Fault();
      case Proposal(round, price) =>
        if !peerReady { Fault(); return; }
        pending := pending + [Terms(round, price)];
    }

    method ExecuteCandidate(c: Context, candidate: Candidate)
      modifies this
      ensures var effect := SellerExecute(old(State()), c, Some(candidate));
        State() == effect.state && wire == old(wire) + effect.sends
    {
      if candidate.Accept? {
        agreedPrice := Some(candidate.price);
        Relay(Acceptance(c.round, candidate.price));
        return;
      }
      lastSentOffer := Some(Terms(c.round, candidate.price));
      Relay(Proposal(c.round, candidate.price));
    }

    /** The suspended part of a response, resumed when the provider has answered. */
    method FinishReply(index: nat, provider: Provider)
      requires index < |pending|
      modifies this
      ensures var effect := SellerReplies(old(State()), reference, index, provider);
        State() == effect.state && wire == old(wire) + effect.sends
    {
      var c := SellerContext(reference, pending[index]);
      pending := pending[..index] + pending[index + 1..];
      if limit.None? || offset.None? { Fault(); return; }
      var policy := AtLeast(limit.value);
      var chosen := GenerateAllowedCandidate(provider, c, policy, None, offset);
      if chosen.Threw? { Fault(); return; }
      var candidate := if chosen.value.Some? then chosen.value else FallbackCandidate(c, policy, offset);
      if candidate.None? {
        Relay(Decline(c.round));
        return;
      }
      ExecuteCandidate(c, candidate.value);
    }
  }
}
