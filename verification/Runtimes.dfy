/** The Buyer and Seller runtimes: message handlers over their own mutable state. Each handler is
    given twice, as a function on states and as a method of the runtime's class. A handler that
    throws, or an asynchronous reply that rejects, is counted as a fault. */
module Runtimes {
  import opened Pricing
  import opened Commitments

  datatype Room = Room(sessionId: nat, productCode: nat)

  datatype Payload =
    | Proposal(round: int, price: int)
    | Acceptance(round: int, price: int)
    | Decline(round: int)
    | PriceOpening(price: int, randomness: Bytes32)

  datatype Packet = Packet(room: Room, sender: Role, sequence: nat, payload: Payload)

  /** An offer this party has sent and may be held to. */
  datatype Terms = Terms(round: int, price: int)

  datatype Outcome = Settled(amount: int) | Cancelled

  datatype Operation = SettleOnChain(price: int, randomness: Bytes32) | CancelOnChain

  /** The largest amount a decimal string of twenty digits can name. */
  const MAX_DIGITS: int := 99_999_999_999_999_999_999

  predicate WellFormed(p: Payload) {
    && (!p.PriceOpening? ==> 1 <= p.round <= MAX_ROUNDS)
    && (!p.Decline? ==> 1 <= p.price <= MAX_DIGITS)
  }

  // ---- Buyer ----

  datatype BuyerState = BuyerState(
    room: Option<Room>, limit: Option<int>, offset: Option<int>, peerReady: bool, started: bool, timer: bool,
    finished: bool, sent: nat, received: nat, lastSent: Option<Terms>, pending: seq<Context>,
    outcomes: seq<Outcome>, faults: nat)

  datatype BuyerEffect = BuyerEffect(state: BuyerState, sends: seq<Packet>)

  const FRESH_BUYER: BuyerState :=
    BuyerState(None, None, None, false, false, false, false, 0, 0, None, [], [], 0)

  function BuyerFault(s: BuyerState): BuyerState { s.(faults := s.faults + 1) }

  function BuyerJoin(s: BuyerState, room: Room): BuyerState {
    s.(room := Some(room), limit := None, offset := None, peerReady := false, started := false, finished := false,
       sent := 0, received := 0, lastSent := None)
  }

  function BuyerSetLimit(s: BuyerState, room: Room, limit: int): BuyerState {
    if s.room != Some(room) || s.limit.Some? then BuyerFault(s) else s.(limit := Some(limit))
  }

  /** The peer key fixes the shared key, and with it the session's price offset. */
  function BuyerPeerKey(s: BuyerState, room: Room, offset: int): BuyerState {
    if s.room != Some(room) then BuyerFault(s) else s.(offset := Some(offset))
  }

  function BuyerPeerReady(s: BuyerState, room: Room): BuyerState {
    if s.room != Some(room) || s.limit.None? then BuyerFault(s) else s.(peerReady := true)
  }

  function BuyerStart(s: BuyerState): BuyerState {
    if s.limit.None? || s.offset.None? || !s.peerReady || s.started then BuyerFault(s)
    else s.(started := true, timer := true)
  }

  /** Only the first outcome of a session is published. */
  function BuyerPublish(s: BuyerState, outcome: Outcome): BuyerState {
    if s.room.None? || s.finished then s else s.(finished := true, outcomes := s.outcomes + [outcome])
  }

  /** Starts computing a reply; the readiness check runs before the first suspension. */
  function BuyerLaunch(s: BuyerState, c: Context): BuyerState {
    if s.room.None? || s.limit.None? || s.offset.None? || !s.peerReady || s.finished then BuyerFault(s)
    else s.(pending := s.pending + [c])
  }

  function OpeningContext(reference: int, round: int): Context {
    Context(Buyer, round, Some(reference), None)
  }

  function CounterContext(reference: int, round: int, price: int): Context {
    Context(Buyer, round, Some(reference), Some(Offer(Seller, price)))
  }

  function BuyerTimer(s: BuyerState, reference: int): BuyerState {
    if !s.timer then s else BuyerLaunch(s.(timer := false), OpeningContext(reference, 1))
  }

  function BuyerAccepts(s: BuyerState, reference: int, packet: Packet): BuyerState {
    var p := packet.payload;
    if s.room != Some(packet.room) || s.offset.None? || packet.sender != Seller || packet.sequence <= s.received ||
       !WellFormed(p) || p.PriceOpening? then BuyerFault(s)
    else
      var t := s.(received := packet.sequence);
      match p
      case Acceptance(round, price) =>
        if t.lastSent != Some(Terms(round, price)) then BuyerFault(t) else BuyerPublish(t, Settled(price))
      case Decline(round) =>
        if t.lastSent.None? || t.lastSent.value.round != round then BuyerFault(t)
        else if MAX_ROUNDS <= round then BuyerPublish(t, Cancelled)
        else BuyerLaunch(t, OpeningContext(reference, round + 1))
      case Proposal(round, price) => BuyerLaunch(t, CounterContext(reference, round, price))
  }

  function BuyerRelay(s: BuyerState, p: Payload): BuyerEffect {
    if s.room.None? || s.offset.None? then BuyerEffect(BuyerFault(s), [])
    else BuyerEffect(s.(sent := s.sent + 1), [Packet(s.room.value, Buyer, s.sent + 1, p)])
  }

  function BuyerExecute(s: BuyerState, c: Context, candidate: Option<Candidate>): BuyerEffect {
    if candidate.None? then BuyerEffect(BuyerPublish(s, Cancelled), [])
    else if s.room.None? || s.offset.None? then BuyerEffect(BuyerFault(s), [])
    else if candidate.value.Accept? then
      var effect := BuyerRelay(s, Acceptance(c.round, candidate.value.price));
      effect.(state := BuyerPublish(effect.state, Settled(candidate.value.price)))
    else
      var round := if c.current.None? then c.round else c.round + 1;
      if MAX_ROUNDS < round then BuyerEffect(BuyerPublish(s, Cancelled), [])
      else BuyerRelay(s.(lastSent := Some(Terms(round, candidate.value.price))), Proposal(round, candidate.value.price))
  }

  /** One pending computation ends: the provider has answered and the reply goes out. */
  function BuyerReplies(s: BuyerState, index: nat, provider: Provider): BuyerEffect
    requires index < |s.pending|
  {
    var c := s.pending[index];
    var t := s.(pending := s.pending[..index] + s.pending[index + 1..]);
    if t.limit.None? || t.offset.None? || !ValidContext(c) then BuyerEffect(BuyerFault(t), [])
    else BuyerExecute(t, c, Reply(provider, c, AtMost(t.limit.value), t.offset.value))
  }

  // ---- Seller ----

  datatype SellerState = SellerState(
    room: Option<Room>, limit: Option<int>, offset: Option<int>, peerReady: bool, sent: nat, received: nat,
    agreed: Option<int>, lastSent: Option<Terms>, pending: seq<Terms>, operations: seq<Operation>, faults: nat)

  datatype SellerEffect = SellerEffect(state: SellerState, sends: seq<Packet>)

  const FRESH_SELLER: SellerState := SellerState(None, None, None, false, 0, 0, None, None, [], [], 0)

  function SellerFault(s: SellerState): SellerState { s.(faults := s.faults + 1) }

  function SellerJoin(s: SellerState, room: Room): SellerState {
    s.(room := Some(room), limit := None, offset := None, peerReady := false, sent := 0, received := 0,
       agreed := None, lastSent := None)
  }

  function SellerSetLimit(s: SellerState, room: Room, limit: int): SellerState {
    if s.room != Some(room) || s.limit.Some? then SellerFault(s) else s.(limit := Some(limit))
  }

  function SellerPeerKey(s: SellerState, room: Room, offset: int): SellerState {
    if s.room != Some(room) then SellerFault(s) else s.(offset := Some(offset))
  }

  function SellerPeerReady(s: SellerState, room: Room): SellerState {
    if s.room != Some(room) || s.limit.None? then SellerFault(s) else s.(peerReady := true)
  }

  function SellerAccepts(s: SellerState, packet: Packet): SellerState {
    var p := packet.payload;
    if s.room != Some(packet.room) || s.offset.None? || packet.sender != Buyer || packet.sequence <= s.received ||
       !WellFormed(p) then SellerFault(s)
    else
      var t := s.(received := packet.sequence);
      if p.PriceOpening? then
        // On chain any committed price within the limits would pass, so the agreement is compared here.
        if t.agreed != Some(p.price) then SellerFault(t.(operations := t.operations + [CancelOnChain]))
        else t.(operations := t.operations + [SettleOnChain(p.price, p.randomness)])
      else if t.limit.None? || t.agreed.Some? then SellerFault(t)
      else match p
        case Acceptance(round, price) =>
          if t.lastSent != Some(Terms(round, price)) then SellerFault(t) else t.(agreed := Some(price))
        case Decline(_) => SellerFault(t)
        case Proposal(round, price) =>
          if !t.peerReady then SellerFault(t) else t.(pending := t.pending + [Terms(round, price)])
  }

  function SellerContext(reference: int, terms: Terms): Context {
    Context(Seller, terms.round, Some(reference), Some(Offer(Buyer, terms.price)))
  }

  function SellerRelay(s: SellerState, p: Payload): SellerEffect {
    if s.room.None? || s.offset.None? then SellerEffect(SellerFault(s), [])
    else SellerEffect(s.(sent := s.sent + 1), [Packet(s.room.value, Seller, s.sent + 1, p)])
  }

  function SellerExecute(s: SellerState, c: Context, candidate: Option<Candidate>): SellerEffect {
    if candidate.None? then SellerRelay(s, Decline(c.round))
    else if candidate.value.Accept? then
      SellerRelay(s.(agreed := Some(candidate.value.price)), Acceptance(c.round, candidate.value.price))
    else
      SellerRelay(s.(lastSent := Some(Terms(c.round, candidate.value.price))), Proposal(c.round, candidate.value.price))
  }

  function SellerReplies(s: SellerState, reference: int, index: nat, provider: Provider): SellerEffect
    requires index < |s.pending|
  {
    var c := SellerContext(reference, s.pending[index]);
    var t := s.(pending := s.pending[..index] + s.pending[index + 1..]);
    if t.limit.None? || t.offset.None? || !ValidContext(c) then SellerEffect(SellerFault(t), [])
    else SellerExecute(t, c, Reply(provider, c, AtLeast(t.limit.value), t.offset.value))
  }
}
