/** One runtime, many sessions: joining again starts clean, and each session runs as if it were the
    first. What earlier sessions published, launched and refused stays on record. */
module Sessions {
  import opened Pricing
  import opened Commitments
  import opened Runtimes
  import opened Bargain

  // ---- Joining again ----

  /** The commands that set up a session, in their order. */
  function BuyerSetUp(b: BuyerState, c: Session): BuyerState {
    var locked := BuyerSetLimit(BuyerJoin(b, c.room), c.room, c.buyerMax);
    BuyerStart(BuyerPeerReady(BuyerPeerKey(locked, c.room, c.offset), c.room))
  }

  function SellerSetUp(s: SellerState, c: Session): SellerState {
    SellerPeerReady(SellerPeerKey(SellerSetLimit(SellerJoin(s, c.room), c.room, c.sellerMin), c.room, c.offset), c.room)
  }

  /** Nothing of an earlier session is still under way. */
  predicate BuyerRests(b: BuyerState) {
    b.pending == [] && !b.timer
  }

  predicate SellerRests(s: SellerState) {
    s.pending == []
  }

  /** From any resting state a new session starts exactly as the first one does. Only the record of
      earlier sessions is different. */
  lemma NewSessionsStartClean(b: BuyerState, s: SellerState, c: Session)
    requires BuyerRests(b) && SellerRests(s)
    ensures BuyerSetUp(b, c) == Ready(c).buyer.(outcomes := b.outcomes, faults := b.faults)
    ensures SellerSetUp(s, c) == Ready(c).seller.(operations := s.operations, faults := s.faults)
    ensures var t := BuyerSetUp(b, c);
      && t.limit == Some(c.buyerMax) && t.offset == Some(c.offset) && t.timer && !t.finished
      && t.lastSent.None? && t.sent == t.received == 0
    ensures var t := SellerSetUp(s, c);
      && t.limit == Some(c.sellerMin) && t.offset == Some(c.offset)
      && t.agreed.None? && t.lastSent.None? && t.sent == t.received == 0
  {}

  // ---- A session seen apart from earlier ones ----

  /** What was on record when the session began. */
  datatype Past = Past(outcomes: seq<Outcome>, operations: seq<Operation>, buyerFaults: nat, sellerFaults: nat)

  predicate BuyerAfter(b: BuyerState, past: Past) {
    past.outcomes <= b.outcomes && past.buyerFaults <= b.faults
  }

  predicate SellerAfter(s: SellerState, past: Past) {
    past.operations <= s.operations && past.sellerFaults <= s.faults
  }

  /** The state without the record of earlier sessions. */
  function BuyerSince(b: BuyerState, past: Past): BuyerState
    requires BuyerAfter(b, past)
  {
    b.(outcomes := b.outcomes[|past.outcomes|..], faults := b.faults - past.buyerFaults)
  }

  function SellerSince(s: SellerState, past: Past): SellerState
    requires SellerAfter(s, past)
  {
    s.(operations := s.operations[|past.operations|..], faults := s.faults - past.sellerFaults)
  }

  /** The effect is the same with and without the record. */
  predicate BuyerAlike(t: BuyerState, apart: BuyerState, past: Past) {
    BuyerAfter(t, past) && apart == BuyerSince(t, past)
  }

  predicate SellerAlike(t: SellerState, apart: SellerState, past: Past) {
    SellerAfter(t, past) && apart == SellerSince(t, past)
  }

  lemma BuyerStepsAlike(b: BuyerState, past: Past)
    requires BuyerAfter(b, past)
    ensures BuyerAlike(BuyerFault(b), BuyerFault(BuyerSince(b, past)), past)
    ensures forall x: Context :: BuyerAlike(BuyerLaunch(b, x), BuyerLaunch(BuyerSince(b, past), x), past)
    ensures forall p: Payload ::
      && BuyerAlike(BuyerRelay(b, p).state, BuyerRelay(BuyerSince(b, past), p).state, past)
      && BuyerRelay(b, p).sends == BuyerRelay(BuyerSince(b, past), p).sends
  {}

  lemma BuyerPublishAlike(b: BuyerState, past: Past, outcome: Outcome)
    requires BuyerAfter(b, past)
    ensures BuyerAlike(BuyerPublish(b, outcome), BuyerPublish(BuyerSince(b, past), outcome), past)
  {
    assert (b.outcomes + [outcome])[|past.outcomes|..] == b.outcomes[|past.outcomes|..] + [outcome];
  }

  lemma BuyerTimerAlike(b: BuyerState, past: Past, reference: int)
    requires BuyerAfter(b, past)
    ensures BuyerAlike(BuyerTimer(b, reference), BuyerTimer(BuyerSince(b, past), reference), past)
  {}

  lemma BuyerAcceptsAlike(b: BuyerState, past: Past, reference: int, packet: Packet)
    requires BuyerAfter(b, past)
    ensures BuyerAlike(BuyerAccepts(b, reference, packet), BuyerAccepts(BuyerSince(b, past), reference, packet), past)
  {
    hide BuyerPublish;
    hide BuyerLaunch;
    hide BuyerFault;
    var t := b.(received := packet.sequence);
    assert BuyerSince(t, past) == BuyerSince(b, past).(received := packet.sequence);
    BuyerStepsAlike(b, past);
    BuyerStepsAlike(t, past);
    BuyerPublishAlike(t, past, Cancelled);
    if packet.payload.Acceptance? { BuyerPublishAlike(t, past, Settled(packet.payload.price)); }
  }

  lemma BuyerExecuteAlike(b: BuyerState, past: Past, x: Context, reply: Option<Candidate>)
    requires BuyerAfter(b, past)
    ensures var (effect, apart) := (BuyerExecute(b, x, reply), BuyerExecute(BuyerSince(b, past), x, reply));
      BuyerAlike(effect.state, apart.state, past) && apart.sends == effect.sends
  {
    hide BuyerPublish;
    hide BuyerRelay;
    hide BuyerFault;
    BuyerPublishAlike(b, past, Cancelled);
    BuyerStepsAlike(b, past);
    if reply.Some? {
      var price := reply.value.price;
      if reply.value.Accept? {
        BuyerPublishAlike(BuyerRelay(b, Acceptance(x.round, price)).state, past, Settled(price));
      } else {
        var round := if x.current.None? then x.round else x.round + 1;
        var t := b.(lastSent := Some(Terms(round, price)));
        assert BuyerSince(t, past) == BuyerSince(b, past).(lastSent := Some(Terms(round, price)));
        BuyerStepsAlike(t, past);
      }
    }
  }

  lemma BuyerRepliesAlike(b: BuyerState, past: Past, index: nat, provider: Provider)
    requires BuyerAfter(b, past) && index < |b.pending|
    ensures var effect := BuyerReplies(b, index, provider);
      var apart := BuyerReplies(BuyerSince(b, past), index, provider);
      BuyerAlike(effect.state, apart.state, past) && apart.sends == effect.sends
  {
    hide Reply;
    hide BuyerExecute;
    hide BuyerFault;
    var t := b.(pending := b.pending[..index] + b.pending[index + 1..]);
    assert BuyerSince(t, past) == BuyerSince(b, past).(pending := t.pending);
    BuyerStepsAlike(t, past);
    if t.limit.Some? && t.offset.Some? {
      var reply := Reply(provider, b.pending[index], AtMost(t.limit.value), t.offset.value);
      BuyerExecuteAlike(t, past, b.pending[index], reply);
    }
  }

  lemma SellerAcceptsAlike(s: SellerState, past: Past, packet: Packet)
    requires SellerAfter(s, past)
    ensures SellerAlike(SellerAccepts(s, packet), SellerAccepts(SellerSince(s, past), packet), past)
  {
    forall o: Operation
      ensures (s.operations + [o])[|past.operations|..] == s.operations[|past.operations|..] + [o]
    {}
  }

  lemma SellerExecuteAlike(s: SellerState, past: Past, x: Context, reply: Option<Candidate>)
    requires SellerAfter(s, past)
    ensures var (effect, apart) := (SellerExecute(s, x, reply), SellerExecute(SellerSince(s, past), x, reply));
      SellerAlike(effect.state, apart.state, past) && apart.sends == effect.sends
  {}

  lemma SellerRepliesAlike(s: SellerState, past: Past, reference: int, index: nat, provider: Provider)
    requires SellerAfter(s, past) && index < |s.pending|
    ensures var effect := SellerReplies(s, reference, index, provider);
      var apart := SellerReplies(SellerSince(s, past), reference, index, provider);
      SellerAlike(effect.state, apart.state, past) && apart.sends == effect.sends
  {
    hide Reply;
    hide SellerExecute;
    var x := SellerContext(reference, s.pending[index]);
    var t := s.(pending := s.pending[..index] + s.pending[index + 1..]);
    assert SellerSince(t, past) == SellerSince(s, past).(pending := t.pending);
    if t.limit.Some? && t.offset.Some? {
      SellerExecuteAlike(t, past, x, Reply(provider, x, AtLeast(t.limit.value), t.offset.value));
    }
  }
}
