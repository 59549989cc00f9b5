/** Each party alone: what it keeps in a session whatever commands it gets, whatever packets arrive,
    in any order and any number, and whatever its provider answers. */
module Alone {
  import opened Pricing
  import opened Commitments
  import opened Runtimes
  import opened Sessions
  import opened Choice

  predicate Offers(p: Payload) { p.Proposal? || p.Acceptance? }

  predicate NamesPrice(p: Payload, price: int) { Offers(p) && p.price == price }

  /** The party has proposed or accepted this price. */
  predicate Named(log: seq<Packet>, price: int) {
    exists i :: 0 <= i < |log| && NamesPrice(log[i].payload, price)
  }

  /** The last proposal a party has sent. */
  function LastOffer(log: seq<Packet>): Option<Terms> {
    if log == [] then None
    else
      var last := log[|log| - 1].payload;
      if last.Proposal? then Some(Terms(last.round, last.price)) else LastOffer(log[..|log| - 1])
  }

  /** Packets of one session and sender, numbered from one. */
  predicate Numbered(log: seq<Packet>, room: Room, sender: Role) {
    forall i :: 0 <= i < |log| ==> log[i].room == room && log[i].sender == sender && log[i].sequence == i + 1
  }

  predicate Within(log: seq<Packet>, policy: Policy) {
    forall i :: 0 <= i < |log| && Offers(log[i].payload) ==> WithinLimit(policy, log[i].payload.price)
  }

  lemma LogGrows(log: seq<Packet>, packet: Packet)
    ensures LastOffer(log + [packet]) ==
      if packet.payload.Proposal? then Some(Terms(packet.payload.round, packet.payload.price)) else LastOffer(log)
    ensures forall price :: Named(log, price) || NamesPrice(packet.payload, price) ==> Named(log + [packet], price)
  {
    var all := log + [packet];
    assert all[..|log|] == log;
    forall price | Named(log, price) || NamesPrice(packet.payload, price) ensures Named(all, price) {
      if NamesPrice(packet.payload, price) {
        assert NamesPrice(all[|log|].payload, price);
      } else {
        var i :| 0 <= i < |log| && NamesPrice(log[i].payload, price);
        assert NamesPrice(all[i].payload, price);
      }
    }
  }

  lemma {:induction false} LastOfferIsNamed(log: seq<Packet>)
    ensures LastOffer(log).Some? ==> Named(log, LastOffer(log).value.price)
  {
    if log != [] {
      var init, last := log[..|log| - 1], log[|log| - 1];
      assert log == init + [last];
      LastOfferIsNamed(init);
      LogGrows(init, last);
    }
  }

  // ---- The Seller ----

  datatype SellerMove =
    | SellerLimit(room: Room, limit: int)
    | SellerKey(room: Room, offset: int)
    | SellerPeer(room: Room)
    | SellerHears(packet: Packet)
    | SellerAnswers(index: nat, provider: Provider)

  /** The state and the packets sent since the session was joined. */
  datatype SellerRun = SellerRun(state: SellerState, log: seq<Packet>)

  function SellerDo(reference: int, r: SellerRun, move: SellerMove): SellerRun {
    match move
    case SellerLimit(room, limit) => r.(state := SellerSetLimit(r.state, room, limit))
    case SellerKey(room, offset) => r.(state := SellerPeerKey(r.state, room, offset))
    case SellerPeer(room) => r.(state := SellerPeerReady(r.state, room))
    case SellerHears(packet) => r.(state := SellerAccepts(r.state, packet))
    case SellerAnswers(index, provider) =>
      if |r.state.pending| <= index then r
      else
        var effect := SellerReplies(r.state, reference, index, provider);
        SellerRun(effect.state, r.log + effect.sends)
  }

  function SellerGoes(reference: int, start: SellerState, moves: seq<SellerMove>): SellerRun {
    if moves == [] then SellerRun(start, [])
    else SellerDo(reference, SellerGoes(reference, start, moves[..|moves| - 1]), moves[|moves| - 1])
  }

  /** Operations launched in this session, and those of earlier ones. */
  predicate LaunchedFor(operations: seq<Operation>, before: nat, log: seq<Packet>) {
    forall i :: before <= i < |operations| && operations[i].SettleOnChain? ==> Named(log, operations[i].price)
  }

  predicate SellerKeeps(r: SellerRun, room: Room, earlier: seq<Operation>) {
    var s := r.state;
    && s.room == Some(room) && s.sent == |r.log| && Numbered(r.log, room, Seller)
    && s.lastSent == LastOffer(r.log)
    && (s.limit.None? ==> r.log == [] && s.agreed.None?)
    && (s.limit.Some? ==> Within(r.log, AtLeast(s.limit.value)))
    && (s.agreed.Some? ==> Named(r.log, s.agreed.value))
    && earlier <= s.operations && LaunchedFor(s.operations, |earlier|, r.log)
  }

  lemma SellerHearing(r: SellerRun, room: Room, earlier: seq<Operation>, packet: Packet)
    requires SellerKeeps(r, room, earlier)
    ensures SellerKeeps(r.(state := SellerAccepts(r.state, packet)), room, earlier)
  {
    hide LastOffer;
    hide Numbered;
    hide Within;
    hide Named;
    LastOfferIsNamed(r.log);
  }

  lemma SellerSending(r: SellerRun, room: Room, earlier: seq<Operation>, agreed: Option<int>, lastSent: Option<Terms>,
      p: Payload)
    requires SellerKeeps(r, room, earlier) && r.state.offset.Some? && r.state.limit.Some?
    requires Offers(p) ==> r.state.limit.value <= p.price
    requires agreed == r.state.agreed || (p.Acceptance? && agreed == Some(p.price))
    requires lastSent == if p.Proposal? then Some(Terms(p.round, p.price)) else r.state.lastSent
    ensures var effect := SellerRelay(r.state.(agreed := agreed, lastSent := lastSent), p);
      && |effect.sends| == 1 && effect.sends[0].payload == p
      && SellerKeeps(SellerRun(effect.state, r.log + effect.sends), room, earlier)
  {
    hide LastOffer;
    hide Named;
    LogGrows(r.log, Packet(room, Seller, r.state.sent + 1, p));
  }

  lemma SellerAnswering(reference: int, r: SellerRun, room: Room, earlier: seq<Operation>, index: nat,
      provider: Provider)
    requires SellerKeeps(r, room, earlier) && index < |r.state.pending|
    ensures SellerKeeps(SellerDo(reference, r, SellerAnswers(index, provider)), room, earlier)
  {
    hide SellerRelay;
    hide Reply;
    hide Named;
    hide LastOffer;
    hide Numbered;
    hide Within;
    var c := SellerContext(reference, r.state.pending[index]);
    var t := r.state.(pending := r.state.pending[..index] + r.state.pending[index + 1..]);
    var u := r.(state := t);
    assert SellerKeeps(u, room, earlier);
    assert r.log + [] == r.log;
    if t.limit.Some? && t.offset.Some? && ValidContext(c) {
      var policy := AtLeast(t.limit.value);
      var reply := Reply(provider, c, policy, t.offset.value);
      ReplyIsPermitted(provider, c, policy, t.offset.value);
      if reply.None? {
        SellerSending(u, room, earlier, t.agreed, t.lastSent, Decline(c.round));
      } else if reply.value.Accept? {
        SellerSending(u, room, earlier, Some(reply.value.price), t.lastSent, Acceptance(c.round, reply.value.price));
      } else {
        var terms := Terms(c.round, reply.value.price);
        SellerSending(u, room, earlier, t.agreed, Some(terms), Proposal(c.round, reply.value.price));
      }
    }
  }

  lemma {:induction false} SellerGoesOn(reference: int, s: SellerState, room: Room, moves: seq<SellerMove>)
    ensures SellerKeeps(SellerGoes(reference, SellerJoin(s, room), moves), room, s.operations)
  {
    if moves != [] {
      var init, last := moves[..|moves| - 1], moves[|moves| - 1];
      var r := SellerGoes(reference, SellerJoin(s, room), init);
      SellerGoesOn(reference, s, room, init);
      match last
      case SellerHears(packet) => SellerHearing(r, room, s.operations, packet);
      case SellerAnswers(index, provider) =>
        if index < |r.state.pending| { SellerAnswering(reference, r, room, s.operations, index, provider); }
      case _ =>
    }
  }

  /** Whatever happens, the Seller settles only for prices it has named itself, and names none below the
      limit it locked. */
  lemma SellerKeepsItsWord(reference: int, s: SellerState, room: Room, moves: seq<SellerMove>)
    requires SellerRests(s)
    ensures var (r, before) := (SellerGoes(reference, SellerJoin(s, room), moves), |s.operations|);
      && before <= |r.state.operations|
      && (forall i :: before <= i < |r.state.operations| && r.state.operations[i].SettleOnChain? ==>
            Named(r.log, r.state.operations[i].price))
      && (forall i :: 0 <= i < |r.log| && Offers(r.log[i].payload) ==>
            r.state.limit.Some? && r.state.limit.value <= r.log[i].payload.price)
      && (forall i :: 0 <= i < |r.log| ==> r.log[i].room == room && r.log[i].sequence == i + 1)
  {
    hide SellerGoes;
    SellerGoesOn(reference, s, room, moves);
  }

  /** What one move may launch, agree on, or lock. */
  lemma SellerMovesSafely(reference: int, s: SellerState, room: Room, moves: seq<SellerMove>, move: SellerMove)
    requires SellerRests(s)
    ensures var r := SellerGoes(reference, SellerJoin(s, room), moves);
      var (old', new', log) := (r.state, SellerDo(reference, r, move).state, SellerDo(reference, r, move).log);
      && (old'.limit.Some? ==> new'.limit == old'.limit)
      // It settles exactly when the opening names the price it has agreed on, and cancels on any other.
      && (new'.operations == old'.operations ||
          (move.SellerHears? && move.packet.payload.PriceOpening? &&
           new'.operations == old'.operations +
             [if old'.agreed == Some(move.packet.payload.price)
              then SettleOnChain(move.packet.payload.price, move.packet.payload.randomness) else CancelOnChain]))
      // It agrees on its own last offer, when that is accepted, or on what it accepts itself.
      && (new'.agreed == old'.agreed ||
          (move.SellerHears? && old'.agreed.None? && LastOffer(r.log).Some? &&
           new'.agreed == Some(LastOffer(r.log).value.price) &&
           move.packet.payload == Acceptance(LastOffer(r.log).value.round, LastOffer(r.log).value.price)) ||
          (move.SellerAnswers? && |log| == |r.log| + 1 && log[|r.log|].payload.Acceptance? &&
           new'.agreed == Some(log[|r.log|].payload.price)))
  {
    hide SellerGoes;
    hide Reply;
    hide LastOffer;
    SellerGoesOn(reference, s, room, moves);
  }

  /** A packet either counts as the next of this room's Buyer or changes nothing but the faults. */
  lemma SellerHearsInOrder(s: SellerState, packet: Packet)
    ensures var t := SellerAccepts(s, packet);
      if s.room == Some(packet.room) && packet.sender == Buyer && s.received < packet.sequence &&
         s.offset.Some? && WellFormed(packet.payload)
      then t.received == packet.sequence && t.faults <= s.faults + 1
      else t == s.(faults := s.faults + 1)
  {}

  predicate StandsBy(start: SellerState, r: SellerRun) {
    && start.agreed.Some? && r.state.agreed == start.agreed && r.state.pending == [] && r.log == []
    && start.operations <= r.state.operations
    && forall i :: |start.operations| <= i < |r.state.operations| && r.state.operations[i].SettleOnChain? ==>
         r.state.operations[i].price == start.agreed.value
  }

  lemma StandingByGoesOn(reference: int, start: SellerState, r: SellerRun, move: SellerMove)
    requires StandsBy(start, r)
    ensures StandsBy(start, SellerDo(reference, r, move))
  {
    hide SellerReplies;
  }

  /** Once the Seller has agreed and computes nothing more, the agreement stands: whatever comes, it
      proposes and accepts nothing, and it settles for that price only. */
  lemma {:induction false} AgreementStands(reference: int, s: SellerState, moves: seq<SellerMove>)
    requires s.agreed.Some? && s.pending == []
    ensures StandsBy(s, SellerGoes(reference, s, moves))
  {
    hide SellerDo;
    if moves != [] {
      var init := moves[..|moves| - 1];
      AgreementStands(reference, s, init);
      StandingByGoesOn(reference, s, SellerGoes(reference, s, init), moves[|moves| - 1]);
    }
  }

  /** A provider that accepts whatever is on the table. */
  const EAGER: Provider :=
    (x: Context, k: nat) => if x.current.Some? then Candidates([Accept(x.current.value.price)]) else Failed

  lemma EagerAccepts(x: Context, policy: Policy, offset: int)
    requires CanShift(x, offset) && x.current.Some? && Fits(x, policy, offset, Accept(x.current.value.price))
    ensures Reply(EAGER, x, policy, offset) == Some(Accept(x.current.value.price))
  {
    hide Fits;
    var asked := x.current.value.price - offset;
    assert EAGER(Asked(x, offset), 0) == Candidates([Accept(asked)]);
    assert Actual(Accept(asked), offset) == Accept(x.current.value.price);
    assert FitsAt(EAGER, x, policy, offset, 0, 0);
    FirstFitIsChosen(EAGER, x, policy, offset, 0, 0);
  }

  /** A proposal of round 1 far above the Seller's ladder, with reference 100000 and no offset. */
  lemma EagerSellerAgrees(s: SellerState, price: int)
    requires s.room.Some? && s.limit == Some(80_000) && s.offset == Some(0)
    requires s.pending != [] && s.pending[0] == Terms(1, price) && 140_000 <= price <= 150_000
    ensures var effect := SellerReplies(s, 100_000, 0, EAGER);
      effect.state == s.(pending := s.pending[1..], agreed := Some(price), sent := s.sent + 1)
  {
    hide Reply;
    var x := SellerContext(100_000, s.pending[0]);
    assert NextRung(x) == Some(110_000);
    EagerAccepts(x, AtLeast(80_000), 0);
    assert s.pending[..0] + s.pending[1..] == s.pending[1..];
  }

  /** With two replies under way the second one moves the agreement, so the Seller may be held to
      either price: both are its own word, and both are within its limit. */
  lemma TwoRepliesMoveTheAgreement(s: SellerState)
    requires s.room.Some? && s.limit == Some(80_000) && s.offset == Some(0)
    requires s.pending == [Terms(1, 150_000), Terms(1, 140_000)]
    ensures var (once, twice) := ([SellerAnswers(0, EAGER)], [SellerAnswers(0, EAGER), SellerAnswers(0, EAGER)]);
      && SellerGoes(100_000, s, once).state.agreed == Some(150_000)
      && SellerGoes(100_000, s, twice).state.agreed == Some(140_000)
  {
    hide SellerReplies;
    EagerSellerAgrees(s, 150_000);
    var move := SellerAnswers(0, EAGER);
    assert [move][..0] == [] && [move, move][..1] == [move];
    assert SellerGoes(100_000, s, []) == SellerRun(s, []);
    var t := SellerGoes(100_000, s, [move]).state;
    assert t == SellerReplies(s, 100_000, 0, EAGER).state && t.pending == [Terms(1, 140_000)];
    EagerSellerAgrees(t, 140_000);
  }

  // ---- The Buyer ----

  datatype BuyerMove =
    | BuyerLimit(room: Room, limit: int)
    | BuyerKey(room: Room, offset: int)
    | BuyerPeer(room: Room)
    | BuyerStarts
    | BuyerTimerFires
    | BuyerHears(packet: Packet)
    | BuyerAnswers(index: nat, provider: Provider)

  datatype BuyerRun = BuyerRun(state: BuyerState, log: seq<Packet>)

  function BuyerDo(reference: int, r: BuyerRun, move: BuyerMove): BuyerRun {
    match move
    case BuyerLimit(room, limit) => r.(state := BuyerSetLimit(r.state, room, limit))
    case BuyerKey(room, offset) => r.(state := BuyerPeerKey(r.state, room, offset))
    case BuyerPeer(room) => r.(state := BuyerPeerReady(r.state, room))
    case BuyerStarts => r.(state := BuyerStart(r.state))
    case BuyerTimerFires => r.(state := BuyerTimer(r.state, reference))
    case BuyerHears(packet) => r.(state := BuyerAccepts(r.state, reference, packet))
    case BuyerAnswers(index, provider) =>
      if |r.state.pending| <= index then r
      else
        var effect := BuyerReplies(r.state, index, provider);
        BuyerRun(effect.state, r.log + effect.sends)
  }

  function BuyerGoes(reference: int, start: BuyerState, moves: seq<BuyerMove>): BuyerRun {
    if moves == [] then BuyerRun(start, [])
    else BuyerDo(reference, BuyerGoes(reference, start, moves[..|moves| - 1]), moves[|moves| - 1])
  }

  /** One outcome at most, and a settlement only for a price the Buyer has named. */
  predicate PublishedOnce(s: BuyerState, log: seq<Packet>, earlier: seq<Outcome>) {
    if !s.finished then s.outcomes == earlier
    else
      && |s.outcomes| == |earlier| + 1 && earlier <= s.outcomes
      && (s.outcomes[|earlier|].Settled? ==> Named(log, s.outcomes[|earlier|].amount))
  }

  predicate BuyerKeeps(r: BuyerRun, room: Room, earlier: seq<Outcome>) {
    var s := r.state;
    && s.room == Some(room) && s.sent == |r.log| && Numbered(r.log, room, Buyer)
    && s.lastSent == LastOffer(r.log)
    && (s.limit.None? ==> r.log == [])
    && (s.limit.Some? ==> Within(r.log, AtMost(s.limit.value)))
    && PublishedOnce(s, r.log, earlier)
  }

  /** What the invariant looks at. */
  predicate Alike(s: BuyerState, t: BuyerState) {
    s == t.(offset := s.offset, peerReady := s.peerReady, started := s.started, timer := s.timer,
            received := s.received, pending := s.pending, faults := s.faults)
  }

  lemma AlikeKeeps(r: BuyerRun, room: Room, earlier: seq<Outcome>, t: BuyerState)
    requires BuyerKeeps(r, room, earlier) && Alike(r.state, t)
    ensures BuyerKeeps(r.(state := t), room, earlier)
  {
    hide LastOffer;
    hide Numbered;
    hide Within;
    hide Named;
  }

  lemma LaunchingIsAlike(s: BuyerState, c: Context)
    ensures Alike(s, BuyerLaunch(s, c)) && Alike(s, BuyerFault(s))
  {}

  lemma BuyerHearing(reference: int, r: BuyerRun, room: Room, earlier: seq<Outcome>, packet: Packet)
    requires BuyerKeeps(r, room, earlier)
    ensures BuyerKeeps(r.(state := BuyerAccepts(r.state, reference, packet)), room, earlier)
  {
    hide Named;
    hide BuyerPublish;
    hide BuyerLaunch;
    var s, p, result := r.state, packet.payload, BuyerAccepts(r.state, reference, packet);
    var t := s.(received := packet.sequence);
    var u := r.(state := t);
    forall c ensures Alike(t, BuyerLaunch(t, c)) { LaunchingIsAlike(t, c); }
    if Alike(s, result) {
      AlikeKeeps(r, room, earlier, result);
    } else {
      AlikeKeeps(r, room, earlier, t);
      hide BuyerKeeps;
      if p.Acceptance? {
        assert LastOffer(r.log) == Some(Terms(p.round, p.price)) by { KeepsOffer(r, room, earlier); }
        LastOfferIsNamed(r.log);
        BuyerPublishing(u, room, earlier, Settled(p.price));
      } else {
        BuyerPublishing(u, room, earlier, Cancelled);
      }
    }
  }

  lemma KeepsOffer(r: BuyerRun, room: Room, earlier: seq<Outcome>)
    requires BuyerKeeps(r, room, earlier)
    ensures r.state.lastSent == LastOffer(r.log)
  {}

  lemma BuyerSending(r: BuyerRun, room: Room, earlier: seq<Outcome>, lastSent: Option<Terms>, p: Payload)
    requires BuyerKeeps(r, room, earlier) && r.state.offset.Some? && r.state.limit.Some?
    requires Offers(p) ==> p.price <= r.state.limit.value
    requires lastSent == if p.Proposal? then Some(Terms(p.round, p.price)) else r.state.lastSent
    ensures var effect := BuyerRelay(r.state.(lastSent := lastSent), p);
      && effect.sends == [Packet(room, Buyer, r.state.sent + 1, p)]
      && effect.state == r.state.(lastSent := lastSent, sent := r.state.sent + 1)
      && BuyerKeeps(BuyerRun(effect.state, r.log + effect.sends), room, earlier)
      && (Offers(p) ==> Named(r.log + effect.sends, p.price))
  {
    hide LastOffer;
    hide Named;
    LogGrows(r.log, Packet(room, Buyer, r.state.sent + 1, p));
    assert Offers(p) ==> NamesPrice(p, p.price);
  }

  lemma BuyerPublishing(r: BuyerRun, room: Room, earlier: seq<Outcome>, outcome: Outcome)
    requires BuyerKeeps(r, room, earlier) && (outcome.Settled? ==> Named(r.log, outcome.amount))
    ensures BuyerKeeps(r.(state := BuyerPublish(r.state, outcome)), room, earlier)
  {
    hide LastOffer;
    hide Numbered;
    hide Within;
    hide Named;
  }

  lemma BuyerAnswering(reference: int, r: BuyerRun, room: Room, earlier: seq<Outcome>, index: nat, provider: Provider)
    requires BuyerKeeps(r, room, earlier) && index < |r.state.pending|
    ensures BuyerKeeps(BuyerDo(reference, r, BuyerAnswers(index, provider)), room, earlier)
  {
    hide BuyerRelay;
    hide BuyerPublish;
    hide Reply;
    hide Named;
    hide LastOffer;
    hide Numbered;
    hide Within;
    var c := r.state.pending[index];
    var t := r.state.(pending := r.state.pending[..index] + r.state.pending[index + 1..]);
    var u := r.(state := t);
    assert BuyerKeeps(u, room, earlier);
    assert r.log + [] == r.log;
    BuyerPublishing(u, room, earlier, Cancelled);
    if t.limit.Some? && t.offset.Some? && ValidContext(c) {
      var policy := AtMost(t.limit.value);
      var reply := Reply(provider, c, policy, t.offset.value);
      ReplyIsPermitted(provider, c, policy, t.offset.value);
      if reply.Some? {
        var price := reply.value.price;
        if reply.value.Accept? {
          BuyerSending(u, room, earlier, t.lastSent, Acceptance(c.round, price));
          var effect := BuyerRelay(t, Acceptance(c.round, price));
          BuyerPublishing(BuyerRun(effect.state, r.log + effect.sends), room, earlier, Settled(price));
        } else {
          var round := if c.current.None? then c.round else c.round + 1;
          BuyerSending(u, room, earlier, Some(Terms(round, price)), Proposal(round, price));
        }
      }
    }
  }

  lemma {:induction false} BuyerGoesOn(reference: int, s: BuyerState, room: Room, moves: seq<BuyerMove>)
    ensures BuyerKeeps(BuyerGoes(reference, BuyerJoin(s, room), moves), room, s.outcomes)
  {
    if moves != [] {
      var init, last := moves[..|moves| - 1], moves[|moves| - 1];
      var r := BuyerGoes(reference, BuyerJoin(s, room), init);
      BuyerGoesOn(reference, s, room, init);
      BuyerMoving(reference, r, room, s.outcomes, last);
    }
  }

  lemma BuyerMoving(reference: int, r: BuyerRun, room: Room, earlier: seq<Outcome>, move: BuyerMove)
    requires BuyerKeeps(r, room, earlier)
    ensures BuyerKeeps(BuyerDo(reference, r, move), room, earlier)
  {
    hide BuyerAccepts;
    hide BuyerReplies;
    match move
    case BuyerHears(packet) => BuyerHearing(reference, r, room, earlier, packet);
    case BuyerAnswers(index, provider) =>
      if index < |r.state.pending| { BuyerAnswering(reference, r, room, earlier, index, provider); }
    case BuyerLimit(_, _) =>
      hide Named;
      hide LastOffer;
    case _ => AlikeKeeps(r, room, earlier, BuyerDo(reference, r, move).state);
  }

  /** Whatever happens, the Buyer publishes one outcome at most, a settlement only for a price it has
      named itself, and it names none above the limit it locked. */
  lemma BuyerKeepsItsWord(reference: int, s: BuyerState, room: Room, moves: seq<BuyerMove>)
    requires BuyerRests(s)
    ensures var (r, before) := (BuyerGoes(reference, BuyerJoin(s, room), moves), |s.outcomes|);
      && before <= |r.state.outcomes| <= before + 1
      && (|r.state.outcomes| == before + 1 && r.state.outcomes[before].Settled? ==>
            Named(r.log, r.state.outcomes[before].amount))
      && (forall i :: 0 <= i < |r.log| && Offers(r.log[i].payload) ==>
            r.state.limit.Some? && r.log[i].payload.price <= r.state.limit.value)
      && (forall i :: 0 <= i < |r.log| ==> r.log[i].room == room && r.log[i].sequence == i + 1)
  {
    hide BuyerGoes;
    BuyerGoesOn(reference, s, room, moves);
  }

  /** The peer has accepted the Buyer's own last offer, or the Buyer has accepted one itself. */
  predicate BuyerCloses(r: BuyerRun, move: BuyerMove, t: BuyerRun, price: int) {
    || (move.BuyerHears? && LastOffer(r.log).Some? && price == LastOffer(r.log).value.price &&
        move.packet.payload == Acceptance(LastOffer(r.log).value.round, price))
    || (move.BuyerAnswers? && |t.log| == |r.log| + 1 && t.log[|r.log|].payload.Acceptance? &&
        t.log[|r.log|].payload.price == price)
  }

  /** The limit never changes once locked, an outcome never once published, and a settlement is only
      published for a price the Buyer closes on. */
  predicate BuyerMovedSafely(r: BuyerRun, move: BuyerMove, t: BuyerRun) {
    var (old', new') := (r.state, t.state);
    && (old'.limit.Some? ==> new'.limit == old'.limit)
    && (old'.finished ==> new'.finished)
    && (new'.outcomes == old'.outcomes ||
        (|new'.outcomes| == |old'.outcomes| + 1 && old'.outcomes <= new'.outcomes && !old'.finished && new'.finished &&
         (new'.outcomes[|old'.outcomes|].Settled? ==>
            BuyerCloses(r, move, t, new'.outcomes[|old'.outcomes|].amount))))
  }

  lemma BuyerStepIsSafe(reference: int, r: BuyerRun, room: Room, earlier: seq<Outcome>, move: BuyerMove)
    requires BuyerKeeps(r, room, earlier)
    ensures BuyerMovedSafely(r, move, BuyerDo(reference, r, move))
  {
    hide BuyerReplies;
    hide BuyerAccepts;
    hide BuyerLaunch;
    KeepsOffer(r, room, earlier);
    hide BuyerKeeps;
    hide LastOffer;
    match move
    case BuyerHears(packet) => BuyerHearingIsSafe(reference, r, packet);
    case BuyerAnswers(index, provider) =>
      if index < |r.state.pending| { BuyerAnswerIsSafe(reference, r, index, provider); }
    case BuyerTimerFires =>
      var t := r.state.(timer := false);
      forall c ensures Alike(t, BuyerLaunch(t, c)) { LaunchingIsAlike(t, c); }
    case _ =>
  }

  lemma BuyerHearingIsSafe(reference: int, r: BuyerRun, packet: Packet)
    requires r.state.lastSent == LastOffer(r.log)
    ensures BuyerMovedSafely(r, BuyerHears(packet), BuyerDo(reference, r, BuyerHears(packet)))
  {
    hide BuyerLaunch;
    hide BuyerPublish;
    hide WellFormed;
    var s, p, move := r.state, packet.payload, BuyerHears(packet);
    var t := s.(received := packet.sequence);
    forall c ensures Alike(t, BuyerLaunch(t, c)) { LaunchingIsAlike(t, c); }
    var result := BuyerAccepts(s, reference, packet);
    if !Alike(s, result) {
      var outcome := if p.Acceptance? then Settled(p.price) else Cancelled;
      assert result == BuyerPublish(t, outcome);
      assert p.Acceptance? ==> s.lastSent == Some(Terms(p.round, p.price));
      PublishingIsSafe(r, move, r.(state := t), outcome);
    }
  }

  lemma PublishingIsSafe(r: BuyerRun, move: BuyerMove, t: BuyerRun, outcome: Outcome)
    requires t.state == r.state.(received := t.state.received, pending := t.state.pending, sent := t.state.sent)
    requires outcome.Settled? ==> BuyerCloses(r, move, t, outcome.amount)
    ensures BuyerMovedSafely(r, move, t.(state := BuyerPublish(t.state, outcome)))
  {
    hide LastOffer;
  }

  lemma BuyerAnswerIsSafe(reference: int, r: BuyerRun, index: nat, provider: Provider)
    requires index < |r.state.pending|
    ensures var move := BuyerAnswers(index, provider); BuyerMovedSafely(r, move, BuyerDo(reference, r, move))
  {
    hide Reply;
    hide LastOffer;
    hide ValidContext;
    hide BuyerPublish;
    var s, x, move := r.state, r.state.pending[index], BuyerAnswers(index, provider);
    var t := s.(pending := s.pending[..index] + s.pending[index + 1..]);
    PublishingIsSafe(r, move, BuyerRun(t, r.log), Cancelled);
    assert r.log + [] == r.log;
    if t.limit.Some? && t.offset.Some? && t.room.Some? {
      var reply := Reply(provider, x, AtMost(t.limit.value), t.offset.value);
      if reply.Some? && reply.value.Accept? {
        var effect := BuyerRelay(t, Acceptance(x.round, reply.value.price));
        PublishingIsSafe(r, move, BuyerRun(effect.state, r.log + effect.sends), Settled(reply.value.price));
      }
    }
  }

  lemma BuyerMovesSafely(reference: int, s: BuyerState, room: Room, moves: seq<BuyerMove>, move: BuyerMove)
    requires BuyerRests(s)
    ensures var r := BuyerGoes(reference, BuyerJoin(s, room), moves);
      BuyerMovedSafely(r, move, BuyerDo(reference, r, move))
  {
    hide BuyerGoes;
    hide BuyerKeeps;
    hide BuyerDo;
    BuyerGoesOn(reference, s, room, moves);
    BuyerStepIsSafe(reference, BuyerGoes(reference, BuyerJoin(s, room), moves), room, s.outcomes, move);
  }

  /** A packet either counts as the next of this room's Seller or changes nothing but the faults. */
  lemma BuyerHearsInOrder(s: BuyerState, reference: int, packet: Packet)
    ensures var t := BuyerAccepts(s, reference, packet);
      if s.room == Some(packet.room) && packet.sender == Seller && s.received < packet.sequence &&
         s.offset.Some? && WellFormed(packet.payload) && !packet.payload.PriceOpening?
      then t.received == packet.sequence && t.faults <= s.faults + 1
      else t == s.(faults := s.faults + 1)
  {}
}
