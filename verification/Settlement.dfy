/** The bargaining runtimes together with the contract: the Buyer authorises the agreed price and
    then opens it to the Seller, who checks it against its own agreed price before settling. Any
    chain call may be lost, or land without its caller learning of it. */
module Settlement {
  import opened Pricing
  import opened Ladder
  import opened Commitments
  import Contract
  import opened Runtimes
  import opened Bargain

  datatype Deal = Deal(
    session: Session, dealId: Bytes32, buyerSecret: Bytes32, buyerRandomness: Bytes32, priceRandomness: Bytes32,
    sellerSecret: Bytes32, sellerRandomness: Bytes32)

  /** How far the Buyer's one chain operation has come. */
  datatype BuyerStage = Idle | Stored(price: Uint64) | Confirmed(confirmedPrice: Uint64) | Finished | Broken

  datatype SellerStage = NotSettling | OpeningStored(price: Uint64, randomness: Bytes32) | Cancelling | Ended

  /** Each party's private store holds at most the opening of its contract. */
  datatype World = World(
    system: System, ledger: Contract.Ledger, buyerStage: BuyerStage, sellerStage: SellerStage,
    buyerStore: Option<Opening>, sellerStore: Option<Opening>)

  datatype Step =
    | Bargaining(event: Event)
    | BuyerStores
    | BuyerAuthorizes(landed: bool, confirmed: bool)
    | BuyerOpens
    | BuyerCancels(landed: bool)
    | BuyerBreaks
    | SellerStores
    | SellerSettles(landed: bool, confirmed: bool)
    | SellerBreaks
    | SellerCancels(landed: bool)
    | Outsider(call: Contract.Call)

  predicate ValidDeal(d: Deal) {
    ValidSession(d.session)
  }

  /** Deployed by the Buyer and joined by the Seller, both with their real limits. */
  function Joined(d: Deal): Contract.Ledger
    requires ValidDeal(d)
  {
    var buyerKey := PublicKey(d.buyerSecret);
    var deployed := Contract.Deployed(d.dealId, buyerKey, PublicKey(d.sellerSecret),
                                      LimitCommitment(d.dealId, BUYER_DOMAIN, buyerKey, d.session.buyerMax,
                                        d.buyerRandomness));
    Contract.After(deployed, Contract.JoinDeal(d.sellerSecret, d.session.sellerMin, d.sellerRandomness))
  }

  function Start(d: Deal): World
    requires ValidDeal(d)
  {
    World(Ready(d.session), Joined(d), Idle, NotSettling, None, None)
  }

  function Outcome0(s: System): Option<Outcome> {
    if s.buyer.outcomes == [] then None else Some(s.buyer.outcomes[0])
  }

  predicate IsUint64(x: int) { 0 <= x <= MAX_KRW }

  function AuthorizeCall(d: Deal, price: Uint64): Contract.Call
    requires ValidDeal(d)
  {
    Contract.AuthorizeHiddenPrice(d.buyerSecret, d.session.buyerMax, d.buyerRandomness, price, d.priceRandomness)
  }

  function SettleCall(d: Deal, price: Uint64, randomness: Bytes32): Contract.Call
    requires ValidDeal(d)
  {
    Contract.Settle(d.sellerSecret, d.session.sellerMin, d.sellerRandomness, price, randomness)
  }

  function Land(w: World, landed: bool, call: Contract.Call): Contract.Ledger {
    if landed then Contract.After(w.ledger, call) else w.ledger
  }

  /** The Seller has launched its settlement and not yet stored the opening. */
  predicate MaySettle(w: World) {
    && w.sellerStage.NotSettling?
    && w.system.seller.operations != [] && w.system.seller.operations[0].SettleOnChain?
  }

  /** A party whose step fails, before or after it stored its opening, breaks off; the Seller then cancels. */
  function Do(d: Deal, w: World, step: Step): World
    requires ValidDeal(d)
  {
    var operations := w.system.seller.operations;
    match step
    case Bargaining(e) => if e.Open? then w else w.(system := Next(d.session, w.system, e))
    case BuyerStores =>
      if !w.buyerStage.Idle? || Outcome0(w.system).None? || Outcome0(w.system).value.Cancelled? then w
      else if !IsUint64(Outcome0(w.system).value.amount) then w.(buyerStage := Broken)
      else
        var price := Outcome0(w.system).value.amount;
        w.(buyerStage := Stored(price), buyerStore := Some(Opening(price, d.priceRandomness)))
    case BuyerAuthorizes(landed, confirmed) =>
      if !w.buyerStage.Stored? then w
      else
        var call := AuthorizeCall(d, w.buyerStage.price);
        w.(ledger := Land(w, landed, call),
           buyerStage :=
             if landed && confirmed && Contract.Accepted(w.ledger, call) then Confirmed(w.buyerStage.price) else Broken)
    case BuyerOpens =>
      if w.buyerStage.Confirmed? && MayOpen(w.system)
      then w.(system := Next(d.session, w.system, Open(d.priceRandomness)), buyerStage := Finished) else w
    case BuyerCancels(landed) =>
      if w.buyerStage.Idle? && Outcome0(w.system) == Some(Runtimes.Cancelled)
      then w.(ledger := Land(w, landed, Contract.CancelAsBuyer(d.buyerSecret)), buyerStage := Finished) else w
    case BuyerBreaks => if w.buyerStage.Finished? then w else w.(buyerStage := Broken)
    case SellerStores =>
      if !MaySettle(w) then w
      else if !IsUint64(operations[0].price) then w.(sellerStage := Cancelling)
      else
        w.(sellerStage := OpeningStored(operations[0].price, operations[0].randomness),
           sellerStore := Some(Opening(operations[0].price, operations[0].randomness)))
    case SellerSettles(landed, confirmed) =>
      if !w.sellerStage.OpeningStored? then w
      else
        var call := SettleCall(d, w.sellerStage.price, w.sellerStage.randomness);
        w.(ledger := Land(w, landed, call),
           sellerStage := if landed && confirmed && Contract.Accepted(w.ledger, call) then Ended else Cancelling)
    case SellerBreaks => if w.sellerStage.OpeningStored? || MaySettle(w) then w.(sellerStage := Cancelling) else w
    case SellerCancels(landed) =>
      if w.sellerStage.Cancelling? || (w.sellerStage.NotSettling? && CancelOnChain in operations)
      then w.(ledger := Land(w, landed, Contract.CancelAsSeller(d.sellerSecret)), sellerStage := Ended) else w
    case Outsider(call) =>
      if call.secret == d.buyerSecret || call.secret == d.sellerSecret then w
      else w.(ledger := Contract.After(w.ledger, call))
  }

  function Execute(d: Deal, steps: seq<Step>): World
    requires ValidDeal(d)
  {
    if steps == [] then Start(d) else Do(d, Execute(d, steps[..|steps| - 1]), steps[|steps| - 1])
  }

  // ---- The invariant ----

  predicate SettledAt(s: System, price: int) {
    s.buyer.outcomes == [Settled(price)]
  }

  /** Openings in flight and accepted openings carry the Buyer's price randomness. */
  predicate OpeningsAreTheBuyers(d: Deal, s: System) {
    && (forall p <- s.toSeller :: p.payload.PriceOpening? ==> p.payload.randomness == d.priceRandomness)
    && (forall o <- s.seller.operations :: o.SettleOnChain? && o.randomness == d.priceRandomness)
    && (s.openingSent ==> s.buyer.finished) && (s.seller.operations != [] ==> s.openingSent)
  }

  predicate LedgerFits(d: Deal, w: World)
    requires ValidDeal(d)
  {
    var l, start := w.ledger, Joined(d);
    && l.(priceCommitment := start.priceCommitment, status := start.status) == start
    && l.status != Contract.WaitingSeller
    && (l.status in {Contract.Authorized, Contract.Settled} ==>
          && |w.system.buyer.outcomes| == 1 && w.system.buyer.outcomes[0].Settled? &&
            IsUint64(w.system.buyer.outcomes[0].amount)
          && l.priceCommitment == PriceCommitment(d.dealId, w.system.buyer.outcomes[0].amount, d.priceRandomness))
    && (l.status == Contract.Settled ==> w.system.seller.operations != [])
  }

  /** A party stores its opening before the chain call that needs it. */
  predicate StoresFit(d: Deal, w: World)
    requires ValidDeal(d)
  {
    var agreed := Outcome0(w.system);
    var fit :=
      if agreed.Some? && agreed.value.Settled? && IsUint64(agreed.value.amount)
      then Some(Opening(agreed.value.amount, d.priceRandomness))
      else None;
    && (w.buyerStore.Some? ==> w.buyerStore == fit)
    && (w.sellerStore.Some? ==> w.sellerStore == fit)
    && (w.buyerStage.Stored? || w.buyerStage.Confirmed? ==> w.buyerStore.Some?)
    && (w.ledger.status in {Contract.Authorized, Contract.Settled} ==> w.buyerStore.Some?)
    && (w.sellerStage.OpeningStored? || w.ledger.status == Contract.Settled ==> w.sellerStore.Some?)
  }

  ghost predicate WorldInv(d: Deal, w: World) {
    && ValidDeal(d) && Inv(d.session, w.system) && OpeningsAreTheBuyers(d, w.system) && LedgerFits(d, w)
    && StoresFit(d, w)
    && (w.system.openingSent ==> w.buyerStage.Finished?)
    && (w.sellerStage.Ended? ==> w.system.seller.operations != [])
    && (w.buyerStage.Finished? && Outcome0(w.system).Some? && Outcome0(w.system).value.Settled? ==>
          w.system.openingSent)
    && (w.buyerStage.Finished? ==> Outcome0(w.system).Some?)
    && (w.buyerStage.Stored? ==> SettledAt(w.system, w.buyerStage.price))
    && (w.buyerStage.Confirmed? ==> SettledAt(w.system, w.buyerStage.confirmedPrice))
    && (w.sellerStage.OpeningStored? ==>
          w.system.seller.operations == [SettleOnChain(w.sellerStage.price, w.sellerStage.randomness)])
    && (w.sellerStage.Cancelling? ==> w.system.seller.operations != [])
  }

  /** Published outcomes and launched operations are never taken back. */
  lemma BargainingKeepsHistory(c: Session, s: System, e: Event)
    requires Inv(c, s)
    ensures var s' := Next(c, s, e);
      && s.buyer.outcomes <= s'.buyer.outcomes && s.seller.operations <= s'.seller.operations
      && (s.buyer.finished ==> s'.buyer.outcomes == s.buyer.outcomes && s'.buyer.finished)
      && s'.openingSent == (s.openingSent || (e.Open? && MayOpen(s)))
  {
    hide Reply;
    NextKeeps(c, s, e);
    SingleToken(c, s);
    SingleToken(c, Next(c, s, e));
  }

  /** What an honest Seller holds once an opening has reached it. */
  lemma OperationsMeanAgreement(d: Deal, s: System)
    requires Inv(d.session, s) && s.buyer.finished && s.buyer.outcomes[0].Settled?
    ensures var price := s.buyer.outcomes[0].amount;
      && SettledAt(s, price) && IsUint64(price) && d.session.sellerMin <= price <= d.session.buyerMax
      && (s.seller.operations != [] ==>
            s.seller.agreed == Some(price) && |s.seller.operations| == 1 &&
            s.seller.operations[0].SettleOnChain? && s.seller.operations[0].price == price)
      && (s.toSeller != [] && s.toSeller[0].payload.PriceOpening? ==>
            s.seller.agreed == Some(price) && s.toSeller[0].payload.price == price)
  {
    SingleToken(d.session, s);
    var t :| TokenAt(d.session, s, t);
    var round :| SettledIn(d.session, s, Terms(round, s.buyer.outcomes[0].amount));
    if s.seller.operations != [] { assert s.seller.operations[0] in s.seller.operations; }
    if s.toSeller != [] && s.toSeller[0].payload.PriceOpening? { assert s.toSeller[0] in s.toSeller; }
  }

  lemma SendsCarryNoOpening(b: BuyerState, index: nat, provider: Provider)
    requires index < |b.pending|
    ensures forall p <- BuyerReplies(b, index, provider).sends :: !p.payload.PriceOpening?
  {
    hide Reply;
  }

  lemma SellerRepliesKeepOperations(s: SellerState, reference: int, index: nat, provider: Provider)
    requires index < |s.pending|
    ensures SellerReplies(s, reference, index, provider).state.operations == s.operations
  {
    hide Reply;
  }

  /** Bargaining events move openings along but never invent or change one. */
  lemma OpeningsKeep(d: Deal, s: System, e: Event)
    requires Inv(d.session, s) && OpeningsAreTheBuyers(d, s) && (e.Open? ==> e.randomness == d.priceRandomness)
    ensures OpeningsAreTheBuyers(d, Next(d.session, s, e))
  {
    hide BuyerAccepts;
    hide SellerAccepts;
    hide BuyerTimer;
    hide BuyerReplies;
    hide SellerReplies;
    hide Reply;
    hide Inv;
    if Enabled(s, e) {
      BargainingKeepsHistory(d.session, s, e);
      match e
      case BuyerReply(i, provider) => SendsCarryNoOpening(s.buyer, i, provider);
      case ToSeller => ToSellerKeepsOpenings(d, s);
      case SellerReply(i, provider) => SellerRepliesKeepOperations(s.seller, d.session.reference, i, provider);
      case Open(randomness) =>
        OneOperation(d, s);
        assert Next(d.session, s, e).toSeller ==
          s.toSeller + BuyerRelay(s.buyer, PriceOpening(s.buyer.outcomes[0].amount, randomness)).sends;
      case Timer =>
      case ToBuyer =>
    }
  }

  lemma ToSellerKeepsOpenings(d: Deal, s: System)
    requires Inv(d.session, s) && OpeningsAreTheBuyers(d, s) && s.toSeller != []
    ensures OpeningsAreTheBuyers(d, Next(d.session, s, ToSeller))
  {
    BargainingKeepsHistory(d.session, s, ToSeller);
    var p := s.toSeller[0];
    assert p in s.toSeller;
    var s' := Next(d.session, s, ToSeller);
    var t :| TokenAt(d.session, s, t);
    ToSellerKeeps(d.session, s, t);
    if p.payload.PriceOpening? {
      assert t.Done?;
      OpenSentWhenOpeningTravels(d.session, s);
      OperationsMeanAgreement(d, s);
    }
  }

  lemma OpenSentWhenOpeningTravels(c: Session, s: System)
    requires Inv(c, s) && s.toSeller != [] && s.toSeller[0].payload.PriceOpening?
    ensures s.openingSent && s.buyer.finished && s.buyer.outcomes[0].Settled?
  {
    SingleToken(c, s);
    var t :| TokenAt(c, s, t);
    var round :| SettledIn(c, s, Terms(round, s.buyer.outcomes[0].amount));
  }

  lemma BargainingKeepsWorld(d: Deal, w: World, e: Event)
    requires WorldInv(d, w) && !e.Open?
    ensures WorldInv(d, Do(d, w, Bargaining(e)))
  {
    hide Inv;
    hide Next;
    NextKeeps(d.session, w.system, e);
    BargainingKeepsHistory(d.session, w.system, e);
    OpeningsKeep(d, w.system, e);
    OneOperation(d, w.system);
    OneOperation(d, Next(d.session, w.system, e));
  }

  lemma OneOperation(d: Deal, s: System)
    requires Inv(d.session, s)
    ensures |s.seller.operations| <= 1 && |s.buyer.outcomes| <= 1
    ensures s.seller.operations != [] ==> s.buyer.finished && s.buyer.outcomes[0].Settled?
    ensures s.buyer.outcomes != [] ==> s.buyer.finished
  {
    SingleToken(d.session, s);
    var t :| TokenAt(d.session, s, t);
    if t.Done? && s.buyer.outcomes[0].Settled? { OperationsMeanAgreement(d, s); }
  }

  /** The Buyer's authorisation is never rejected while the deal is open. */
  lemma HonestAuthorizationPasses(d: Deal, w: World)
    requires WorldInv(d, w) && w.buyerStage.Stored? && w.ledger.status == Contract.Open
    ensures Contract.Accepted(w.ledger, AuthorizeCall(d, w.buyerStage.price))
  {
    OneOperation(d, w.system);
    OperationsMeanAgreement(d, w.system);
  }

  /** The Seller's settlement is never rejected while the deal is authorised. */
  lemma HonestSettlementPasses(d: Deal, w: World)
    requires WorldInv(d, w) && w.sellerStage.OpeningStored? && w.ledger.status == Contract.Authorized
    ensures Contract.Accepted(w.ledger, SettleCall(d, w.sellerStage.price, w.sellerStage.randomness))
  {
    OneOperation(d, w.system);
    OperationsMeanAgreement(d, w.system);
    assert w.system.seller.operations[0] in w.system.seller.operations;
  }

  lemma BuyerChainKeepsWorld(d: Deal, w: World, step: Step)
    requires WorldInv(d, w)
    requires step.BuyerStores? || step.BuyerAuthorizes? || step.BuyerOpens? || step.BuyerCancels? || step.BuyerBreaks?
    ensures WorldInv(d, Do(d, w, step))
  {
    hide Inv;
    hide Next;
    OneOperation(d, w.system);
    match step
    case BuyerAuthorizes(_, _) => if w.buyerStage.Stored? { OperationsMeanAgreement(d, w.system); }
    case BuyerOpens =>
      NextKeeps(d.session, w.system, Open(d.priceRandomness));
      BargainingKeepsHistory(d.session, w.system, Open(d.priceRandomness));
      OpeningsKeep(d, w.system, Open(d.priceRandomness));
      OneOperation(d, Next(d.session, w.system, Open(d.priceRandomness)));
    case _ =>
  }

  lemma SellerChainKeepsWorld(d: Deal, w: World, step: Step)
    requires WorldInv(d, w)
    requires step.SellerStores? || step.SellerSettles? || step.SellerBreaks? || step.SellerCancels? || step.Outsider?
    ensures WorldInv(d, Do(d, w, step))
  {
    hide Inv;
    OneOperation(d, w.system);
    if w.system.seller.operations != [] {
      OperationsMeanAgreement(d, w.system);
      assert w.system.seller.operations[0] in w.system.seller.operations;
    }
    if step.Outsider? && step.call.secret != d.buyerSecret && step.call.secret != d.sellerSecret {
      Contract.OutsidersChangeNothing(w.ledger, step.call, d.buyerSecret, d.sellerSecret);
    }
  }

  lemma {:induction false} ExecuteKeeps(d: Deal, steps: seq<Step>)
    requires ValidDeal(d)
    ensures WorldInv(d, Execute(d, steps))
  {
    if steps == [] {
      ReadyInv(d.session);
    } else {
      var init, last := steps[..|steps| - 1], steps[|steps| - 1];
      ExecuteKeeps(d, init);
      var w := Execute(d, init);
      match last
      case Bargaining(e) => if !e.Open? { BargainingKeepsWorld(d, w, e); }
      case BuyerStores => BuyerChainKeepsWorld(d, w, last);
      case BuyerAuthorizes(_, _) => BuyerChainKeepsWorld(d, w, last);
      case BuyerOpens => BuyerChainKeepsWorld(d, w, last);
      case BuyerCancels(_) => BuyerChainKeepsWorld(d, w, last);
      case BuyerBreaks => BuyerChainKeepsWorld(d, w, last);
      case _ => SellerChainKeepsWorld(d, w, last);
    }
  }

  // ---- End to end ----

  /** From private limits to the chain: a settled ledger commits to exactly the price the Buyer
      published and the Seller agreed to. It lies within both limits, which are the committed ones,
      is a multiple of 250, and was closed in round 6 or later inside the ladder's corridor. */
  lemma SettledOnChainIsTheAgreement(d: Deal, steps: seq<Step>) returns (price: Uint64, round: int)
    requires ValidDeal(d)
    ensures var w := Execute(d, steps);
      w.ledger.status == Contract.Settled ==>
        && SettledAt(w.system, price) && w.system.seller.agreed == Some(price)
        && (forall p: Uint64 :: Contract.PriceIs(w.ledger, p) <==> p == price)
        && Contract.BuyerLimitIs(w.ledger, d.session.buyerMax) && Contract.SellerLimitIs(w.ledger, d.session.sellerMin)
        && d.session.sellerMin <= price <= d.session.buyerMax && price % INCREMENT == 0
        && 6 <= round <= MAX_ROUNDS && Closable(d.session.reference, round, price - d.session.offset)
  {
    hide Inv;
    ExecuteKeeps(d, steps);
    var w := Execute(d, steps);
    price, round := 0, 6;
    if w.ledger.status == Contract.Settled {
      OneOperation(d, w.system);
      OperationsMeanAgreement(d, w.system);
      price := w.system.buyer.outcomes[0].amount;
      CommittedValues(d, w, price);
      round := ClosingRound(d.session, w.system);
    }
  }

  lemma CommittedValues(d: Deal, w: World, price: Uint64)
    requires WorldInv(d, w) && w.ledger.status == Contract.Settled && SettledAt(w.system, price)
    ensures forall p: Uint64 :: Contract.PriceIs(w.ledger, p) <==> p == price
    ensures Contract.BuyerLimitIs(w.ledger, d.session.buyerMax) && Contract.SellerLimitIs(w.ledger, d.session.sellerMin)
  {
    hide Inv;
    assert Contract.HiddenPrice(w.ledger, price, d.priceRandomness) == w.ledger.priceCommitment;
    forall p: Uint64 { Contract.LimitsAreUnique(w.ledger, p, price); }
    assert Contract.BuyerLimit(w.ledger, d.session.buyerMax, d.buyerRandomness) == w.ledger.buyerCommitment;
    assert Contract.SellerLimit(w.ledger, d.session.sellerMin, d.sellerRandomness) == w.ledger.sellerCommitment;
  }

  lemma ClosingRound(c: Session, s: System) returns (round: int)
    requires Inv(c, s) && s.buyer.finished && |s.buyer.outcomes| == 1 && s.buyer.outcomes[0].Settled?
    ensures var price := s.buyer.outcomes[0].amount;
      6 <= round <= MAX_ROUNDS && Closable(c.reference, round, price - c.offset) && price % INCREMENT == 0
  {
    SingleToken(c, s);
    var t :| TokenAt(c, s, t);
    round :| SettledIn(c, s, Terms(round, s.buyer.outcomes[0].amount));
    ClosingCorridor(c.reference, round, s.buyer.outcomes[0].amount - c.offset);
  }

  /** The Seller's off-chain check never fails with an honest Buyer: an opening that reaches it names
      the price it has already agreed to, and the mismatch branch is never taken. */
  lemma OpeningsAlwaysMatch(d: Deal, steps: seq<Step>)
    requires ValidDeal(d)
    ensures var s := Execute(d, steps).system;
      && (s.toSeller != [] && s.toSeller[0].payload.PriceOpening? ==>
        s.seller.agreed == Some(s.toSeller[0].payload.price))
      && CancelOnChain !in s.seller.operations && s.seller.faults == 0 && s.buyer.faults == 0
  {
    ExecuteKeeps(d, steps);
    var s := Execute(d, steps).system;
    if s.toSeller != [] && s.toSeller[0].payload.PriceOpening? {
      OpenSentWhenOpeningTravels(d.session, s);
      OperationsMeanAgreement(d, s);
    }
    OneOperation(d, s);
    if s.seller.operations != [] { OperationsMeanAgreement(d, s); }
  }

  /** Once settled, both stores hold the opening, and it fits the chain. */
  lemma BothHoldTheOpening(d: Deal, steps: seq<Step>) returns (price: Uint64)
    requires ValidDeal(d) && Execute(d, steps).ledger.status == Contract.Settled
    ensures var w := Execute(d, steps);
      && SettledAt(w.system, price)
      && w.buyerStore == w.sellerStore == Some(Opening(price, d.priceRandomness))
      && w.ledger.dealId == d.dealId && w.ledger.priceCommitment == PriceCommitment(d.dealId, price, d.priceRandomness)
  {
    hide Inv;
    ExecuteKeeps(d, steps);
    var w := Execute(d, steps);
    OneOperation(d, w.system);
    OperationsMeanAgreement(d, w.system);
    price := w.system.buyer.outcomes[0].amount;
  }

  /** A negotiation that fails is never authorised, let alone settled. */
  lemma FailedNegotiationsNeverSettle(d: Deal, steps: seq<Step>)
    requires ValidDeal(d)
    ensures var w := Execute(d, steps);
      Outcome0(w.system) == Some(Runtimes.Cancelled) ==> w.ledger.status in {Contract.Open, Contract.Cancelled}
  {
    ExecuteKeeps(d, steps);
  }

  /** A failed negotiation can end its deal: while the Buyer has not broken off, its own cancellation
      closes a deal that is still open. */
  lemma FailuresCanCancel(d: Deal, steps: seq<Step>)
    requires ValidDeal(d) && Outcome0(Execute(d, steps).system) == Some(Runtimes.Cancelled)
    requires Execute(d, steps).buyerStage.Idle? && Execute(d, steps).ledger.status == Contract.Open
    ensures Execute(d, steps + [BuyerCancels(true)]).ledger.status == Contract.Cancelled
  {
    hide Inv;
    hide OpeningsAreTheBuyers;
    hide StoresFit;
    ExecuteKeeps(d, steps);
    assert (steps + [BuyerCancels(true)])[..|steps|] == steps;
  }

  /** The negotiation has failed and the Buyer's one attempt to cancel is gone. */
  predicate LeftOpen(w: World) {
    && Outcome0(w.system) == Some(Runtimes.Cancelled) && !w.buyerStage.Idle? && w.ledger.status == Contract.Open
  }

  lemma LeftOpenStays(d: Deal, w: World, step: Step)
    requires WorldInv(d, w) && LeftOpen(w)
    ensures LeftOpen(Do(d, w, step))
  {
    hide Inv;
    hide OpeningsAreTheBuyers;
    hide StoresFit;
    hide Next;
    OneOperation(d, w.system);
    match step
    case Bargaining(e) => BargainingKeepsHistory(d.session, w.system, e);
    case Outsider(call) =>
      if call.secret != d.buyerSecret && call.secret != d.sellerSecret {
        Contract.OutsidersChangeNothing(w.ledger, call, d.buyerSecret, d.sellerSecret);
      }
    case _ =>
  }

  /** There is no second attempt: if the Buyer broke off, or its cancellation did not land, a failed
      negotiation leaves its deal open for good. */
  lemma {:induction false} LostCancellationsLeaveItOpen(d: Deal, steps: seq<Step>, more: seq<Step>)
    requires ValidDeal(d) && LeftOpen(Execute(d, steps))
    ensures LeftOpen(Execute(d, steps + more))
  {
    hide WorldInv;
    hide LeftOpen;
    if more == [] {
      assert steps + more == steps;
    } else {
      var all, init := steps + more, more[..|more| - 1];
      assert all[..|all| - 1] == steps + init;
      LostCancellationsLeaveItOpen(d, steps, init);
      ExecuteKeeps(d, steps + init);
      LeftOpenStays(d, Execute(d, steps + init), more[|more| - 1]);
    }
  }

  /** A Seller whose settlement fails cancels the deal, unless it has settled after all. */
  lemma BrokenSettlementsCanCancel(d: Deal, steps: seq<Step>)
    requires ValidDeal(d) && Execute(d, steps).sellerStage.Cancelling?
    ensures var l := Execute(d, steps + [SellerCancels(true)]).ledger;
      if Execute(d, steps).ledger.status == Contract.Settled then l == Execute(d, steps).ledger
      else l.status == Contract.Cancelled
  {
    hide Inv;
    hide OpeningsAreTheBuyers;
    hide StoresFit;
    ExecuteKeeps(d, steps);
    assert (steps + [SellerCancels(true)])[..|steps|] == steps;
  }

  // ---- An agreement can be settled ----

  /** No chain step has been lost: what has been confirmed on chain is where the parties believe it is. */
  predicate OnTrack(w: World) {
    && Outcome0(w.system).Some? && Outcome0(w.system).value.Settled?
    && match w.ledger.status
       case WaitingSeller => false
       case Open => w.buyerStage.Idle? || w.buyerStage.Stored?
       case Authorized =>
         w.buyerStage.Confirmed? ||
           (w.buyerStage.Finished? && (w.sellerStage.NotSettling? || w.sellerStage.OpeningStored?))
       case Settled => true
       case Cancelled => false
  }

  function DueStep(w: World): Step {
    if w.ledger.status == Contract.Open then if w.buyerStage.Idle? then BuyerStores else BuyerAuthorizes(true, true)
    else if w.buyerStage.Confirmed? then BuyerOpens
    else if w.system.seller.operations == [] then Bargaining(ToSeller)
    else if w.sellerStage.NotSettling? then SellerStores
    else SellerSettles(true, true)
  }

  function Remaining(w: World): nat {
    if w.ledger.status == Contract.Settled then 0
    else if w.ledger.status == Contract.Open then if w.buyerStage.Idle? then 8 else 7
    else if w.buyerStage.Confirmed? then 6
    else (if w.sellerStage.NotSettling? then 2 else 1) + |w.system.toSeller|
  }

  /** An opening that was sent and has not arrived is under way: behind an acceptance, if that is too. */
  lemma OpeningIsUnderWay(c: Session, s: System)
    requires Inv(c, s) && s.openingSent && s.buyer.finished && s.buyer.outcomes[0].Settled?
    ensures |s.toSeller| <= 2
    ensures s.seller.operations == [] ==> s.toSeller != []
    ensures s.seller.operations == [] ==>
      Next(c, s, ToSeller).openingSent && Next(c, s, ToSeller).buyer == s.buyer &&
        |Next(c, s, ToSeller).toSeller| == |s.toSeller| - 1
  {
    var t :| TokenAt(c, s, t);
    SingleToken(c, s);
    var round :| SettledIn(c, s, Terms(round, s.buyer.outcomes[0].amount));
  }

  /** Opening the price puts at most one message behind an acceptance. */
  lemma OpeningIsSent(c: Session, s: System, randomness: Bytes32)
    requires Inv(c, s) && MayOpen(s)
    ensures var s' := Next(c, s, Open(randomness));
      s'.openingSent && s'.buyer.outcomes == s.buyer.outcomes && s'.seller == s.seller && |s'.toSeller| <= 2
  {
    NextKeeps(c, s, Open(randomness));
    BargainingKeepsHistory(c, s, Open(randomness));
    SingleToken(c, Next(c, s, Open(randomness)));
    OpeningIsUnderWay(c, Next(c, s, Open(randomness)));
  }

  lemma DueStepMovesOn(d: Deal, w: World)
    requires WorldInv(d, w) && OnTrack(w) && w.ledger.status != Contract.Settled
    ensures OnTrack(Do(d, w, DueStep(w))) && Remaining(Do(d, w, DueStep(w))) < Remaining(w)
  {
    hide Inv;
    hide Next;
    OneOperation(d, w.system);
    OperationsMeanAgreement(d, w.system);
    if w.ledger.status == Contract.Open {
      if w.buyerStage.Stored? { HonestAuthorizationPasses(d, w); }
    } else if w.buyerStage.Confirmed? {
      BuyerIsConnected(d.session, w.system);
      OpeningIsSent(d.session, w.system, d.priceRandomness);
    } else if w.system.seller.operations == [] {
      OpeningIsUnderWay(d.session, w.system);
    } else if w.sellerStage.OpeningStored? {
      HonestSettlementPasses(d, w);
    }
  }

  lemma BuyerIsConnected(c: Session, s: System)
    requires Inv(c, s)
    ensures s.buyer.room.Some? && s.buyer.offset.Some?
  {}

  /** Every agreement can be settled: while no chain step has been lost, some continuation settles it. */
  lemma {:induction false} AgreementsCanSettle(d: Deal, steps: seq<Step>) returns (more: seq<Step>)
    requires ValidDeal(d) && OnTrack(Execute(d, steps))
    ensures Execute(d, steps + more).ledger.status == Contract.Settled
    decreases Remaining(Execute(d, steps))
  {
    hide Inv;
    hide Do;
    hide OnTrack;
    hide Remaining;
    var w := Execute(d, steps);
    if w.ledger.status == Contract.Settled {
      more := [];
      assert steps + more == steps;
    } else {
      ExecuteKeeps(d, steps);
      DueStepMovesOn(d, w);
      assert (steps + [DueStep(w)])[..|steps|] == steps;
      var rest := AgreementsCanSettle(d, steps + [DueStep(w)]);
      more := [DueStep(w)] + rest;
      assert steps + more == steps + [DueStep(w)] + rest;
    }
  }
}
