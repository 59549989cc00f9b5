/** The on-chain deal: five states, sealed identities, and circuits that check the caller's
    witnesses before they write. */
module Contract {
  import opened Pricing
  import opened Commitments

  datatype Status = WaitingSeller | Open | Authorized | Settled | Cancelled

  datatype Ledger = Ledger(
    dealId: Bytes32, buyerKey: Bytes32, sellerKey: Bytes32, buyerCommitment: Bytes32,
    sellerCommitment: Bytes32, priceCommitment: Bytes32, status: Status)

  /** A circuit call together with the witness values its caller supplies. */
  datatype Call =
    | JoinDeal(secret: Bytes32, limit: Uint64, limitRandomness: Bytes32)
    | AuthorizeHiddenPrice(
        secret: Bytes32, limit: Uint64, limitRandomness: Bytes32, price: Uint64, priceRandomness: Bytes32)
    | Settle(secret: Bytes32, limit: Uint64, limitRandomness: Bytes32, price: Uint64, priceRandomness: Bytes32)
    | CancelAsBuyer(secret: Bytes32)
    | CancelAsSeller(secret: Bytes32)

  function Deployed(dealId: Bytes32, buyerKey: Bytes32, sellerKey: Bytes32, buyerCommitment: Bytes32): Ledger {
    Ledger(dealId, buyerKey, sellerKey, buyerCommitment, Pad(""), Pad(""), WaitingSeller)
  }

  function BuyerLimit(l: Ledger, limit: Uint64, randomness: Bytes32): Bytes32 {
    LimitCommitment(l.dealId, BUYER_DOMAIN, l.buyerKey, limit, randomness)
  }

  function SellerLimit(l: Ledger, limit: Uint64, randomness: Bytes32): Bytes32 {
    LimitCommitment(l.dealId, SELLER_DOMAIN, l.sellerKey, limit, randomness)
  }

  function HiddenPrice(l: Ledger, price: Uint64, randomness: Bytes32): Bytes32 {
    PriceCommitment(l.dealId, price, randomness)
  }

  predicate CallerIs(call: Call, key: Bytes32) {
    PublicKey(call.secret) == key
  }

  /** All assertions of a circuit. */
  predicate Accepted(l: Ledger, call: Call) {
    match call
    case JoinDeal(_, _, _) => l.status == WaitingSeller && CallerIs(call, l.sellerKey)
    case AuthorizeHiddenPrice(_, limit, r, price, _) =>
      && l.status == Open && CallerIs(call, l.buyerKey)
      && BuyerLimit(l, limit, r) == l.buyerCommitment && price <= limit
    case Settle(_, limit, r, price, t) =>
      && l.status == Authorized && CallerIs(call, l.sellerKey)
      && SellerLimit(l, limit, r) == l.sellerCommitment
      && HiddenPrice(l, price, t) == l.priceCommitment && limit <= price
    case CancelAsBuyer(_) => CallerIs(call, l.buyerKey) && l.status != Settled
    case CancelAsSeller(_) => CallerIs(call, l.sellerKey) && l.status != Settled
  }

  /** The ledger after a call; a call whose assertion fails changes nothing. */
  function After(l: Ledger, call: Call): (l': Ledger)
    ensures Evolves(l, l')
    ensures l'.priceCommitment != l.priceCommitment ==> l.status == Open && l'.status == Authorized
    ensures l'.sellerCommitment != l.sellerCommitment ==> l.status == WaitingSeller && l'.status == Open
  {
    if !Accepted(l, call) then l
    else match call
      case JoinDeal(_, limit, r) => l.(sellerCommitment := SellerLimit(l, limit, r), status := Open)
      case AuthorizeHiddenPrice(_, _, _, price, t) =>
        l.(priceCommitment := HiddenPrice(l, price, t), status := Authorized)
      case Settle(_, _, _, _, _) => l.(status := Settled)
      case CancelAsBuyer(_) => l.(status := Cancelled)
      case CancelAsSeller(_) => l.(status := Cancelled)
  }

  function Replay(l: Ledger, calls: seq<Call>): Ledger {
    if calls == [] then l else After(Replay(l, calls[..|calls| - 1]), calls[|calls| - 1])
  }

  /** The deployed contract. The identities are sealed: written once, by the constructor. */
  class NegotiationContract {
    const dealId: Bytes32
    const buyerKey: Bytes32
    const sellerKey: Bytes32
    const buyerCommitment: Bytes32
    var sellerCommitment: Bytes32
    var priceCommitment: Bytes32
    var status: Status

    function State(): Ledger
      reads this
    {
      Ledger(dealId, buyerKey, sellerKey, buyerCommitment, sellerCommitment, priceCommitment, status)
    }

    constructor (deal: Bytes32, buyer: Bytes32, seller: Bytes32, commitment: Bytes32)
      ensures State() == Deployed(deal, buyer, seller, commitment)
    {
      dealId, buyerKey, sellerKey, buyerCommitment := deal, buyer, seller, commitment;
      sellerCommitment, priceCommitment, status := Pad(""), Pad(""), WaitingSeller;
    }

    method RunJoinDeal(secret: Bytes32, limit: Uint64, randomness: Bytes32) returns (ok: bool)
      modifies this
      ensures ok == Accepted(old(State()), JoinDeal(secret, limit, randomness))
      ensures State() == After(old(State()), JoinDeal(secret, limit, randomness))
    {
      if status != WaitingSeller { return false; }
      if PublicKey(secret) != sellerKey { return false; }
      sellerCommitment := LimitCommitment(dealId, SELLER_DOMAIN, sellerKey, limit, randomness);
      status := Open;
      ok := true;
    }

    method RunAuthorize(secret: Bytes32, limit: Uint64, randomness: Bytes32, price: Uint64, opening: Bytes32)
      returns (ok: bool)
      modifies this
      ensures ok == Accepted(old(State()), AuthorizeHiddenPrice(secret, limit, randomness, price, opening))
      ensures State() == After(old(State()), AuthorizeHiddenPrice(secret, limit, randomness, price, opening))
    {
      if status != Open { return false; }
      if PublicKey(secret) != buyerKey { return false; }
      if LimitCommitment(dealId, BUYER_DOMAIN, buyerKey, limit, randomness) != buyerCommitment { return false; }
      if limit < price { return false; }
      priceCommitment := PriceCommitment(dealId, price, opening);
      status := Authorized;
      ok := true;
    }

    method RunSettle(secret: Bytes32, limit: Uint64, randomness: Bytes32, price: Uint64, opening: Bytes32)
      returns (ok: bool)
      modifies this
      ensures ok == Accepted(old(State()), Settle(secret, limit, randomness, price, opening))
      ensures State() == After(old(State()), Settle(secret, limit, randomness, price, opening))
    {
      if status != Authorized { return false; }
      if PublicKey(secret) != sellerKey { return false; }
      if LimitCommitment(dealId, SELLER_DOMAIN, sellerKey, limit, randomness) != sellerCommitment { return false; }
      if PriceCommitment(dealId, price, opening) != priceCommitment { return false; }
      if price < limit { return false; }
      status := Settled;
      ok := true;
    }

    method RunCancel(role: Role, secret: Bytes32) returns (ok: bool)
      modifies this
      ensures var call := if role.Buyer? then CancelAsBuyer(secret) else CancelAsSeller(secret);
        ok == Accepted(old(State()), call) && State() == After(old(State()), call)
    {
      if PublicKey(secret) != (if role.Buyer? then buyerKey else sellerKey) { return false; }
      if status == Settled { return false; }
      status := Cancelled;
      ok := true;
    }

    method RunCall(call: Call) returns (ok: bool)
      modifies this
      ensures ok == Accepted(old(State()), call) && State() == After(old(State()), call)
    {
      hide Accepted;
      hide After;
      match call {
        case JoinDeal(secret, limit, randomness) => ok := RunJoinDeal(secret, limit, randomness);
        case AuthorizeHiddenPrice(secret, limit, randomness, price, opening) =>
          ok := RunAuthorize(secret, limit, randomness, price, opening);
        case Settle(secret, limit, randomness, price, opening) =>
          ok := RunSettle(secret, limit, randomness, price, opening);
        case CancelAsBuyer(secret) => ok := RunCancel(Buyer, secret);
        case CancelAsSeller(secret) => ok := RunCancel(Seller, secret);
      }
    }
  }

  /** A deployed contract that runs any calls is in the state of replaying them. */
  method RunAll(dealId: Bytes32, buyerKey: Bytes32, sellerKey: Bytes32, buyerCommitment: Bytes32, calls: seq<Call>)
    returns (c: NegotiationContract)
    ensures fresh(c) && c.State() == Replay(Deployed(dealId, buyerKey, sellerKey, buyerCommitment), calls)
  {
    hide After;
    c := new NegotiationContract(dealId, buyerKey, sellerKey, buyerCommitment);
    ghost var start := c.State();
    assert calls[..0] == [];
    for k := 0 to |calls|
      invariant fresh(c) && c.State() == Replay(start, calls[..k])
    {
      var _ := c.RunCall(calls[k]);
      assert calls[..k + 1][..k] == calls[..k];
    }
    assert calls[..|calls|] == calls;
  }

  // ---- Safety over every sequence of calls ----

  ghost predicate BuyerLimitIs(l: Ledger, limit: Uint64) {
    exists r :: BuyerLimit(l, limit, r) == l.buyerCommitment
  }

  ghost predicate SellerLimitIs(l: Ledger, limit: Uint64) {
    exists r :: SellerLimit(l, limit, r) == l.sellerCommitment
  }

  predicate Opens(l: Ledger, o: Opening) {
    HiddenPrice(l, o.price, o.randomness) == l.priceCommitment
  }

  ghost predicate PriceIs(l: Ledger, price: Uint64) {
    exists r :: HiddenPrice(l, price, r) == l.priceCommitment
  }

  lemma LimitsAreUnique(l: Ledger, a: Uint64, b: Uint64)
    ensures BuyerLimitIs(l, a) && BuyerLimitIs(l, b) ==> a == b
    ensures SellerLimitIs(l, a) && SellerLimitIs(l, b) ==> a == b
    ensures PriceIs(l, a) && PriceIs(l, b) ==> a == b
  {
    if BuyerLimitIs(l, a) && BuyerLimitIs(l, b) {
      var r :| BuyerLimit(l, a, r) == l.buyerCommitment;
      var t :| BuyerLimit(l, b, t) == l.buyerCommitment;
      LimitBinds(l.dealId, BUYER_DOMAIN, l.buyerKey, a, r, l.dealId, BUYER_DOMAIN, l.buyerKey, b, t);
    }
    if SellerLimitIs(l, a) && SellerLimitIs(l, b) {
      var r :| SellerLimit(l, a, r) == l.sellerCommitment;
      var t :| SellerLimit(l, b, t) == l.sellerCommitment;
      LimitBinds(l.dealId, SELLER_DOMAIN, l.sellerKey, a, r, l.dealId, SELLER_DOMAIN, l.sellerKey, b, t);
    }
    if PriceIs(l, a) && PriceIs(l, b) {
      var r :| HiddenPrice(l, a, r) == l.priceCommitment;
      var t :| HiddenPrice(l, b, t) == l.priceCommitment;
      PriceBinds(l.dealId, a, r, l.dealId, b, t);
    }
  }

  /** The committed values behind an authorised or settled ledger. */
  ghost predicate Backed(l: Ledger) {
    && (l.status in {Authorized, Settled} ==>
          exists price: Uint64, max: Uint64 :: PriceIs(l, price) && BuyerLimitIs(l, max) && price <= max)
    && (l.status == Settled ==>
          exists price: Uint64, min: Uint64 :: PriceIs(l, price) && SellerLimitIs(l, min) && min <= price)
  }

  lemma CallKeepsBacked(l: Ledger, call: Call)
    requires Backed(l)
    ensures Backed(After(l, call))
  {
    var l' := After(l, call);
    if Accepted(l, call) && call.AuthorizeHiddenPrice? {
      assert HiddenPrice(l', call.price, call.priceRandomness) == l'.priceCommitment;
      assert BuyerLimit(l', call.limit, call.limitRandomness) == l'.buyerCommitment;
      assert PriceIs(l', call.price) && BuyerLimitIs(l', call.limit);
    } else if Accepted(l, call) && call.Settle? {
      var price: Uint64, max: Uint64 :| PriceIs(l, price) && BuyerLimitIs(l, max) && price <= max;
      assert PriceIs(l', price) && BuyerLimitIs(l', max) by {
        var r :| HiddenPrice(l, price, r) == l.priceCommitment;
        var t :| BuyerLimit(l, max, t) == l.buyerCommitment;
        assert HiddenPrice(l', price, r) == l'.priceCommitment && BuyerLimit(l', max, t) == l'.buyerCommitment;
      }
      assert HiddenPrice(l', call.price, call.priceRandomness) == l'.priceCommitment;
      assert SellerLimit(l', call.limit, call.limitRandomness) == l'.sellerCommitment;
      assert PriceIs(l', call.price) && SellerLimitIs(l', call.limit);
    }
  }

  lemma {:induction false} ReplayKeepsBacked(l: Ledger, calls: seq<Call>)
    requires Backed(l)
    ensures Backed(Replay(l, calls))
  {
    if calls != [] {
      ReplayKeepsBacked(l, calls[..|calls| - 1]);
      CallKeepsBacked(Replay(l, calls[..|calls| - 1]), calls[|calls| - 1]);
    }
  }

  /** Whoever calls, in whatever order and with whatever witnesses: a settled deal has exactly one
      price opening, and that price lies within both committed limits. */
  lemma SettledPriceWithinLimits(
      dealId: Bytes32, buyerKey: Bytes32, sellerKey: Bytes32, buyerCommitment: Bytes32, calls: seq<Call>)
    returns (opening: Opening, min: Uint64, max: Uint64)
    ensures var l := Replay(Deployed(dealId, buyerKey, sellerKey, buyerCommitment), calls);
      l.status == Settled ==>
        && (forall o: Opening :: Opens(l, o) <==> o == opening)
        && (forall p: Uint64 :: BuyerLimitIs(l, p) <==> p == max)
        && (forall p: Uint64 :: SellerLimitIs(l, p) <==> p == min)
        && min <= opening.price <= max
  {
    opening, min, max := Opening(0, Random(0)), 0, 0;
    var start := Deployed(dealId, buyerKey, sellerKey, buyerCommitment);
    var l := Replay(start, calls);
    if l.status == Settled {
      ReplayKeepsBacked(start, calls);
      var p: Uint64, m: Uint64 :| PriceIs(l, p) && SellerLimitIs(l, m) && m <= p;
      var q: Uint64, n: Uint64 :| PriceIs(l, q) && BuyerLimitIs(l, n) && q <= n;
      forall x: Uint64, y: Uint64 { LimitsAreUnique(l, x, y); }
      var r :| HiddenPrice(l, p, r) == l.priceCommitment;
      opening, min, max := Opening(p, r), m, n;
      forall o: Opening | Opens(l, o) ensures o == opening {
        PriceBinds(l.dealId, o.price, o.randomness, l.dealId, p, r);
      }
    }
  }

  function Rank(s: Status): nat {
    match s
    case WaitingSeller => 0
    case Open => 1
    case Authorized => 2
    case Settled => 3
    case Cancelled => 4
  }

  /** How a ledger may evolve: forward only, with final states absorbing, and the two commitments
      frozen once written. */
  predicate Evolves(l: Ledger, l': Ledger) {
    && l'.(sellerCommitment := l.sellerCommitment, priceCommitment := l.priceCommitment, status := l.status) == l
    && Rank(l.status) <= Rank(l'.status)
    && (l.status in {Settled, Cancelled} ==> l' == l)
    && (l.status != WaitingSeller ==> l'.sellerCommitment == l.sellerCommitment)
    && (l.status !in {WaitingSeller, Open} ==> l'.priceCommitment == l.priceCommitment)
    && (l'.status in {WaitingSeller, Open} ==> l'.priceCommitment == l.priceCommitment)
  }

  lemma EvolvesTransitive(a: Ledger, b: Ledger, c: Ledger)
    requires Evolves(a, b) && Evolves(b, c)
    ensures Evolves(a, c)
  {}

  lemma {:induction false} ReplayEvolves(l: Ledger, calls: seq<Call>, more: seq<Call>)
    ensures Evolves(Replay(l, calls), Replay(l, calls + more))
    decreases |more|
  {
    if more == [] {
      assert calls + more == calls;
    } else {
      var init, last := more[..|more| - 1], more[|more| - 1];
      ReplayEvolves(l, calls, init);
      assert (calls + more)[..|calls + more| - 1] == calls + init;
      EvolvesTransitive(Replay(l, calls), Replay(l, calls + init), Replay(l, calls + more));
    }
  }

  /** Nobody without one of the two secret keys can change the deal. */
  lemma OutsidersChangeNothing(l: Ledger, call: Call, buyerSecret: Bytes32, sellerSecret: Bytes32)
    requires l.buyerKey == PublicKey(buyerSecret) && l.sellerKey == PublicKey(sellerSecret)
    requires call.secret != buyerSecret && call.secret != sellerSecret
    ensures After(l, call) == l
  {
    if CallerIs(call, l.buyerKey) { PublicKeyBinds(call.secret, buyerSecret); }
    if CallerIs(call, l.sellerKey) { PublicKeyBinds(call.secret, sellerSecret); }
  }

  // ---- Exactly who can do what ----

  /** A deal whose two parties have these secrets, and whose commitments hide these limits and price. */
  datatype Secrets = Secrets(
    buyer: Bytes32, seller: Bytes32, maximum: Opening, minimum: Opening, agreed: Opening)

  predicate Hides(l: Ledger, k: Secrets) {
    && k.buyer != k.seller && l.buyerKey == PublicKey(k.buyer) && l.sellerKey == PublicKey(k.seller)
    && l.buyerCommitment == BuyerLimit(l, k.maximum.price, k.maximum.randomness)
    && (l.status != WaitingSeller ==> l.sellerCommitment == SellerLimit(l, k.minimum.price, k.minimum.randomness))
    && (l.status in {Authorized, Settled} ==> l.priceCommitment == HiddenPrice(l, k.agreed.price, k.agreed.randomness))
  }

  /** What each circuit demands, said with the parties' own secrets and values. The Seller alone joins,
      with any limit. */
  lemma JoiningIsTheSellers(l: Ledger, k: Secrets, secret: Bytes32, limit: Uint64, r: Bytes32)
    requires Hides(l, k)
    ensures var l' := After(l, JoinDeal(secret, limit, r));
      && (l'.status == Open <==> l.status == Open || (l.status == WaitingSeller && secret == k.seller))
      && (l.status == WaitingSeller && secret == k.seller ==> l'.sellerCommitment == SellerLimit(l, limit, r))
  {
    KeysAreDistinct(l, k, secret);
  }

  /** The Buyer alone authorises, with its own limit and a price within it. */
  lemma AuthorizingIsTheBuyers(l: Ledger, k: Secrets, secret: Bytes32, limit: Opening, o: Opening)
    requires Hides(l, k)
    ensures var l' := After(l, AuthorizeHiddenPrice(secret, limit.price, limit.randomness, o.price, o.randomness));
      && (l'.status == Authorized <==>
            l.status == Authorized ||
            (l.status == Open && secret == k.buyer && limit == k.maximum && o.price <= k.maximum.price))
      && (l.status == Open && l'.status == Authorized ==> Opens(l', o))
  {
    KeysAreDistinct(l, k, secret);
    if BuyerLimit(l, limit.price, limit.randomness) == l.buyerCommitment {
      LimitBinds(l.dealId, BUYER_DOMAIN, l.buyerKey, limit.price, limit.randomness,
                 l.dealId, BUYER_DOMAIN, l.buyerKey, k.maximum.price, k.maximum.randomness);
    }
  }

  /** The Seller alone settles, with its own limit and the authorised opening, which must reach it. */
  lemma SettlingIsTheSellers(l: Ledger, k: Secrets, secret: Bytes32, limit: Opening, o: Opening)
    requires Hides(l, k)
    ensures After(l, Settle(secret, limit.price, limit.randomness, o.price, o.randomness)).status == Settled <==>
      l.status == Settled ||
      (l.status == Authorized && secret == k.seller && limit == k.minimum && o == k.agreed && limit.price <= o.price)
  {
    KeysAreDistinct(l, k, secret);
    if SellerLimit(l, limit.price, limit.randomness) == l.sellerCommitment && l.status == Authorized {
      LimitBinds(l.dealId, SELLER_DOMAIN, l.sellerKey, limit.price, limit.randomness,
                 l.dealId, SELLER_DOMAIN, l.sellerKey, k.minimum.price, k.minimum.randomness);
    }
    if HiddenPrice(l, o.price, o.randomness) == l.priceCommitment && l.status == Authorized {
      PriceBinds(l.dealId, o.price, o.randomness, l.dealId, k.agreed.price, k.agreed.randomness);
    }
  }

  /** Each party cancels with its own secret, and only with that, until the deal is settled. */
  lemma CancellingIsOnesOwn(l: Ledger, k: Secrets, secret: Bytes32)
    requires Hides(l, k)
    ensures After(l, CancelAsBuyer(secret)).status == Cancelled <==>
      l.status == Cancelled || (l.status != Settled && secret == k.buyer)
    ensures After(l, CancelAsSeller(secret)).status == Cancelled <==>
      l.status == Cancelled || (l.status != Settled && secret == k.seller)
  {
    KeysAreDistinct(l, k, secret);
  }

  lemma KeysAreDistinct(l: Ledger, k: Secrets, secret: Bytes32)
    requires Hides(l, k)
    ensures PublicKey(secret) == l.buyerKey <==> secret == k.buyer
    ensures PublicKey(secret) == l.sellerKey <==> secret == k.seller
  {
    if PublicKey(secret) == l.buyerKey { PublicKeyBinds(secret, k.buyer); }
    if PublicKey(secret) == l.sellerKey { PublicKeyBinds(secret, k.seller); }
  }
}
