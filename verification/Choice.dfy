/** Which candidate becomes the reply: the first one, by request and then by position, that fits the
    actual limit, the current offer and the public ladder. Everything is said in actual amounts. */
module Choice {
  import opened Pricing

  /** A list that counts as an answer: one to five candidates with prices, offers in steps of 250. */
  predicate WellFormedList(list: seq<Candidate>) {
    && 1 <= |list| <= 5
    && forall i :: 0 <= i < |list| ==>
         1 <= list[i].price <= MAX_KRW && (list[i].MakeOffer? ==> list[i].price % 250 == 0)
  }

  /** The limit and the rung a candidate is held to: a Buyer may not go above, a Seller not below. */
  predicate OnItsSide(policy: Policy, price: int, bound: int) {
    if policy.AtMost? then price <= bound else bound <= price
  }

  /** The rung of the round in which the party's next offer would be made, or of round 10. */
  function NextRung(x: Context): Option<int> {
    if x.reference.None? then None
    else
      var round := if x.role.Buyer? && x.current.Some? && x.round < 10 then x.round + 1 else x.round;
      LadderPrice(x.role, x.reference.value, round)
  }

  /** What an actual amount must satisfy to be chosen, apart from being a uint64 amount itself. */
  predicate Fits(x: Context, policy: Policy, offset: int, actual: Candidate) {
    && (policy.AtMost? <==> x.role.Buyer?)
    && NextRung(x).Some? && OnItsSide(policy, actual.price - offset, NextRung(x).value)
    && OnItsSide(policy, actual.price, policy.limit)
    && (if actual.Accept? then x.current.Some? && actual.price == x.current.value.price else actual.price % 250 == 0)
  }

  /** The amounts the provider's numbers stand for, which it gives without knowing the offset. */
  function Actual(candidate: Candidate, offset: int): Candidate {
    candidate.(price := candidate.price + offset)
  }

  /** What a provider is asked: the context, with the current offer moved by the offset. */
  function Asked(x: Context, offset: int): Context {
    if x.current.None? then x
    else x.(current := Some(Offer(x.current.value.maker, x.current.value.price - offset)))
  }

  /** The i-th candidate of the k-th request may be chosen. */
  predicate FitsAt(provider: Provider, x: Context, policy: Policy, offset: int, k: nat, i: nat) {
    var answer := provider(Asked(x, offset), k);
    && answer.Candidates? && WellFormedList(answer.list) && i < |answer.list|
    && Fits(x, policy, offset, Actual(answer.list[i], offset))
  }

  predicate Earlier(k: nat, i: nat, k': nat, i': nat) {
    k < k' || (k == k' && i < i')
  }

  ghost predicate FirstFit(provider: Provider, x: Context, policy: Policy, offset: int, k: nat, i: nat) {
    && k < 3 && FitsAt(provider, x, policy, offset, k, i)
    && forall k': nat, i': nat :: Earlier(k', i', k, i) ==> !FitsAt(provider, x, policy, offset, k', i')
  }

  /** The party may shift: the reference carries the offset, and so does the current offer. */
  predicate CanShift(x: Context, offset: int) {
    && ValidContext(x) && x.reference.Some? && ValidOffset(x.reference.value, offset)
    && (x.current.Some? ==> IsPrice(x.current.value.price - offset))
  }

  lemma FittingIsAllowed(x: Context, policy: Policy, offset: int, candidate: Candidate)
    requires CanShift(x, offset) && IsPrice(candidate.price) && (candidate.MakeOffer? ==> candidate.price % 250 == 0)
    ensures Asked(x, offset) == ShiftContext(x, -offset)
    ensures Fits(x, policy, offset, Actual(candidate, offset)) <==>
      StrategyAllows(ShiftPolicy(policy, -offset), Asked(x, offset), candidate)
    ensures IsPrice(candidate.price + offset) && Fits(x, policy, offset, Actual(candidate, offset)) ==>
      PolicyAllows(policy, x, Actual(candidate, offset))
  {
    hide LadderPrice;
    var target := StrategyTarget(Asked(x, offset));
    assert target == NextRung(x);
    assert offset % 250 == 0;
  }

  /** The search finds the first candidate of a list with a property it stops at. */
  lemma {:induction false} FoundIsFirst(policy: Policy, x: Context, list: seq<Candidate>, i: nat)
    requires i < |list| && StrategyAllows(policy, x, list[i])
    requires forall j :: 0 <= j < i ==> !StrategyAllows(policy, x, list[j])
    ensures FindAllowed(policy, x, list) == Some(list[i])
  {
    if i > 0 { FoundIsFirst(policy, x, list[1..], i - 1); }
  }

  lemma {:induction false} NoneFound(policy: Policy, x: Context, list: seq<Candidate>)
    requires forall j :: 0 <= j < |list| ==> !StrategyAllows(policy, x, list[j])
    ensures FindAllowed(policy, x, list) == None
  {
    if list != [] { NoneFound(policy, x, list[1..]); }
  }

  lemma RequestWithoutFit(provider: Provider, x: Context, policy: Policy, offset: int, k: nat)
    requires CanShift(x, offset) && forall i: nat :: !FitsAt(provider, x, policy, offset, k, i)
    ensures FromRequest(provider, ShiftPolicy(policy, -offset), ShiftContext(x, -offset), k) == None
  {
    var answer := provider(Asked(x, offset), k);
    assert Asked(x, offset) == ShiftContext(x, -offset);
    if answer.Candidates? && ValidCandidates(answer.list) {
      forall i | 0 <= i < |answer.list|
        ensures !StrategyAllows(ShiftPolicy(policy, -offset), ShiftContext(x, -offset), answer.list[i])
      {
        assert !FitsAt(provider, x, policy, offset, k, i);
        FittingIsAllowed(x, policy, offset, answer.list[i]);
      }
      NoneFound(ShiftPolicy(policy, -offset), ShiftContext(x, -offset), answer.list);
    }
  }

  lemma RequestWithFit(provider: Provider, x: Context, policy: Policy, offset: int, k: nat, i: nat)
    requires CanShift(x, offset) && FitsAt(provider, x, policy, offset, k, i)
    requires forall i': nat :: i' < i ==> !FitsAt(provider, x, policy, offset, k, i')
    ensures FromRequest(provider, ShiftPolicy(policy, -offset), ShiftContext(x, -offset), k) ==
      Some(provider(Asked(x, offset), k).list[i])
  {
    var list := provider(Asked(x, offset), k).list;
    assert Asked(x, offset) == ShiftContext(x, -offset);
    forall j | 0 <= j < |list| && j <= i
      ensures StrategyAllows(ShiftPolicy(policy, -offset), ShiftContext(x, -offset), list[j]) <==> j == i
    {
      FittingIsAllowed(x, policy, offset, list[j]);
      assert FitsAt(provider, x, policy, offset, k, j) <==> j == i;
    }
    FoundIsFirst(ShiftPolicy(policy, -offset), ShiftContext(x, -offset), list, i);
  }

  /** The provider decides, exactly: the reply is the first candidate that fits, if its amount is a
      uint64 one. If that candidate's amount is none it is dropped, and nothing after it is looked at. */
  lemma FirstFitIsChosen(provider: Provider, x: Context, policy: Policy, offset: int, k: nat, i: nat)
    requires CanShift(x, offset) && FirstFit(provider, x, policy, offset, k, i)
    ensures var actual := Actual(provider(Asked(x, offset), k).list[i], offset);
      && AllowedCandidate(provider, x, policy, MAX_REQUESTS, Some(offset)) ==
           (if IsPrice(actual.price) then Some(actual) else None)
      && (IsPrice(actual.price) ==> Reply(provider, x, policy, offset) == Some(actual))
      && (!IsPrice(actual.price) ==> Reply(provider, x, policy, offset) == FallbackCandidate(x, policy, Some(offset)))
  {
    hide Fits;
    hide FindAllowed;
    hide FallbackCandidate;
    var n := Normalized(ShiftContext(x, -offset), ShiftPolicy(policy, -offset));
    assert Normalize(x, policy, offset) == Some(n);
    forall k': nat | k' < k ensures FromRequest(provider, n.policy, n.context, k') == None {
      forall i': nat ensures !FitsAt(provider, x, policy, offset, k', i') { assert Earlier(k', i', k, i); }
      RequestWithoutFit(provider, x, policy, offset, k');
    }
    forall i': nat | i' < i ensures !FitsAt(provider, x, policy, offset, k, i') { assert Earlier(k, i', k, i); }
    RequestWithFit(provider, x, policy, offset, k, i);
    FirstRequest(provider, n.policy, n.context, 0, k);
    FittingIsAllowed(x, policy, offset, provider(Asked(x, offset), k).list[i]);
  }

  lemma {:induction false} FirstRequest(provider: Provider, policy: Policy, x: Context, from: nat, k: nat)
    requires from <= k < MAX_REQUESTS && FromRequest(provider, policy, x, k).Some?
    requires forall k': nat :: from <= k' < k ==> FromRequest(provider, policy, x, k').None?
    ensures FirstAllowed(provider, policy, x, from, MAX_REQUESTS) == FromRequest(provider, policy, x, k)
    decreases k - from
  {
    if from < k { FirstRequest(provider, policy, x, from + 1, k); }
  }

  lemma {:induction false} NoRequest(provider: Provider, policy: Policy, x: Context, from: nat)
    requires forall k': nat :: from <= k' < MAX_REQUESTS ==> FromRequest(provider, policy, x, k').None?
    ensures FirstAllowed(provider, policy, x, from, MAX_REQUESTS) == None
    decreases MAX_REQUESTS - from
  {
    if from < MAX_REQUESTS { NoRequest(provider, policy, x, from + 1); }
  }

  /** When nothing fits, the fallback replies. */
  lemma NothingFits(provider: Provider, x: Context, policy: Policy, offset: int)
    requires CanShift(x, offset)
    requires forall k: nat, i: nat :: k < 3 ==> !FitsAt(provider, x, policy, offset, k, i)
    ensures Reply(provider, x, policy, offset) == FallbackCandidate(x, policy, Some(offset))
  {
    hide FallbackCandidate;
    var n := Normalized(ShiftContext(x, -offset), ShiftPolicy(policy, -offset));
    assert Normalize(x, policy, offset) == Some(n);
    forall k: nat | k < 3 ensures FromRequest(provider, n.policy, n.context, k) == None {
      RequestWithoutFit(provider, x, policy, offset, k);
    }
    NoRequest(provider, n.policy, n.context, 0);
  }

  /** An offer a Buyer may make below its rung, or a Seller above its own, is made as the provider says. */
  lemma ProviderOffersAreMade(x: Context, policy: Policy, offset: int, price: int)
    requires CanShift(x, offset) && IsPrice(price) && IsPrice(price - offset) && (price - offset) % 250 == 0
    requires Fits(x, policy, offset, MakeOffer(price))
    ensures Reply((y: Context, k: nat) => Candidates([MakeOffer(price - offset)]), x, policy, offset) ==
      Some(MakeOffer(price))
  {
    var provider: Provider := (y: Context, k: nat) => Candidates([MakeOffer(price - offset)]);
    hide Fits;
    assert FitsAt(provider, x, policy, offset, 0, 0);
    FirstFitIsChosen(provider, x, policy, offset, 0, 0);
  }

  /** Why "the first permitted candidate" needs the proviso: a fitting candidate whose amount is no
      price hides a permitted one behind it. */
  lemma UnpayableOffersHideOthers()
    ensures var x := Context(Buyer, 1, Some(100_000), None);
      var provider: Provider := (y: Context, k: nat) => Candidates([MakeOffer(250), MakeOffer(85_000)]);
      && Permitted(x, AtMost(120_000), -3_000, MakeOffer(82_000))
      && Reply(provider, x, AtMost(120_000), -3_000) == FallbackCandidate(x, AtMost(120_000), Some(-3_000))
      && Reply(provider, x, AtMost(120_000), -3_000) == Some(MakeOffer(87_000))
  {
    var x := Context(Buyer, 1, Some(100_000), None);
    var provider: Provider := (y: Context, k: nat) => Candidates([MakeOffer(250), MakeOffer(85_000)]);
    assert LadderPrice(Buyer, 100_000, 1) == Some(90_000);
    assert FitsAt(provider, x, AtMost(120_000), -3_000, 0, 0);
    FirstFitIsChosen(provider, x, AtMost(120_000), -3_000, 0, 0);
  }

  /** A party that cannot shift says nothing. */
  lemma WithoutShiftNothing(provider: Provider, x: Context, policy: Policy, offset: int)
    requires ValidContext(x) && !CanShift(x, offset)
    ensures Reply(provider, x, policy, offset) == None
  {}
}
