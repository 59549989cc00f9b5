/** Local pricing rules of one negotiating party: the public concession ladder, the private
    limit, the shared secret offset, and the choice of the next message. Prices are integers;
    a decimal string the source would reject is an integer outside 1..MAX_KRW. */
module Pricing {
  datatype Option<+T> = None | Some(value: T)

  /** A call either returns or throws. */
  datatype Attempt<+T> = Returned(value: T) | Threw

  const MAX_KRW: int := 18_446_744_073_709_551_615
  const INCREMENT: int := 250
  const MAX_ROUNDS: int := 10
  const MAX_CANDIDATES: int := 5
  const MAX_REQUESTS: int := 3

  datatype Role = Buyer | Seller

  function Opposite(role: Role): Role {
    if role.Buyer? then Seller else Buyer
  }

  datatype Offer = Offer(maker: Role, price: int)

  datatype Context = Context(role: Role, round: int, reference: Option<int>, current: Option<Offer>)

  datatype Candidate = MakeOffer(price: int) | Accept(price: int)

  /** The private limit: a Buyer's maximum or a Seller's minimum. */
  datatype Policy = AtMost(limit: int) | AtLeast(limit: int)

  function PolicyRole(policy: Policy): Role {
    if policy.AtMost? then Buyer else Seller
  }

  predicate WithinLimit(policy: Policy, price: int) {
    if policy.AtMost? then price <= policy.limit else policy.limit <= price
  }

  predicate IsPrice(price: int) {
    1 <= price <= MAX_KRW
  }

  predicate OnIncrement(price: int) {
    IsPrice(price) && price % INCREMENT == 0
  }

  predicate ValidContext(c: Context) {
    && 1 <= c.round <= MAX_ROUNDS
    && (c.reference.Some? ==> IsPrice(c.reference.value))
    && (c.current.Some? ==> c.current.value.maker != c.role && IsPrice(c.current.value.price))
  }

  // ---- The public ladder ----

  function RoundDown(price: nat): Option<int> {
    var rounded := price / INCREMENT * INCREMENT;
    if INCREMENT <= rounded <= MAX_KRW then Some(rounded) else None
  }

  function RoundUp(price: nat): Option<int> {
    var remainder := price % INCREMENT;
    var rounded := if remainder == 0 then price else price + INCREMENT - remainder;
    if INCREMENT <= rounded <= MAX_KRW then Some(rounded) else None
  }

  /** The share of the reference price, in basis points, that the ladder allows in a round. */
  function BasisPoints(role: Role, round: int): int {
    if role.Buyer? then 9_000 + (round - 1) * 200 else 11_000 - (round - 1) * 200
  }

  /** The exact share with the division floored, before rounding to 250. */
  function LadderShare(role: Role, reference: int, round: int): nat
    requires IsPrice(reference) && 1 <= round <= MAX_ROUNDS
  {
    reference * BasisPoints(role, round) / 10_000
  }

  function LadderPrice(role: Role, reference: int, round: int): Option<int> {
    if !IsPrice(reference) || round < 1 || MAX_ROUNDS < round then None
    else if role.Buyer? then RoundDown(LadderShare(role, reference, round))
    else RoundUp(LadderShare(role, reference, round))
  }

  /** The round a new offer would belong to: only a Buyer that answers an offer opens another round. */
  function NextOfferRound(c: Context): int {
    if c.role.Buyer? && c.current.Some? then c.round + 1 else c.round
  }

  function StrategyTarget(c: Context): Option<int> {
    if c.reference.None? then None
    else
      var round := NextOfferRound(c);
      LadderPrice(c.role, c.reference.value, if round < MAX_ROUNDS then round else MAX_ROUNDS)
  }

  predicate PolicyAllows(policy: Policy, c: Context, candidate: Candidate) {
    && IsPrice(candidate.price)
    && c.role == PolicyRole(policy)
    && (if candidate.Accept? then c.current.Some? && candidate.price == c.current.value.price
        else OnIncrement(candidate.price))
    && WithinLimit(policy, candidate.price)
  }

  predicate StrategyAllows(policy: Policy, c: Context, candidate: Candidate) {
    && PolicyAllows(policy, c, candidate)
    && var target := StrategyTarget(c);
       target.Some? && (if policy.AtMost? then candidate.price <= target.value
                        else target.value <= candidate.price)
  }

  // ---- Shifted coordinates ----

  function MaxOffset(reference: int): int
    requires IsPrice(reference)
  {
    reference * 300 / 10_000
  }

  predicate ValidOffset(reference: int, offset: int) {
    && IsPrice(reference)
    && offset % INCREMENT == 0
    && -MaxOffset(reference) <= offset <= MaxOffset(reference)
  }

  datatype Normalized = Normalized(context: Context, policy: Policy)

  function ShiftPolicy(policy: Policy, delta: int): Policy {
    policy.(limit := policy.limit + delta)
  }

  function ShiftCandidate(candidate: Candidate, delta: int): Candidate {
    candidate.(price := candidate.price + delta)
  }

  function ShiftContext(c: Context, delta: int): Context {
    if c.current.None? then c
    else c.(current := Some(c.current.value.(price := c.current.value.price + delta)))
  }

  function Normalize(c: Context, policy: Policy, offset: int): Option<Normalized> {
    if c.reference.None? || !ValidOffset(c.reference.value, offset) then None
    else if c.current.Some? && !IsPrice(c.current.value.price - offset) then None
    else Some(Normalized(ShiftContext(c, -offset), ShiftPolicy(policy, -offset)))
  }

  /** Back to actual amounts. A price that breaks the limit there is dropped, not sent. */
  function Restore(candidate: Option<Candidate>, c: Context, policy: Policy, offset: int): Option<Candidate> {
    if candidate.None? then None
    else
      var actual := ShiftCandidate(candidate.value, offset);
      if PolicyAllows(policy, c, actual) then Some(actual) else None
  }

  // ---- Candidates from an outside provider ----

  datatype Answer = Failed | Candidates(list: seq<Candidate>)

  /** An arbitrary provider: it sees the public context and the number of the request. */
  type Provider = (Context, nat) -> Answer

  predicate ValidCandidates(list: seq<Candidate>) {
    && 1 <= |list| <= MAX_CANDIDATES
    && forall candidate <- list :: IsPrice(candidate.price) && (candidate.MakeOffer? ==> OnIncrement(candidate.price))
  }

  /** The first candidate of a list that the strategy allows. */
  function FindAllowed(policy: Policy, c: Context, list: seq<Candidate>): Option<Candidate> {
    if list == [] then None
    else if StrategyAllows(policy, c, list[0]) then Some(list[0])
    else FindAllowed(policy, c, list[1..])
  }

  /** What one request contributes: nothing when the provider fails or its list is malformed. */
  function FromRequest(provider: Provider, policy: Policy, c: Context, request: nat): Option<Candidate> {
    var answer := provider(c, request);
    if answer.Candidates? && ValidCandidates(answer.list) then FindAllowed(policy, c, answer.list) else None
  }

  function FirstAllowed(provider: Provider, policy: Policy, c: Context, request: nat, limit: nat): Option<Candidate>
    decreases limit - request
  {
    if limit <= request then None
    else
      var found := FromRequest(provider, policy, c, request);
      if found.Some? then found else FirstAllowed(provider, policy, c, request + 1, limit)
  }

  /** The retry loop of one unshifted call. */
  method RetryLoop(provider: Provider, policy: Policy, c: Context, limit: nat) returns (found: Option<Candidate>)
    ensures found == FirstAllowed(provider, policy, c, 0, limit)
    ensures found.Some? ==> StrategyAllows(policy, c, found.value)
    ensures found.None? ==> forall k: nat :: k < limit ==> FromRequest(provider, policy, c, k).None?
  {
    for request := 0 to limit
      invariant forall k: nat :: k < request ==> FromRequest(provider, policy, c, k).None?
      invariant FirstAllowed(provider, policy, c, 0, limit) == FirstAllowed(provider, policy, c, request, limit)
    {
      var answer := provider(c, request);
      if answer.Candidates? && ValidCandidates(answer.list) {
        found := FindAllowed(policy, c, answer.list);
        if found.Some? {
          FindAllowedSound(policy, c, answer.list);
          return;
        }
      }
    }
    found := None;
  }

  function AllowedCandidate(provider: Provider, c: Context, policy: Policy, limit: nat,
      offset: Option<int>): Option<Candidate> {
    if offset.None? then FirstAllowed(provider, policy, c, 0, limit)
    else
      var normalized := Normalize(c, policy, offset.value);
      if normalized.None? then None
      else
        var n := normalized.value;
        Restore(FirstAllowed(provider, n.policy, n.context, 0, limit), c, policy, offset.value)
  }

  /** The exported call with its errors: an invalid context throws first, and the request bound
      is only looked at once the offset has been accepted. */
  method GenerateAllowedCandidate(provider: Provider, c: Context, policy: Policy, limit: Option<int>,
      offset: Option<int>)
    returns (result: Attempt<Option<Candidate>>)
    ensures result.Threw? <==>
      !ValidContext(c) || (limit.Some? && !(1 <= limit.value <= MAX_REQUESTS) &&
                           (offset.Some? ==> Normalize(c, policy, offset.value).Some?))
    ensures result.Returned? && (limit.Some? ==> 1 <= limit.value <= MAX_REQUESTS) ==>
      result.value == AllowedCandidate(provider, c, policy, if limit.Some? then limit.value else MAX_REQUESTS, offset)
    ensures result.Returned? && result.value.Some? ==> PolicyAllows(policy, c, result.value.value)
    decreases offset.Some?
  {
    if !ValidContext(c) { return Threw; }
    if offset.Some? {
      var normalized := Normalize(c, policy, offset.value);
      if normalized.None? { return Returned(None); }
      result := GenerateAllowedCandidate(provider, normalized.value.context, normalized.value.policy, limit, None);
      if result.Returned? { result := Returned(Restore(result.value, c, policy, offset.value)); }
      return;
    }
    var requests := if limit.Some? then limit.value else MAX_REQUESTS;
    if requests < 1 || MAX_REQUESTS < requests { return Threw; }
    var found := RetryLoop(provider, policy, c, requests);
    result := Returned(found);
  }

  // ---- The local fallback ----

  function LocalFallback(c: Context, policy: Policy): Option<Candidate> {
    if c.role != PolicyRole(policy) then None
    else if c.current.Some? && StrategyAllows(policy, c, Accept(c.current.value.price)) then
      Some(Accept(c.current.value.price))
    else if c.current.None? && policy.AtLeast? then None
    else if c.reference.None? || MAX_ROUNDS < NextOfferRound(c) then None
    else
      var price := LadderPrice(c.role, c.reference.value, NextOfferRound(c));
      if price.None? then None
      else if StrategyAllows(policy, c, MakeOffer(price.value)) then Some(MakeOffer(price.value))
      else None
  }

  function FallbackCandidate(c: Context, policy: Policy, offset: Option<int>): Option<Candidate> {
    if offset.None? then LocalFallback(c, policy)
    else
      var normalized := Normalize(c, policy, offset.value);
      if normalized.None? then None
      else Restore(LocalFallback(normalized.value.context, normalized.value.policy), c, policy, offset.value)
  }

  /** The next move of a party: the provider's first allowed candidate, else the local fallback. */
  function Reply(provider: Provider, c: Context, policy: Policy, offset: int): Option<Candidate> {
    var chosen := AllowedCandidate(provider, c, policy, MAX_REQUESTS, Some(offset));
    if chosen.Some? then chosen else FallbackCandidate(c, policy, Some(offset))
  }

  // ---- What every reply satisfies ----

  lemma {:induction false} FindAllowedSound(policy: Policy, c: Context, list: seq<Candidate>)
    ensures var found := FindAllowed(policy, c, list);
      && (found.Some? ==> found.value in list && StrategyAllows(policy, c, found.value))
      && (found.None? ==> forall candidate <- list :: !StrategyAllows(policy, c, candidate))
  {
    if list != [] && !StrategyAllows(policy, c, list[0]) {
      FindAllowedSound(policy, c, list[1..]);
    }
  }

  lemma {:induction false} FirstAllowedSound(provider: Provider, policy: Policy, c: Context, request: nat, limit: nat)
    ensures var found := FirstAllowed(provider, policy, c, request, limit);
      found.Some? ==> StrategyAllows(policy, c, found.value)
    decreases limit - request
  {
    if request < limit {
      var answer := provider(c, request);
      if answer.Candidates? { FindAllowedSound(policy, c, answer.list); }
      FirstAllowedSound(provider, policy, c, request + 1, limit);
    }
  }

  lemma FallbackIsAllowed(c: Context, policy: Policy)
    ensures LocalFallback(c, policy).Some? ==> StrategyAllows(policy, c, LocalFallback(c, policy).value)
  {
    hide LadderShare;
  }

  /** A move that keeps the actual limit and, in shifted coordinates, the ladder. */
  predicate Permitted(c: Context, policy: Policy, offset: int, candidate: Candidate) {
    && PolicyAllows(policy, c, candidate)
    && c.reference.Some? && ValidOffset(c.reference.value, offset)
    && IsPrice(candidate.price - offset)
    && (candidate.MakeOffer? ==> candidate.price % INCREMENT == 0)
    && StrategyTarget(c).Some?
    && (if policy.AtMost? then candidate.price - offset <= StrategyTarget(c).value
        else StrategyTarget(c).value <= candidate.price - offset)
  }

  /** Whatever the provider answers, every reply keeps the private limit and the public ladder. */
  lemma ReplyIsPermitted(provider: Provider, c: Context, policy: Policy, offset: int)
    ensures var reply := Reply(provider, c, policy, offset);
      reply.Some? ==> Permitted(c, policy, offset, reply.value)
  {
    var normalized := Normalize(c, policy, offset);
    if normalized.Some? {
      FirstAllowedSound(provider, normalized.value.policy, normalized.value.context, 0, MAX_REQUESTS);
    }
  }
}
