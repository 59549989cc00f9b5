/** The deterministic mock provider and the local fallback choose the same message. */
module Fallback {
  import opened Pricing
  import opened Ladder

  function Unique(list: seq<Candidate>): seq<Candidate> {
    if list == [] then []
    else
      var rest := Unique(list[..|list| - 1]);
      if list[|list| - 1] in list[..|list| - 1] then rest else rest + [list[|list| - 1]]
  }

  /** Keeps the first copy of every candidate. */
  method UniqueCandidates(list: seq<Candidate>) returns (kept: seq<Candidate>)
    ensures kept == Unique(list)
    ensures forall x :: x in kept <==> x in list
    ensures forall i, j :: 0 <= i < j < |kept| ==> kept[i] != kept[j]
  {
    var seen: set<Candidate> := {};
    kept := [];
    for k := 0 to |list|
      invariant kept == Unique(list[..k])
      invariant forall x :: x in seen <==> x in list[..k]
      invariant forall x :: x in kept <==> x in list[..k]
      invariant forall i, j :: 0 <= i < j < |kept| ==> kept[i] != kept[j]
    {
      assert list[..k + 1][..k] == list[..k];
      assert list[..k + 1] == list[..k] + [list[k]];
      if list[k] !in seen {
        seen := seen + {list[k]};
        kept := kept + [list[k]];
      }
    }
    assert list[..|list|] == list;
  }

  /** What the mock offers: accept whatever is on the table, else the ladder price of the round. */
  function MockList(fallbackReference: int, x: Context): seq<Candidate> {
    var reference := if x.reference.Some? then x.reference.value else fallbackReference;
    var round := NextOfferRound(x);
    var counter := if MAX_ROUNDS < round then None else LadderPrice(x.role, reference, round);
    Unique((if x.current.Some? then [Accept(x.current.value.price)] else []) +
           (if counter.Some? then [MakeOffer(counter.value)] else []))
  }

  /** The mock throws on an invalid context, for a Seller without an offer, and with nothing to say. */
  function Mock(fallbackReference: int): Provider {
    (x: Context, request: nat) =>
      if !ValidContext(x) || (x.current.None? && x.role.Seller?) || MockList(fallbackReference, x) == [] then Failed
      else Candidates(MockList(fallbackReference, x))
  }

  const OFFLINE: Provider := (x: Context, request: nat) => Failed

  lemma RungIsOnIncrement(role: Role, reference: int, round: int)
    ensures LadderPrice(role, reference, round).Some? ==> OnIncrement(LadderPrice(role, reference, round).value)
  {
    if IsPrice(reference) && 1 <= round <= MAX_ROUNDS {
      LadderIsRounded(reference, round);
      RoundingBounds(LadderShare(role, reference, round));
    }
  }

  lemma UniqueShort(a: Candidate, b: Candidate)
    requires a != b
    ensures Unique([a]) == [a] && Unique([a, b]) == [a, b]
  {
    assert [a][..0] == [] && [a, b][..1] == [a];
  }

  lemma FindShort(policy: Policy, x: Context, a: Candidate, b: Candidate)
    ensures FindAllowed(policy, x, [a]) == if StrategyAllows(policy, x, a) then Some(a) else None
    ensures FindAllowed(policy, x, [a, b]) ==
      if StrategyAllows(policy, x, a) then Some(a) else if StrategyAllows(policy, x, b) then Some(b) else None
  {
    assert [a][1..] == [] && [a, b][1..] == [b] && [b][1..] == [];
  }

  /** The list of the mock, which has no duplicates to remove. */
  lemma MockListIs(fallbackReference: int, x: Context)
    requires ValidContext(x)
    ensures var reference := if x.reference.Some? then x.reference.value else fallbackReference;
      var counter := if MAX_ROUNDS < NextOfferRound(x) then None else LadderPrice(x.role, reference, NextOfferRound(x));
      && MockList(fallbackReference, x) ==
        (if x.current.Some? then
           if counter.Some? then [Accept(x.current.value.price), MakeOffer(counter.value)]
           else [Accept(x.current.value.price)]
         else if counter.Some? then [MakeOffer(counter.value)] else [])
      && (MockList(fallbackReference, x) != [] ==> ValidCandidates(MockList(fallbackReference, x)))
  {
    hide LadderPrice;
    hide LadderShare;
    var reference := if x.reference.Some? then x.reference.value else fallbackReference;
    RungIsOnIncrement(x.role, reference, NextOfferRound(x));
    var counter := if MAX_ROUNDS < NextOfferRound(x) then None else LadderPrice(x.role, reference, NextOfferRound(x));
    var offer := MakeOffer(if counter.Some? then counter.value else 0);
    if x.current.Some? {
      var accept := Accept(x.current.value.price);
      UniqueShort(accept, offer);
      assert [accept] + [offer] == [accept, offer] && [accept] + [] == [accept];
    } else {
      UniqueShort(offer, Accept(0));
      assert [] + [offer] == [offer];
    }
  }

  lemma MockListChoosesFallback(fallbackReference: int, x: Context, policy: Policy)
    requires ValidContext(x) && (x.current.Some? || x.role.Buyer?)
    ensures FindAllowed(policy, x, MockList(fallbackReference, x)) == LocalFallback(x, policy)
  {
    hide LadderShare;
    hide MockList;
    MockListIs(fallbackReference, x);
    var list := MockList(fallbackReference, x);
    if |list| == 2 { FindShort(policy, x, list[0], list[1]); }
    if |list| == 1 { FindShort(policy, x, list[0], list[0]); }
  }

  lemma MockChoosesFallback(fallbackReference: int, x: Context, policy: Policy)
    requires ValidContext(x)
    ensures forall k: nat :: FromRequest(Mock(fallbackReference), policy, x, k) == LocalFallback(x, policy)
  {
    hide LadderPrice;
    hide MockList;
    MockListIs(fallbackReference, x);
    if x.current.Some? || x.role.Buyer? { MockListChoosesFallback(fallbackReference, x, policy); }
  }

  lemma {:induction false} SameEveryRequest(provider: Provider, policy: Policy, x: Context, request: nat, limit: nat)
    requires forall k: nat :: FromRequest(provider, policy, x, k) == FromRequest(provider, policy, x, 0)
    ensures FirstAllowed(provider, policy, x, request, limit) ==
      if request < limit then FromRequest(provider, policy, x, 0) else None
    decreases limit - request
  {
    if request < limit {
      assert FromRequest(provider, policy, x, request) == FromRequest(provider, policy, x, 0);
      SameEveryRequest(provider, policy, x, request + 1, limit);
    }
  }

  /** The mock, run through the retry-and-filter loop, returns exactly what the local fallback
      returns: for every context, policy and offset, with or without a reference price. */
  lemma MockIsFallback(fallbackReference: int, x: Context, policy: Policy, limit: nat, offset: Option<int>)
    requires ValidContext(x) && 1 <= limit
    ensures AllowedCandidate(Mock(fallbackReference), x, policy, limit, offset) == FallbackCandidate(x, policy, offset)
  {
    if offset.None? {
      MockChoosesFallback(fallbackReference, x, policy);
      SameEveryRequest(Mock(fallbackReference), policy, x, 0, limit);
    } else {
      var normalized := Normalize(x, policy, offset.value);
      if normalized.Some? {
        MockChoosesFallback(fallbackReference, normalized.value.context, normalized.value.policy);
        SameEveryRequest(Mock(fallbackReference), normalized.value.policy, normalized.value.context, 0, limit);
      }
    }
  }

  /** A provider that leaves every choice to the local fallback, or makes the same choice. */
  ghost predicate FallbackOnly(provider: Provider) {
    forall x, policy, offset ::
      ValidContext(x) ==> Reply(provider, x, policy, offset) == FallbackCandidate(x, policy, Some(offset))
  }

  lemma OfflineIsFallbackOnly()
    ensures FallbackOnly(OFFLINE)
  {
    forall x, policy, offset | ValidContext(x)
      ensures Reply(OFFLINE, x, policy, offset) == FallbackCandidate(x, policy, Some(offset))
    {
      var normalized := Normalize(x, policy, offset);
      if normalized.Some? {
        SameEveryRequest(OFFLINE, normalized.value.policy, normalized.value.context, 0, MAX_REQUESTS);
      }
    }
  }

  lemma MockIsFallbackOnly(fallbackReference: int)
    ensures FallbackOnly(Mock(fallbackReference))
  {
    forall x, policy, offset | ValidContext(x)
      ensures Reply(Mock(fallbackReference), x, policy, offset) == FallbackCandidate(x, policy, Some(offset))
    {
      MockIsFallback(fallbackReference, x, policy, MAX_REQUESTS, Some(offset));
    }
  }

  /** Tightening a limit makes the reply identical or absent, never different. */
  lemma LimitsNeverShapeAPrice(x: Context, loose: Policy, tight: Policy, offset: Option<int>)
    requires loose.AtMost? == tight.AtMost?
    requires if loose.AtMost? then tight.limit <= loose.limit else loose.limit <= tight.limit
    ensures var reply := FallbackCandidate(x, tight, offset);
      reply.Some? ==> reply == FallbackCandidate(x, loose, offset)
  {
    hide LadderPrice;
  }
}
