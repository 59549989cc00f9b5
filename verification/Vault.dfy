/** What outlives a process: evidence files, session records, private stores and the chain, and what
    every step of a process owes to them, wherever it stops. */
module Vault {
  import opened Pricing
  import opened Commitments
  import Contract

  const CONTRACT_VERSION: nat := 21

  // ---- Public chain state ----

  datatype PublicDeal = PublicDeal(dealId: Bytes32, priceCommitment: Bytes32, status: Contract.Status)

  type Chain = map<nat, PublicDeal>

  function Published(l: Contract.Ledger): PublicDeal {
    PublicDeal(l.dealId, l.priceCommitment, l.status)
  }

  predicate Final(d: PublicDeal) {
    d.status.Settled? || d.status.Cancelled?
  }

  predicate DealForward(a: PublicDeal, b: PublicDeal) {
    a.dealId == b.dealId && (Final(a) ==> b == a)
  }

  predicate ChainForward(a: Chain, b: Chain) {
    forall address <- a :: address in b && DealForward(a[address], b[address])
  }

  /** The contract only moves a public deal forward. */
  lemma ContractMovesForward(l: Contract.Ledger, calls: seq<Contract.Call>, more: seq<Contract.Call>)
    ensures DealForward(Published(Contract.Replay(l, calls)), Published(Contract.Replay(l, calls + more)))
  {
    Contract.ReplayEvolves(l, calls, more);
  }

  // ---- Evidence ----

  datatype Evidence = Evidence(
    role: Role, network: nat, version: nat, address: nat, dealId: Bytes32, price: int, randomness: Bytes32,
    commitment: Bytes32)

  datatype Header = Header(role: Role, network: nat, address: nat)

  /** A stored file: an envelope whose sealed part opens only under the same key and header, or bytes
      that are no envelope. */
  datatype File = Envelope(header: Header, sealedUnder: nat, sealedHeader: Header, contents: Evidence) | Garbage

  function Encrypt(e: Evidence, key: nat): File {
    var header := Header(e.role, e.network, e.address);
    Envelope(header, key, header, e)
  }

  function Decrypt(file: File, key: nat): Option<Evidence> {
    if file.Garbage? || file.sealedUnder != key || file.sealedHeader != file.header then None
    else if file.header != Header(file.contents.role, file.contents.network, file.contents.address) then None
    else Some(file.contents)
  }

  /** The evidence agrees with itself and with the public state of its deal. */
  predicate Verifies(e: Evidence, network: nat, d: PublicDeal) {
    && e.network == network && e.version == CONTRACT_VERSION
    && 0 <= e.price <= MAX_KRW && PriceCommitment(e.dealId, e.price, e.randomness) == e.commitment
    && d.dealId == e.dealId && d.status.Settled? && d.priceCommitment == e.commitment
  }

  /** What was encrypted is read back by its owner only, and not under any other header. */
  lemma EvidenceIsSealed(e: Evidence, key: nat, other: nat, header: Header)
    ensures Decrypt(Encrypt(e, key), other) == if other == key then Some(e) else None
    ensures var moved := Encrypt(e, key).(header := header);
      header != Header(e.role, e.network, e.address) ==> Decrypt(moved, key) == None
  {}

  /** Evidence that verifies against a deployed contract, after any calls by anyone, shows the one price
      the deal settled at, which lies within both committed limits. */
  lemma EvidenceShowsTheSettlement(
      e: Evidence, network: nat,
      dealId: Bytes32, buyerKey: Bytes32, sellerKey: Bytes32, buyerCommitment: Bytes32, calls: seq<Contract.Call>)
    returns (min: Uint64, max: Uint64)
    requires Verifies(e, network,
      Published(Contract.Replay(Contract.Deployed(dealId, buyerKey, sellerKey, buyerCommitment), calls)))
    ensures var l := Contract.Replay(Contract.Deployed(dealId, buyerKey, sellerKey, buyerCommitment), calls);
      && l.status == Contract.Settled
      && (forall o: Opening :: Contract.Opens(l, o) <==> o == Opening(e.price, e.randomness))
      && (forall p: Uint64 :: Contract.BuyerLimitIs(l, p) <==> p == max)
      && (forall p: Uint64 :: Contract.SellerLimitIs(l, p) <==> p == min)
      && min <= e.price <= max
  {
    var opening: Opening;
    opening, min, max := Contract.SettledPriceWithinLimits(dealId, buyerKey, sellerKey, buyerCommitment, calls);
    var l := Contract.Replay(Contract.Deployed(dealId, buyerKey, sellerKey, buyerCommitment), calls);
    assert Contract.Opens(l, Opening(e.price, e.randomness));
  }

  // ---- Sessions ----

  datatype Phase = Active | EvidenceSaved | Cleaned

  datatype Slot = Slot(role: Role, session: nat)

  datatype Record = Record(slot: Slot, network: nat, address: Option<nat>, dealId: Option<Bytes32>, phase: Phase)

  datatype Path = Path(role: Role, address: nat)

  datatype Temporary = Temporary(role: Role, id: nat)

  datatype KeptReason = NoContract | ChainUnavailable | NotFinal | NoOpening | IdentityMismatch | EvidenceRejected

  datatype Outcome = SettledEvidenceSaved | CancelledCleaned | AlreadyCleaned | Kept(reason: KeptReason)

  /** A call either finishes, or the process stops in the middle of it: it crashes or throws. */
  datatype Result = Finished(outcome: Outcome) | Stopped

  predicate BelongsTo(e: Evidence, r: Record, network: nat) {
    e.role == r.slot.role && e.network == network && Some(e.address) == r.address && Some(e.dealId) == r.dealId
  }

  function Build(r: Record, network: nat, opening: Opening): Evidence
    requires r.address.Some? && r.dealId.Some?
  {
    Evidence(r.slot.role, network, CONTRACT_VERSION, r.address.value, r.dealId.value, opening.price, opening.randomness,
             PriceCommitment(r.dealId.value, opening.price, opening.randomness))
  }

  /** The evidence a party builds from its store verifies exactly when its deal is the one on chain, is
      settled, and was settled with this opening. */
  lemma BuiltEvidenceVerifies(r: Record, network: nat, opening: Opening, l: Contract.Ledger)
    requires r.address.Some? && r.dealId.Some?
    ensures Verifies(Build(r, network, opening), network, Published(l)) <==>
      l.dealId == r.dealId.value && l.status == Contract.Settled && Contract.Opens(l, opening)
    ensures BelongsTo(Build(r, network, opening), r, network)
  {}

  /** Everything that outlives the process, and the chain. */
  datatype World = World(
    network: nat, buyerKey: nat, sellerKey: nat,
    evidence: map<Path, File>, temporaries: set<Temporary>, records: map<Slot, Record>,
    openings: map<Slot, Opening>, signingKeys: set<Slot>, chain: Chain)

  /** What happens at one moment: the process may stop there, the indexer or a file may be unreadable,
      and the chain may have moved on. */
  datatype Moment = Moment(stop: bool, unreadable: bool, chain: Chain)

  type Fate = nat -> Moment

  predicate Calm(m: Moment) { !m.stop && !m.unreadable }

  ghost predicate AllCalm(fate: Fate) {
    forall k: nat :: Calm(fate(k))
  }

  // ---- What a world guarantees ----

  /** A session as its record identifies it, with the opening its store started with. */
  datatype Identity = Identity(slot: Slot, address: nat, dealId: Bytes32, opening: Opening)

  function Key(w: World, role: Role): nat {
    if role.Buyer? then w.buyerKey else w.sellerKey
  }

  /** The file at the session's evidence path opens, names exactly this session's party, network,
      contract and deal, and verifies against the chain. */
  predicate GoodEvidence(w: World, role: Role, address: nat, dealId: Bytes32) {
    && Path(role, address) in w.evidence && address in w.chain
    && var e := Decrypt(w.evidence[Path(role, address)], Key(w, role));
       e.Some? && e.value.role == role && e.value.address == address && e.value.dealId == dealId
       && Verifies(e.value, w.network, w.chain[address])
  }

  predicate DealCancelled(w: World, address: nat) {
    address in w.chain && w.chain[address].status.Cancelled?
  }

  /** The price is shown, or there is none to keep. */
  predicate Released(w: World, role: Role, address: nat, dealId: Bytes32) {
    GoodEvidence(w, role, address, dealId) || DealCancelled(w, address)
  }

  predicate Tracked(w: World, id: Identity) {
    && id.slot in w.records && w.records[id.slot].slot == id.slot && w.records[id.slot].network == w.network
    && w.records[id.slot].address == Some(id.address) && w.records[id.slot].dealId == Some(id.dealId)
  }

  /** The opening is not lost: it is still stored, or its session is released. */
  predicate Guarded(w: World, id: Identity) {
    || (id.slot in w.openings && w.openings[id.slot] == id.opening)
    || Released(w, id.slot.role, id.address, id.dealId)
  }

  predicate MarkedClean(w: World, id: Identity) {
    Tracked(w, id) && w.records[id.slot].phase.Cleaned?
  }

  /** Only phases of records change. */
  predicate SameSessions(w: World, v: World) {
    && v.records.Keys == w.records.Keys
    && forall s <- w.records :: v.records[s].(phase := w.records[s].phase) == w.records[s]
  }

  /** Evidence is never removed, and only written for a settled deal. */
  ghost predicate EvidenceForSettled(w: World, v: World) {
    forall p: Path ::
      && (p in w.evidence ==> p in v.evidence)
      && (p in v.evidence && !(p in w.evidence && v.evidence[p] == w.evidence[p]) ==>
            p.address in v.chain && v.chain[p.address].status.Settled?)
  }

  /** The recorded deal is on chain, is the one the record names, and is final. */
  predicate Resolved(w: World, r: Record) {
    Identified(w, r) && Final(w.chain[r.address.value])
  }

  /** Until its deal is resolved a session keeps its record, and every opening and signing key stays
      whose session is not resolved, or not even recorded. */
  ghost predicate KeepsUnresolved(w: World, v: World) {
    && (forall s <- w.records :: s in v.records && (v.records[s] == w.records[s] || Resolved(v, w.records[s])))
    && (forall s <- w.openings ::
          (s in v.openings && v.openings[s] == w.openings[s]) || (s in w.records && Resolved(v, w.records[s])))
    && (forall s <- w.signingKeys :: s in v.signingKeys || (s in w.records && Resolved(v, w.records[s])))
  }

  /** Nothing that was guarded is lost, what is released stays released, and a session is only marked
      clean when its store is erased and it is released. */
  ghost predicate Safe(w: World, v: World) {
    && v.network == w.network && v.buyerKey == w.buyerKey && v.sellerKey == w.sellerKey
    && ChainForward(w.chain, v.chain) && SameSessions(w, v) && EvidenceForSettled(w, v)
    && KeepsUnresolved(w, v)
    && v.openings.Keys <= w.openings.Keys && v.signingKeys <= w.signingKeys
    && (forall role, address, dealId ::
          GoodEvidence(w, role, address, dealId) ==> GoodEvidence(v, role, address, dealId))
    && (forall id: Identity :: Tracked(w, id) && Guarded(w, id) ==> Guarded(v, id))
    && (forall id: Identity :: Tracked(w, id) && MarkedClean(v, id) && !MarkedClean(w, id) ==>
          id.slot !in v.openings && id.slot !in v.signingKeys && Released(v, id.slot.role, id.address, id.dealId))
  }

  /** Only the record, store and evidence file of one session, and temporary files of its role, change. */
  ghost predicate Confined(w: World, v: World, slot: Slot, address: nat) {
    && v.records - {slot} == w.records - {slot}
    && v.openings - {slot} == w.openings - {slot} && v.signingKeys - {slot} == w.signingKeys - {slot}
    && v.openings.Keys <= w.openings.Keys && (forall s <- v.openings :: v.openings[s] == w.openings[s])
    && v.signingKeys <= w.signingKeys
    && v.evidence - {Path(slot.role, address)} == w.evidence - {Path(slot.role, address)}
    && forall t: Temporary :: t.role != slot.role ==> (t in v.temporaries <==> t in w.temporaries)
  }

  /** Nothing of the other role changes. */
  ghost predicate OnlyRole(w: World, v: World, role: Role) {
    && v.records.Keys == w.records.Keys
    && (forall s <- w.records :: s.role != role ==> v.records[s] == w.records[s])
    && (forall s: Slot ::
          s.role != role ==> (s in v.openings <==> s in w.openings) && (s in v.signingKeys <==> s in w.signingKeys))
    && (forall s <- v.openings :: s in w.openings && v.openings[s] == w.openings[s])
    && (forall p: Path :: p.role != role ==> (p in v.evidence <==> p in w.evidence))
    && (forall p <- v.evidence :: p.role != role && p in w.evidence ==> v.evidence[p] == w.evidence[p])
    && (forall t: Temporary :: t.role != role ==> (t in v.temporaries <==> t in w.temporaries))
  }

  predicate Untouched(w: World, v: World) {
    v.(chain := w.chain) == w
  }

  predicate BecomesFinal(w: World, v: World, address: nat) {
    address in v.chain && Final(v.chain[address]) && !(address in w.chain && Final(w.chain[address]))
  }

  /** Some recorded deal is final that was not. */
  predicate NewlyFinal(w: World, v: World) {
    exists s <- w.records :: w.records[s].address.Some? && BecomesFinal(w, v, w.records[s].address.value)
  }

  lemma UnresolvedTransitive(w: World, v: World, u: World)
    requires KeepsUnresolved(w, v) && KeepsUnresolved(v, u) && SameSessions(w, v)
    requires v.network == w.network == u.network && ChainForward(v.chain, u.chain)
    ensures KeepsUnresolved(w, u)
  {
    forall s | s in w.records
      ensures s in v.records && (Resolved(v, w.records[s]) || Resolved(u, v.records[s]) ==> Resolved(u, w.records[s]))
    {
      assert v.records[s].(phase := w.records[s].phase) == w.records[s];
    }
  }

  lemma SafeTransitive(w: World, v: World, u: World)
    requires Safe(w, v) && Safe(v, u)
    ensures Safe(w, u)
  {
    hide GoodEvidence;
    UnresolvedTransitive(w, v, u);
    hide KeepsUnresolved;
    forall id: Identity | Tracked(w, id) ensures Tracked(v, id) {
      assert v.records[id.slot].(phase := w.records[id.slot].phase) == w.records[id.slot];
    }
    forall id: Identity | Tracked(w, id) && MarkedClean(u, id) && !MarkedClean(w, id)
      ensures id.slot !in u.openings && id.slot !in u.signingKeys && Released(u, id.slot.role, id.address, id.dealId)
    {
      assert Tracked(v, id);
      if MarkedClean(v, id) { assert Released(v, id.slot.role, id.address, id.dealId); }
    }
    forall s | s in w.records ensures u.records[s].(phase := w.records[s].phase) == w.records[s] {
      assert v.records[s].(phase := w.records[s].phase) == w.records[s];
      assert u.records[s].(phase := v.records[s].phase) == v.records[s];
    }
  }

  /** What an undecided session can count on, over any run: its record, opening and signing key stay,
      and while the deal is not final the evidence files of its contract stay as they are. */
  lemma UndecidedSessionsKeepEverything(w: World, v: World, slot: Slot)
    requires Safe(w, v) && slot in w.records && !Resolved(v, w.records[slot])
    ensures slot in v.records && v.records[slot] == w.records[slot]
    ensures slot in w.openings ==> slot in v.openings && v.openings[slot] == w.openings[slot]
    ensures slot in w.signingKeys ==> slot in v.signingKeys
    ensures var r := w.records[slot];
      r.address.Some? && !(r.address.value in v.chain && Final(v.chain[r.address.value])) ==>
        forall role: Role ::
          var p := Path(role, r.address.value);
          (p in v.evidence <==> p in w.evidence) && (p in v.evidence ==> v.evidence[p] == w.evidence[p])
  {
    hide GoodEvidence;
  }

  lemma TimeIsConfined(w: World, v: World, slot: Slot, address: nat)
    requires Untouched(w, v)
    ensures Confined(w, v, slot, address)
  {}

  lemma ConfinedTransitive(w: World, v: World, u: World, slot: Slot, address: nat)
    requires Confined(w, v, slot, address) && Confined(v, u, slot, address)
    ensures Confined(w, u, slot, address)
  {}

  lemma NewlyFinalStays(w: World, v: World, u: World)
    requires ChainForward(w.chain, v.chain) && ChainForward(v.chain, u.chain) && SameSessions(w, v)
    requires NewlyFinal(w, v) || NewlyFinal(v, u)
    ensures NewlyFinal(w, u)
  {
    if NewlyFinal(w, v) {
      var s :| s in w.records && w.records[s].address.Some? && BecomesFinal(w, v, w.records[s].address.value);
      assert BecomesFinal(w, u, w.records[s].address.value);
    } else {
      var s :| s in v.records && v.records[s].address.Some? && BecomesFinal(v, u, v.records[s].address.value);
      assert v.records[s].(phase := w.records[s].phase) == w.records[s];
      assert BecomesFinal(w, u, w.records[s].address.value);
    }
  }

  /** Time alone is safe: a verified deal is final, and final deals do not change. */
  lemma TimeIsSafe(w: World, v: World)
    requires v.(chain := w.chain) == w && ChainForward(w.chain, v.chain)
    ensures Safe(w, v)
  {}

  // ---- Sessions and what can be finished ----

  predicate Recorded(w: World, r: Record) {
    r.slot in w.records && w.records[r.slot].(phase := r.phase) == r
  }

  /** The deal of this session is on chain with the recorded identity. */
  predicate Identified(w: World, r: Record) {
    && r.address.Some? && r.dealId.Some? && r.network == w.network
    && r.address.value in w.chain && w.chain[r.address.value].dealId == r.dealId.value
  }

  /** The session's secrets may go. */
  predicate MayErase(w: World, r: Record) {
    Recorded(w, r) && Identified(w, r) && Released(w, r.slot.role, r.address.value, r.dealId.value)
  }

  /** The settled price can be shown: good evidence exists, or the stored opening fits the chain. */
  predicate Backed(w: World, r: Record)
    requires Identified(w, r)
  {
    || GoodEvidence(w, r.slot.role, r.address.value, r.dealId.value)
    || (r.slot in w.openings &&
        PriceCommitment(r.dealId.value, w.openings[r.slot].price, w.openings[r.slot].randomness) ==
          w.chain[r.address.value].priceCommitment)
  }

  /** What a run without faults finishes. */
  predicate Cleanable(w: World, r: Record) {
    && !r.phase.Cleaned? && Identified(w, r)
    && (w.chain[r.address.value].status.Cancelled? || (w.chain[r.address.value].status.Settled? && Backed(w, r)))
  }

  /** Why a session is kept, by what it found: `w` is the world before, `v` the one after, and `calm`
      says that nothing was unreadable. */
  predicate ReasonFits(w: World, v: World, r: Record, calm: bool, reason: KeptReason) {
    match reason
    case NoContract => r.address.None?
    case IdentityMismatch =>
      r.address.Some? &&
      (r.dealId.None? || r.network != v.network ||
       (r.address.value in v.chain && v.chain[r.address.value].dealId != r.dealId.value))
    case ChainUnavailable => r.address.Some? && r.dealId.Some? && (calm ==> r.address.value !in w.chain)
    case NotFinal => Identified(v, r) && !Final(v.chain[r.address.value])
    case NoOpening => SettledFor(v, r) && r.slot !in v.openings
    case EvidenceRejected => SettledFor(v, r) && r.slot in v.openings
  }

  lemma ReasonsFit(w: World, v: World, r: Record, calm: bool)
    ensures r.address.None? ==> ReasonFits(w, v, r, calm, NoContract)
    ensures r.address.Some? && (r.dealId.None? || r.network != v.network) ==>
      ReasonFits(w, v, r, calm, IdentityMismatch)
    ensures r.address.Some? && r.dealId.Some? ==>
      && ((calm ==> r.address.value !in w.chain) ==> ReasonFits(w, v, r, calm, ChainUnavailable))
      && (r.address.value in v.chain && v.chain[r.address.value].dealId != r.dealId.value ==>
            ReasonFits(w, v, r, calm, IdentityMismatch))
    ensures Identified(v, r) && !Final(v.chain[r.address.value]) ==> ReasonFits(w, v, r, calm, NotFinal)
    ensures SettledFor(v, r) ==>
      ReasonFits(w, v, r, calm, if r.slot in v.openings then EvidenceRejected else NoOpening)
  {}

  predicate SettledFor(w: World, r: Record) {
    Identified(w, r) && w.chain[r.address.value].status.Settled?
  }

  /** Finished for good: marked, erased, and released. */
  predicate IsDone(w: World, r: Record) {
    && r.slot !in w.openings && r.slot !in w.signingKeys
    && r.slot in w.records && w.records[r.slot] == r.(phase := Cleaned)
    && MayErase(w, r)
  }

  lemma ReleasedStays(w: World, v: World, role: Role, address: nat, dealId: Bytes32)
    requires Safe(w, v) && Released(w, role, address, dealId)
    ensures Released(v, role, address, dealId)
    ensures GoodEvidence(w, role, address, dealId) ==> GoodEvidence(v, role, address, dealId)
  {}

  lemma MayEraseStays(w: World, v: World, r: Record)
    requires Safe(w, v) && MayErase(w, r)
    ensures MayErase(v, r)
    ensures GoodEvidence(w, r.slot.role, r.address.value, r.dealId.value) ==>
      GoodEvidence(v, r.slot.role, r.address.value, r.dealId.value)
  {
    ReleasedStays(w, v, r.slot.role, r.address.value, r.dealId.value);
    assert v.records[r.slot].(phase := w.records[r.slot].phase) == w.records[r.slot];
  }

  lemma ReleasedStays2(w: World, v: World, r: Record)
    requires Safe(w, v) && r.address.Some? && r.dealId.Some?
    ensures GoodEvidence(w, r.slot.role, r.address.value, r.dealId.value) ==>
      GoodEvidence(v, r.slot.role, r.address.value, r.dealId.value)
    ensures Identified(w, r) ==> Identified(v, r)
  {}

  /** A final deal is the same later on. */
  lemma FinalStays(w: World, v: World, r: Record)
    requires Safe(w, v) && r.address.Some?
    ensures Identified(w, r) ==> Identified(v, r)
    ensures v.network == w.network
    ensures r.address.value in w.chain && Final(w.chain[r.address.value]) ==>
      r.address.value in v.chain && v.chain[r.address.value] == w.chain[r.address.value]
    ensures ChainForward(w.chain, v.chain)
  {}

  /** What can be finished now could be finished before, unless a deal has become final since. */
  lemma CleanableBefore(w: World, v: World, r: Record)
    requires Untouched(w, v) && ChainForward(w.chain, v.chain) && Recorded(w, r) && Cleanable(v, r)
    ensures Cleanable(w, r) || NewlyFinal(w, v)
  {
    assert w.records[r.slot].address == r.address;
    if BecomesFinal(w, v, r.address.value) { assert NewlyFinal(w, v); }
  }

  lemma StillVerifies(w: World, v: World, e: Evidence)
    requires Safe(w, v) && e.address in w.chain && Verifies(e, w.network, w.chain[e.address])
    ensures e.address in v.chain && Verifies(e, v.network, v.chain[e.address])
  {}

  /** Temporary files are not part of any guarantee. */
  lemma LeftoversAreSafe(w: World, temporaries: set<Temporary>)
    ensures Safe(w, w.(temporaries := temporaries))
  {}

  /** Verified evidence may replace whatever is at its path: evidence that was good there named the
      same deal, and so does the new one. */
  lemma EvidenceMayBeReplaced(w: World, e: Evidence)
    requires e.address in w.chain && Verifies(e, w.network, w.chain[e.address])
    ensures var v := w.(evidence := w.evidence[Path(e.role, e.address) := Encrypt(e, Key(w, e.role))]);
      Safe(w, v) && Confined(w, v, Slot(e.role, 0), e.address) && GoodEvidence(v, e.role, e.address, e.dealId)
  {}

  lemma ErasureIsSafe(w: World, r: Record)
    requires MayErase(w, r)
    ensures Safe(w, w.(openings := w.openings - {r.slot}))
  {}

  lemma KeyRemovalIsSafe(w: World, r: Record)
    requires MayErase(w, r)
    ensures Safe(w, w.(signingKeys := w.signingKeys - {r.slot}))
  {}

  /** A record may move to a later phase once its session may be erased, and to the last one once it is. */
  lemma MarkIsSafe(w: World, r: Record)
    requires MayErase(w, r) && (r.phase.Cleaned? ==> r.slot !in w.openings && r.slot !in w.signingKeys)
    ensures Safe(w, w.(records := w.records[r.slot := r]))
  {}

  predicate Pending(r: Record, skip: Option<nat>) {
    !r.phase.Cleaned? && Some(r.slot.session) != skip
  }

  /** No partial writes and nothing to finish for this role. */
  predicate Quiet(w: World, role: Role, skip: Option<nat>) {
    && (forall t <- w.temporaries :: t.role != role)
    && (forall s <- w.records :: s.role == role && Pending(w.records[s], skip) ==> !Cleanable(w, w.records[s]))
  }

  lemma NothingHappened(w: World, role: Role)
    ensures Safe(w, w) && OnlyRole(w, w, role)
  {}

  /** The effect of one session, or none, within a whole recovery. */
  lemma StepInList(w: World, v: World, u: World, role: Role, r: Record)
    requires Safe(w, v) && Safe(v, u) && OnlyRole(w, v, role) && r.slot.role == role
    requires if r.address.Some? then Confined(v, u, r.slot, r.address.value) else Untouched(v, u)
    ensures Safe(w, u) && OnlyRole(w, u, role)
  {
    SafeTransitive(w, v, u);
    ConfinedIsOnlyRole(v, u, r);
    OnlyRoleTransitive(w, v, u, role);
  }

  lemma ConfinedIsOnlyRole(v: World, u: World, r: Record)
    requires SameSessions(v, u)
    requires if r.address.Some? then Confined(v, u, r.slot, r.address.value) else Untouched(v, u)
    ensures OnlyRole(v, u, r.slot.role)
  {
    if r.address.Some? {
      forall s | s in v.records && s != r.slot ensures u.records[s] == v.records[s] {
        assert s in v.records - {r.slot} && (v.records - {r.slot})[s] == (u.records - {r.slot})[s];
      }
      forall s: Slot | s != r.slot
        ensures (s in u.openings <==> s in v.openings) && (s in u.signingKeys <==> s in v.signingKeys)
      {
        assert s in (u.openings - {r.slot}).Keys <==> s in u.openings;
        assert s in (v.openings - {r.slot}).Keys <==> s in v.openings;
        assert s in u.signingKeys - {r.slot} <==> s in v.signingKeys - {r.slot};
      }
      var path := Path(r.slot.role, r.address.value);
      forall p: Path | p != path
        ensures (p in u.evidence <==> p in v.evidence) && (p in u.evidence ==> u.evidence[p] == v.evidence[p])
      {
        assert p in (u.evidence - {path}).Keys <==> p in u.evidence;
        assert p in (v.evidence - {path}).Keys <==> p in v.evidence;
        if p in u.evidence { assert (u.evidence - {path})[p] == (v.evidence - {path})[p]; }
      }
    }
  }

  lemma OnlyRoleTransitive(w: World, v: World, u: World, role: Role)
    requires OnlyRole(w, v, role) && OnlyRole(v, u, role)
    ensures OnlyRole(w, u, role)
  {}

  lemma SafeMovesForward(w: World, v: World)
    requires Safe(w, v)
    ensures ChainForward(w.chain, v.chain) && SameSessions(w, v)
  {}

  /** Finishing one session leaves every other session as finishable, or as finished, as it was. */
  lemma OthersKeep(v: World, u: World, r: Record, q: Record)
    requires Safe(v, u) && q.slot != r.slot
    requires if r.address.Some? then Confined(v, u, r.slot, r.address.value) else Untouched(v, u)
    ensures Cleanable(v, q) ==> Cleanable(u, q)
    ensures IsDone(v, q) ==> IsDone(u, q)
    ensures q.slot in v.records ==> q.slot in u.records && u.records[q.slot] == v.records[q.slot]
  {
    hide GoodEvidence;
    if r.address.Some? {
      assert q.slot in (u.openings - {r.slot}).Keys <==> q.slot in u.openings;
      assert q.slot in (v.openings - {r.slot}).Keys <==> q.slot in v.openings;
      assert q.slot in u.signingKeys - {r.slot} <==> q.slot in v.signingKeys - {r.slot};
      if q.slot in v.records {
        assert q.slot in v.records - {r.slot} && (v.records - {r.slot})[q.slot] == (u.records - {r.slot})[q.slot];
      }
    }
    if IsDone(v, q) { ReleasedStays(v, u, q.slot.role, q.address.value, q.dealId.value); }
    if Cleanable(v, q) { FinalStays(v, u, q); ReleasedStays2(v, u, q); }
  }

  /** Clearing temporary files leaves every session as it was. */
  lemma ClearedSessions(w: World, v: World, r: Record)
    requires Safe(w, v) && v.(chain := w.chain, temporaries := w.temporaries) == w
    ensures Cleanable(w, r) ==> Cleanable(v, r)
    ensures IsDone(w, r) ==> IsDone(v, r)
  {
    hide GoodEvidence;
    if Cleanable(w, r) { FinalStays(w, v, r); ReleasedStays2(w, v, r); }
    if IsDone(w, r) { ReleasedStays(w, v, r.slot.role, r.address.value, r.dealId.value); }
  }
}
