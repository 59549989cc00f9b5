/** Finishing a session after its deal is final: evidence is written and verified before the private
    state is erased. Files, stores and the chain outlive the process, which may stop between any two
    steps. */
module Recovery {
  import opened Pricing
  import opened Commitments
  import Contract
  import Runtimes
  import Settlement
  import opened Vault
  import opened Convergence

  // ---- One run ----

  /** How far a calm run has come. */
  ghost predicate Progress(w: World, u: World, list: seq<Record>, k: nat, skip: Option<nat>)
    requires k <= |list|
  {
    Finishing(w, u, list, k, skip) && (!NewlyFinal(w, u) ==> Traced(w, u, list, k, skip))
  }

  lemma ProgressStarts(w: World, role: Role, list: seq<Record>, skip: Option<nat>)
    requires Listed(w, role, list)
    ensures Progress(w, w, list, 0, skip)
  {
    FinishingStarts(w, role, list, skip);
    TraceStarts(w, role, list, skip);
  }

  lemma ProgressSkips(w: World, v: World, list: seq<Record>, k: nat, skip: Option<nat>)
    requires k < |list| && Progress(w, v, list, k, skip) && !Pending(list[k], skip)
    ensures Progress(w, v, list, k + 1, skip)
  {
    hide Cleanable;
    hide IsDone;
    hide NewlyFinal;
    hide Traced;
    if !NewlyFinal(w, v) { TraceSkips(w, v, list, k, skip); }
  }

  lemma ProgressContinues(w: World, v: World, u: World, role: Role, list: seq<Record>, k: nat, skip: Option<nat>)
    requires k < |list| && Listed(w, role, list) && Progress(w, v, list, k, skip) && Pending(list[k], skip)
    requires list[k].slot in v.records && v.records[list[k].slot] == list[k]
    requires Safe(w, v) && Safe(v, u) && Effect(v, u, list[k])
    requires if list[k].address.Some? then Confined(v, u, list[k].slot, list[k].address.value) else Untouched(v, u)
    ensures Progress(w, u, list, k + 1, skip)
  {
    hide Safe;
    hide Confined;
    hide Effect;
    hide NewlyFinal;
    hide Finishing;
    hide Traced;
    FinishingContinues(w, v, u, role, list, k, skip);
    if !NewlyFinal(w, u) {
      StillNotFinal(w, v, u);
      TraceContinues(w, v, u, role, list, k, skip);
    }
  }

  /** What a recovery without faults achieves: everything that can be finished is, what was done stays
      done, and partial writes are gone. If there was nothing to do nothing was touched. Afterwards,
      unless a deal became final meanwhile, exactly the sessions that were passed over are left to do. */
  ghost predicate Recovered(w: World, u: World, role: Role, skip: Option<nat>) {
    && (forall t <- u.temporaries :: t.role != role)
    && (forall s <- w.records ::
          s.role == role && Pending(w.records[s], skip) && Cleanable(w, w.records[s]) ==> IsDone(u, w.records[s]))
    && (forall s <- w.records :: s.role == role && IsDone(w, w.records[s]) ==> IsDone(u, w.records[s]))
    && (Quiet(w, role, skip) ==> Untouched(w, u) || NewlyFinal(w, u))
    && (!NewlyFinal(w, u) ==> Exact(w, u, role, skip))
  }

  ghost predicate Exact(w: World, u: World, role: Role, skip: Option<nat>) {
    forall s <- w.records :: s.role == role ==>
      && s in u.records
      && (LeftToDo(u, s, skip) <==> PassedOver(w, role, s, skip))
      && (w.records[s].phase.Cleaned? ==> u.records[s] == w.records[s])
  }

  lemma QuietUnlessPassedOver(w: World, u: World, role: Role, skip: Option<nat>)
    requires Recovered(w, u, role, skip) && SameSessions(w, u) && !NewlyFinal(w, u)
    ensures Quiet(u, role, skip) <==> !NeedsTwoRuns(w, role, skip)
  {
    hide PassedOver;
    hide Cleanable;
    hide IsDone;
    hide NewlyFinal;
    if NeedsTwoRuns(w, role, skip) {
      var s :| PassedOver(w, role, s, skip);
      PassedOverIsRecorded(w, role, s, skip);
      assert LeftToDo(u, s, skip);
    }
    if !Quiet(u, role, skip) {
      var s :| s in u.records && s.role == role && Pending(u.records[s], skip) && Cleanable(u, u.records[s]);
      assert LeftToDo(u, s, skip);
    }
  }

  lemma PassedOverIsRecorded(w: World, role: Role, s: Slot, skip: Option<nat>)
    requires PassedOver(w, role, s, skip)
    ensures s in w.records && s.role == role
  {}

  lemma QuietStaysUntouched(w: World, v: World, u: World, role: Role, list: seq<Record>, skip: Option<nat>)
    requires Safe(w, v) && v.(chain := w.chain, temporaries := w.temporaries) == w && v.temporaries <= w.temporaries
    requires OnlyRole(w, v, role) && Safe(v, u) && Listed(v, role, list) && Finishing(v, u, list, |list|, skip)
    requires Quiet(w, role, skip) && !NewlyFinal(w, u)
    ensures Untouched(w, u)
  {
    hide Safe;
    hide Cleanable;
    hide IsDone;
    hide NewlyFinal;
    StillNotFinal(w, v, u);
    SafeMovesForward(w, v);
    assert v.temporaries == w.temporaries by {
      forall t | t in w.temporaries ensures t in v.temporaries { assert t.role != role; }
    }
    forall r | r in list && Pending(r, skip) ensures !Cleanable(v, r) {
      if Cleanable(v, r) { CleanableBefore(w, v, r); }
    }
  }

  lemma ExactAfterClearing(w: World, v: World, u: World, role: Role, list: seq<Record>, skip: Option<nat>)
    requires Safe(w, v) && v.(chain := w.chain, temporaries := w.temporaries) == w
    requires Safe(v, u) && AllListed(v, role, list) && Progress(v, u, list, |list|, skip) && !NewlyFinal(w, u)
    ensures Exact(w, u, role, skip)
  {
    hide Safe;
    hide Finishing;
    hide NewlyFinal;
    hide Traced;
    hide PassedOver;
    hide LeftToDo;
    SafeMovesForward(v, u);
    StillNotFinal(w, v, u);
    LeftIfPassedOver(v, u, role, list, skip);
    ClearingPassesNoneOver(w, v, role, skip);
  }

  lemma RecoveryCompletes(w: World, v: World, u: World, role: Role, list: seq<Record>, skip: Option<nat>)
    requires Safe(w, v) && v.(chain := w.chain, temporaries := w.temporaries) == w && v.temporaries <= w.temporaries
    requires OnlyRole(w, v, role) && forall t <- v.temporaries :: t.role != role
    requires Safe(v, u) && AllListed(v, role, list) && Progress(v, u, list, |list|, skip)
    ensures Recovered(w, u, role, skip)
  {
    hide Safe;
    hide OnlyRole;
    hide Cleanable;
    hide IsDone;
    hide NewlyFinal;
    hide Traced;
    hide Exact;
    hide Quiet;
    hide Untouched;
    forall s | s in w.records ensures
      && (Cleanable(w, w.records[s]) ==> Cleanable(v, w.records[s]))
      && (IsDone(w, w.records[s]) ==> IsDone(v, w.records[s]))
    {
      ClearedSessions(w, v, w.records[s]);
    }
    if !NewlyFinal(w, u) {
      if Quiet(w, role, skip) { QuietStaysUntouched(w, v, u, role, list, skip); }
      ExactAfterClearing(w, v, u, role, list, skip);
    }
  }

  lemma TemporariesDoNotMatter(w: World, v: World, r: Record)
    ensures Cleanable(v.(temporaries := w.temporaries), r) == Cleanable(v, r)
    ensures NewlyFinal(w, v.(temporaries := w.temporaries)) == NewlyFinal(w, v)
  {}

  lemma ClearedAlike(w: World, v: World, r: Record)
    requires Safe(w, v) && v.(chain := w.chain, temporaries := w.temporaries) == w && !NewlyFinal(w, v) &&
      Recorded(w, r)
    ensures Cleanable(v, r) <==> Cleanable(w, r)
    ensures OnSettled(v, r) <==> OnSettled(w, r)
  {
    hide Cleanable;
    hide NewlyFinal;
    ClearedSessions(w, v, r);
    SettledAlike(w, v, r);
    SafeMovesForward(w, v);
    TemporariesDoNotMatter(w, v, r);
    if Cleanable(v, r) { CleanableBefore(w, v.(temporaries := w.temporaries), r); }
  }

  lemma ClearingPassesNoneOver(w: World, v: World, role: Role, skip: Option<nat>)
    requires Safe(w, v) && v.(chain := w.chain, temporaries := w.temporaries) == w && !NewlyFinal(w, v)
    requires forall s <- w.records :: w.records[s].slot == s
    ensures forall s :: PassedOver(w, role, s, skip) <==> PassedOver(v, role, s, skip)
  {
    hide Safe;
    hide Cleanable;
    hide OnSettled;
    hide NewlyFinal;
    forall s | s in w.records
      ensures Cleanable(v, w.records[s]) == Cleanable(w, w.records[s])
      ensures OnSettled(v, w.records[s]) == OnSettled(w, w.records[s])
    {
      ClearedAlike(w, v, w.records[s]);
    }
    forall r: Record, t ensures IsHelper(v, role, t, r, skip) == IsHelper(w, role, t, r, skip) {}
    forall s ensures PassedOver(v, role, s, skip) == PassedOver(w, role, s, skip) {}
  }

  /** What became finishable in a calm run did so by evidence, which serves all who share the deal. */
  lemma HelpedIsByEvidence(w: World, v: World, role: Role, t: Slot, r: Record, skip: Option<nat>)
    requires Safe(w, v) && OnlyRole(w, v, role) && Recovered(w, v, role, skip) && !NewlyFinal(w, v)
    requires t in w.records && w.records[t].slot == t && IsHelper(v, role, t, r, skip) && !r.phase.Cleaned?
    ensures Cleanable(v, r)
  {
    hide Safe;
    var q, q' := w.records[t], v.records[t];
    SafeMovesForward(w, v);
    assert q'.(phase := q.phase) == q && !q.phase.Cleaned?;
    assert !BecomesFinal(w, v, q.address.value);
    FinalStays(w, v, q);
    assert !Cleanable(w, q);
    assert GoodEvidence(v, role, q.address.value, q.dealId.value);
  }

  /** A calm run passes over no session when it follows another calm run. */
  lemma SecondRunPassesNoneOver(w: World, v: World, role: Role, skip: Option<nat>)
    requires Safe(w, v) && OnlyRole(w, v, role) && Recovered(w, v, role, skip) && !NewlyFinal(w, v)
    requires forall s <- w.records :: w.records[s].slot == s
    ensures !NeedsTwoRuns(v, role, skip)
  {
    hide Safe;
    hide OnlyRole;
    hide Recovered;
    hide Cleanable;
    hide NewlyFinal;
    SafeMovesForward(w, v);
    forall s ensures !PassedOver(v, role, s, skip) {
      if s in v.records && Pending(v.records[s], skip) {
        forall t | IsHelper(v, role, t, v.records[s], skip) ensures Cleanable(v, v.records[s]) {
          HelpedIsByEvidence(w, v, role, t, v.records[s], skip);
        }
      }
    }
  }

  /** What is left to do before a calm run is changed by it. */
  lemma LeftIsFinished(v: World, u: World, role: Role, s: Slot, skip: Option<nat>)
    requires Recovered(v, u, role, skip) && s in v.records && v.records[s].slot == s && s.role == role
    requires LeftToDo(v, s, skip)
    ensures IsDone(u, v.records[s]) && !Untouched(v, u)
  {
    hide Cleanable;
    hide MayErase;
    hide Exact;
    hide Quiet;
    hide NewlyFinal;
    assert IsDone(u, v.records[s]);
  }

  /** The second run finishes every session that the first one passed over. */
  lemma PassedOverIsFinished(w: World, v: World, u: World, role: Role, s: Slot, skip: Option<nat>)
    requires SameSessions(w, v) && Recovered(w, v, role, skip) && Recovered(v, u, role, skip) && !NewlyFinal(w, v)
    requires PassedOver(w, role, s, skip) && forall t <- w.records :: w.records[t].slot == t
    ensures s in v.records && IsDone(u, v.records[s]) && !Untouched(v, u)
  {
    hide Cleanable;
    hide Recovered;
    hide PassedOver;
    hide NewlyFinal;
    hide IsDone;
    hide Untouched;
    PassedOverIsRecorded(w, role, s, skip);
    LeftExactly(w, v, role, s, skip);
    assert v.records[s].(phase := w.records[s].phase) == w.records[s];
    LeftIsFinished(v, u, role, s, skip);
  }

  lemma LeftExactly(w: World, v: World, role: Role, s: Slot, skip: Option<nat>)
    requires Recovered(w, v, role, skip) && !NewlyFinal(w, v) && s in w.records && s.role == role
    ensures s in v.records && (LeftToDo(v, s, skip) <==> PassedOver(w, role, s, skip))
  {
    hide LeftToDo;
    hide PassedOver;
  }

  /** A second calm run finds nothing exactly if the first one passed nothing over, and leaves nothing. */
  lemma SecondRun(w: World, v: World, u: World, role: Role, skip: Option<nat>)
    requires Safe(w, v) && Safe(v, u) && Recovered(w, v, role, skip) && Recovered(v, u, role, skip)
    requires OnlyRole(w, v, role) && forall s <- w.records :: w.records[s].slot == s
    requires !NewlyFinal(w, u)
    ensures Untouched(v, u) <==> !NeedsTwoRuns(w, role, skip)
    ensures Quiet(u, role, skip)
  {
    hide Safe;
    hide OnlyRole;
    hide PassedOver;
    hide NewlyFinal;
    hide Exact;
    hide Untouched;
    hide Quiet;
    SafeMovesForward(w, v);
    SafeMovesForward(v, u);
    StillNotFinal(w, v, u);
    QuietUnlessPassedOver(w, v, role, skip);
    SecondRunPassesNoneOver(w, v, role, skip);
    QuietUnlessPassedOver(v, u, role, skip);
    if NeedsTwoRuns(w, role, skip) {
      var s :| PassedOver(w, role, s, skip);
      PassedOverIsFinished(w, v, u, role, s, skip);
    }
  }

  /** Once there is nothing to do, a calm run touches nothing and leaves nothing to do. */
  lemma QuietRun(v: World, u: World, role: Role, skip: Option<nat>)
    requires Safe(v, u) && Recovered(v, u, role, skip) && Quiet(v, role, skip) && !NewlyFinal(v, u)
    requires forall s <- v.records :: v.records[s].slot == s
    ensures Untouched(v, u) && Quiet(u, role, skip)
  {
    hide Safe;
    hide Cleanable;
    hide NewlyFinal;
    hide Exact;
    SafeMovesForward(v, u);
    forall s | s in u.records && s.role == role && Pending(u.records[s], skip) ensures !Cleanable(u, u.records[s]) {
      if Cleanable(u, u.records[s]) { CleanableBefore(v, u, u.records[s]); }
    }
  }

  lemma NothingListed(w: World, role: Role)
    ensures Listed(w, role, [])
  {}

  lemma ListGrows(w: World, role: Role, list: seq<Record>, r: Record)
    requires Listed(w, role, list) && r.slot.role == role && r.slot in w.records && w.records[r.slot] == r
    requires forall x <- list :: x.slot.session < r.slot.session
    ensures Listed(w, role, list + [r])
  {}

  lemma FirstName(names: set<Slot>)
    requires names != {}
    ensures exists s :: s in names && forall t <- names :: s.session <= t.session
  {
    var s :| s in names;
    if names != {s} {
      FirstName(names - {s});
      var t :| t in names - {s} && forall x <- names - {s} :: t.session <= x.session;
      assert forall x <- names :: x == s || x in names - {s};
      if s.session <= t.session {
        assert forall x <- names :: s.session <= x.session;
      } else {
        assert forall x <- names :: t.session <= x.session;
      }
    }
  }

  // ---- Whole runs ----

  /** One process: start-up recovery, or finishing one session with the phase the process remembers. */
  datatype Life = Recovers(role: Role, skip: Option<nat>, fate: Fate) | Finishes(slot: Slot, phase: Phase, fate: Fate)

  /** The opening fits the settled deal. */
  predicate Fits(w: World, id: Identity) {
    && OnSettledDeal(w, id)
    && PriceCommitment(id.dealId, id.opening.price, id.opening.randomness) == w.chain[id.address].priceCommitment
  }

  predicate OnSettledDeal(w: World, id: Identity) {
    id.address in w.chain && w.chain[id.address].dealId == id.dealId && w.chain[id.address].status.Settled?
  }

  predicate OnCancelledDeal(w: World, id: Identity) {
    id.address in w.chain && w.chain[id.address].dealId == id.dealId && w.chain[id.address].status.Cancelled?
  }

  predicate Stored(w: World, id: Identity) {
    id.slot in w.openings && w.openings[id.slot] == id.opening
  }

  /** A session that starts unfinished in w and whose deal, in v, is cancelled, or is settled and can be
      shown: by evidence that was there from the start or by the opening it started with. */
  predicate Answerable(w: World, v: World, id: Identity) {
    && Tracked(w, id) && !w.records[id.slot].phase.Cleaned?
    && (OnCancelledDeal(v, id) ||
        (OnSettledDeal(v, id) &&
         (GoodEvidence(w, id.slot.role, id.address, id.dealId) || (Stored(w, id) && Fits(v, id)))))
  }

  /** The record is marked clean, the secrets are gone, a settled price is shown by good evidence, and
      for a cancelled deal no evidence was written. */
  predicate Closed(w: World, v: World, id: Identity)
  {
    && MarkedClean(v, id) && id.slot !in v.openings && id.slot !in v.signingKeys && id.address in v.chain
    && (v.chain[id.address].status.Settled? ==> GoodEvidence(v, id.slot.role, id.address, id.dealId))
    && (v.chain[id.address].status.Cancelled? ==>
          var p := Path(id.slot.role, id.address);
          (p in v.evidence <==> p in w.evidence) && (p in v.evidence ==> v.evidence[p] == w.evidence[p]))
    && Final(v.chain[id.address])
  }

  function StoreOf(w: Settlement.World, role: Role): Option<Opening> {
    if role.Buyer? then w.buyerStore else w.sellerStore
  }

  /** The host of one party of a deal: its session is recorded with the deal's contract, and its store
      holds what the party stored while settling. */
  predicate Hosts(w: World, d: Settlement.Deal, settled: Settlement.World, slot: Slot, address: nat) {
    && slot in w.records &&
      w.records[slot] == Record(slot, w.network, Some(address), Some(d.dealId), w.records[slot].phase)
    && !w.records[slot].phase.Cleaned?
    && address in w.chain && w.chain[address] == Published(settled.ledger)
    && var stored := StoreOf(settled, slot.role);
       (stored.Some? ==> slot in w.openings && w.openings[slot] == stored.value)
  }

  /** A deal that honest parties settled is decided for both of them, and recovery answers for it: the
      opening in the store of either party fits the chain. */
  lemma HonestSettlementsAreDecided(d: Settlement.Deal, steps: seq<Settlement.Step>, w: World, slot: Slot, address: nat)
    returns (id: Identity)
    requires Settlement.ValidDeal(d) && Settlement.Execute(d, steps).ledger.status.Settled?
    requires Hosts(w, d, Settlement.Execute(d, steps), slot, address)
    ensures slot in w.openings && id == Identity(slot, address, d.dealId, w.openings[slot])
    ensures Answerable(w, w, id) && Fits(w, id)
    ensures Settlement.Execute(d, steps).system.buyer.outcomes == [Runtimes.Settled(id.opening.price)]
  {
    var price := Settlement.BothHoldTheOpening(d, steps);
    id := Identity(slot, address, d.dealId, w.openings[slot]);
  }

  /** A settled deal stays settled, with the same commitment. */
  lemma FitsStays(w: World, v: World, id: Identity)
    requires Safe(w, v) && Fits(w, id)
    ensures Fits(v, id) && (Answerable(w, w, id) ==> Answerable(w, v, id))
  {}

  /** Safety keeps an answerable session finishable until it is finished. */
  lemma AnswerableCanBeFinished(w: World, v: World, id: Identity)
    requires Safe(w, v) && Answerable(w, v, id)
    ensures id.slot in v.records && v.records[id.slot] == w.records[id.slot].(phase := v.records[id.slot].phase)
    ensures (Pending(v.records[id.slot], None) && Cleanable(v, v.records[id.slot])) || IsDone(v, v.records[id.slot])
  {
    assert v.records[id.slot].(phase := w.records[id.slot].phase) == w.records[id.slot];
    assert Tracked(w, id) && Tracked(v, id);
    if OnSettledDeal(v, id) { assert Guarded(v, id); }
  }

  lemma DoneIsClosed(w: World, v: World, u: World, id: Identity)
    requires Safe(w, v) && Safe(v, u) && Safe(w, u) && Answerable(w, v, id)
    requires id.slot in v.records && IsDone(u, v.records[id.slot])
    ensures Closed(w, u, id)
  {
    assert v.records[id.slot].(phase := w.records[id.slot].phase) == w.records[id.slot];
    assert u.records[id.slot].(phase := v.records[id.slot].phase) == v.records[id.slot];
  }

  lemma AnswerableIsClosed(w: World, v: World, u: World, role: Role, id: Identity)
    requires Safe(w, v) && Safe(v, u) && Recovered(v, u, role, None) && id.slot.role == role
    requires Answerable(w, v, id)
    ensures Closed(w, u, id)
  {
    hide Safe;
    hide Cleanable;
    hide IsDone;
    hide Answerable;
    hide Exact;
    SafeTransitive(w, v, u);
    AnswerableCanBeFinished(w, v, id);
    assert IsDone(u, v.records[id.slot]);
    DoneIsClosed(w, v, u, id);
  }

  /** Good evidence for a closed settled session shows the very opening that was stored. */
  lemma ClosedShowsThePrice(w: World, v: World, id: Identity)
    requires Closed(w, v, id) && Fits(v, id)
    ensures MarkedClean(v, id) && id.slot !in v.openings && id.slot !in v.signingKeys
    ensures Path(id.slot.role, id.address) in v.evidence
    ensures Decrypt(v.evidence[Path(id.slot.role, id.address)], Key(v, id.slot.role)) ==
      Some(Evidence(id.slot.role, v.network, CONTRACT_VERSION, id.address, id.dealId, id.opening.price,
                    id.opening.randomness, PriceCommitment(id.dealId, id.opening.price, id.opening.randomness)))
  {
    var e := Decrypt(v.evidence[Path(id.slot.role, id.address)], Key(v, id.slot.role)).value;
    PriceBinds(e.dealId, e.price, e.randomness, id.dealId, id.opening.price, id.opening.randomness);
  }

  // ---- Two records of one deal ----

  /** Two open records of one settled deal, of which only the later one has the opening. */
  predicate Sharing(w: World, early: Record, late: Record) {
    && w.records == map[early.slot := early, late.slot := late] && w.temporaries == {}
    && early.phase == late.phase == Active && early.slot.role == late.slot.role == Seller
    && early.slot.session < late.slot.session && Identified(w, early) && SameDeal(late, early)
    && w.chain[early.address.value].status.Settled? && w.evidence == map[]
    && early.slot !in w.openings && Cleanable(w, late)
  }

  lemma TwoRecordsOneDeal(w: World, early: Record, late: Record)
    requires Sharing(w, early, late)
    ensures NeedsTwoRuns(w, Seller, None)
  {
    assert IsHelper(w, Seller, late.slot, early, None);
    assert PassedOver(w, Seller, early.slot, None);
  }

  /** The first run finishes the later session only, and its evidence makes the earlier one finishable. */
  lemma FirstRunPassesOver(w: World, v: World, early: Record, late: Record)
    requires Sharing(w, early, late) && SameSessions(w, v) && Recovered(w, v, Seller, None)
    ensures early.slot in v.records && v.records[early.slot].slot == early.slot
    ensures Pending(v.records[early.slot], None) && Cleanable(v, v.records[early.slot])
    ensures late.slot in v.records && v.records[late.slot].phase.Cleaned?
  {
    hide Cleanable;
    hide NeedsTwoRuns;
    hide MayErase;
    TwoRecordsOneDeal(w, early, late);
    NothingNewlyFinal(w, v, early, late);
    QuietUnlessPassedOver(w, v, Seller, None);
    assert w.records[late.slot] == late && w.records[early.slot] == early;
    assert IsDone(v, late);
    var s :| s in v.records && s.role == Seller && Pending(v.records[s], None) && Cleanable(v, v.records[s]);
    assert s in {early.slot, late.slot};
    assert v.records[early.slot].(phase := Active) == early;
  }

  lemma TwoRunsSeen(w: World, v: World, u: World, early: Record, late: Record)
    requires Sharing(w, early, late) && Safe(w, v) && Safe(v, u)
    requires Recovered(w, v, Seller, None) && Recovered(v, u, Seller, None)
    ensures early.slot in v.records && late.slot in v.records && early.slot in u.records
    ensures !v.records[early.slot].phase.Cleaned? && v.records[late.slot].phase.Cleaned?
    ensures u.records[early.slot].phase.Cleaned?
  {
    hide Safe;
    hide Cleanable;
    hide NeedsTwoRuns;
    hide NewlyFinal;
    hide Quiet;
    hide MayErase;
    SafeMovesForward(w, v);
    FirstRunPassesOver(w, v, early, late);
    assert IsDone(u, v.records[early.slot]);
  }

  lemma NothingNewlyFinal(w: World, v: World, early: Record, late: Record)
    requires Sharing(w, early, late)
    ensures !NewlyFinal(w, v)
  {}

  // ---- The host ----

  /** One recovery run as a host sees it: files, stores and the chain are its fields. */
  class Host {
    const network: nat
    const buyerKey: nat
    const sellerKey: nat
    var evidence: map<Path, File>
    var temporaries: set<Temporary>
    var records: map<Slot, Record>
    var openings: map<Slot, Opening>
    var signingKeys: set<Slot>
    var chain: Chain
    var clock: nat

    constructor (w: World)
      ensures Now() == w
    {
      network, buyerKey, sellerKey, clock := w.network, w.buyerKey, w.sellerKey, 0;
      evidence, temporaries, records := w.evidence, w.temporaries, w.records;
      openings, signingKeys, chain := w.openings, w.signingKeys, w.chain;
    }

    function Now(): World
      reads this
    {
      World(network, buyerKey, sellerKey, evidence, temporaries, records, openings, signingKeys, chain)
    }

    /** Time passes: the chain may move on, forward only. */
    method Tick(fate: Fate) returns (m: Moment)
      modifies this`clock, this`chain
      ensures m == fate(old(clock)) && Safe(old(Now()), Now())
    {
      m := fate(clock);
      clock := clock + 1;
      if ChainForward(chain, m.chain) { chain := m.chain; }
      TimeIsSafe(old(Now()), Now());
    }

    /** One read of the indexer. Nothing is returned when it is unavailable or has no such contract. */
    method ReadDealState(address: nat, fate: Fate) returns (stopped: bool, state: Option<PublicDeal>)
      modifies this`clock, this`chain
      ensures Safe(old(Now()), Now())
      ensures state.Some? ==> address in chain && state.value == chain[address]
      ensures AllCalm(fate) ==> !stopped && (address in chain ==> state.Some?)
    {
      var m := Tick(fate);
      stopped := m.stop;
      state := if m.unreadable || address !in chain then None else Some(chain[address]);
    }

    method LoadEvidence(role: Role, address: nat, fate: Fate) returns (stopped: bool, e: Option<Evidence>)
      modifies this`clock, this`chain
      ensures Safe(old(Now()), Now())
      ensures e.Some? ==>
        Path(role, address) in evidence && e == Decrypt(evidence[Path(role, address)], Key(Now(), role))
      ensures AllCalm(fate) ==> !stopped
      ensures AllCalm(fate) && Path(role, address) in evidence ==>
        e == Decrypt(evidence[Path(role, address)], Key(Now(), role))
    {
      var m := Tick(fate);
      stopped := m.stop;
      e := if m.unreadable || Path(role, address) !in evidence then None
        else Decrypt(evidence[Path(role, address)], Key(Now(), role));
    }

    /** Verifies evidence against itself and then against the chain. */
    method Check(e: Evidence, fate: Fate) returns (stopped: bool, ok: bool)
      modifies this`clock, this`chain
      ensures Safe(old(Now()), Now())
      ensures ok ==> e.address in chain && Verifies(e, network, chain[e.address])
      ensures AllCalm(fate) ==> !stopped
      ensures AllCalm(fate) && e.address in chain && Verifies(e, network, chain[e.address]) ==> ok
    {
      stopped, ok := false, false;
      if e.network != network || e.version != CONTRACT_VERSION ||
         e.price < 0 || MAX_KRW < e.price || PriceCommitment(e.dealId, e.price, e.randomness) != e.commitment {
        TimeIsSafe(Now(), Now());
        return;
      }
      var state;
      stopped, state := ReadDealState(e.address, fate);
      if stopped || state.None? { return; }
      ok := state.value.dealId == e.dealId && state.value.status.Settled? &&
        state.value.priceCommitment == e.commitment;
    }

    /** Writes a temporary file and renames it into place. A stop in between leaves the old file. */
    method WriteEvidence(e: Evidence, fate: Fate) returns (stopped: bool)
      requires e.address in chain && Verifies(e, network, chain[e.address])
      modifies this`clock, this`chain, this`evidence, this`temporaries
      ensures Safe(old(Now()), Now())
      ensures Confined(old(Now()), Now(), Slot(e.role, 0), e.address)
      ensures !stopped ==> evidence == old(evidence)[Path(e.role, e.address) := Encrypt(e, Key(Now(), e.role))]
      ensures AllCalm(fate) ==> !stopped && temporaries <= old(temporaries)
    {
      hide Safe;
      hide GoodEvidence;
      var w := Now();
      var m := Tick(fate);
      if m.stop { return true; }
      var temporary := Temporary(e.role, clock);
      LeftoversAreSafe(Now(), temporaries + {temporary});
      SafeTransitive(w, Now(), Now().(temporaries := temporaries + {temporary}));
      StillVerifies(w, Now(), e);
      temporaries := temporaries + {temporary};
      var v := Now();
      m := Tick(fate);
      SafeTransitive(w, v, Now());
      StillVerifies(v, Now(), e);
      if m.stop { return true; }
      v := Now();
      EvidenceMayBeReplaced(v, e);
      evidence := evidence[Path(e.role, e.address) := Encrypt(e, Key(Now(), e.role))];
      SafeTransitive(w, v, Now());
      v := Now();
      temporaries := temporaries - {temporary};
      LeftoversAreSafe(v, temporaries);
      SafeTransitive(w, v, Now());
      stopped := false;
    }

    method WriteRecord(r: Record, fate: Fate) returns (stopped: bool)
      requires MayErase(Now(), r) && (r.phase.Cleaned? ==> r.slot !in openings && r.slot !in signingKeys)
      modifies this`clock, this`chain, this`records
      ensures Safe(old(Now()), Now())
      ensures records == (if stopped then old(records) else old(records)[r.slot := r])
      ensures AllCalm(fate) ==> !stopped
    {
      hide Safe;
      hide MayErase;
      var w := Now();
      var m := Tick(fate);
      stopped := m.stop;
      if !stopped {
        MayEraseStays(w, Now(), r);
        MarkIsSafe(Now(), r);
        SafeTransitive(w, Now(), Now().(records := records[r.slot := r]));
        records := records[r.slot := r];
      }
    }

    /** Removes the private state and then the signing key. */
    method Erase(r: Record, fate: Fate) returns (stopped: bool)
      requires MayErase(Now(), r)
      modifies this`clock, this`chain, this`openings, this`signingKeys
      ensures Safe(old(Now()), Now()) && Confined(old(Now()), Now(), r.slot, r.address.value)
      ensures !stopped ==> openings == old(openings) - {r.slot} && signingKeys == old(signingKeys) - {r.slot}
      ensures AllCalm(fate) ==> !stopped
    {
      hide Safe;
      hide Released;
      var w := Now();
      var m := Tick(fate);
      if m.stop { return true; }
      MayEraseStays(w, Now(), r);
      var v := Now();
      ErasureIsSafe(v, r);
      openings := openings - {r.slot};
      SafeTransitive(w, v, Now());
      v := Now();
      m := Tick(fate);
      SafeTransitive(w, v, Now());
      if m.stop { return true; }
      v := Now();
      MayEraseStays(w, v, r);
      KeyRemovalIsSafe(v, r);
      signingKeys := signingKeys - {r.slot};
      SafeTransitive(w, v, Now());
      stopped := false;
    }

    /** Erases, then marks the record. */
    method MarkCleaned(r: Record, fate: Fate) returns (stopped: bool)
      requires MayErase(Now(), r)
      modifies this`clock, this`chain, this`openings, this`signingKeys, this`records
      ensures Safe(old(Now()), Now()) && Confined(old(Now()), Now(), r.slot, r.address.value)
      ensures !stopped ==> IsDone(Now(), r)
      ensures AllCalm(fate) ==> !stopped
    {
      hide Safe;
      hide Released;
      var w := Now();
      stopped := Erase(r, fate);
      MayEraseStays(w, Now(), r);
      if !stopped {
        var v := Now();
        stopped := WriteRecord(r.(phase := Cleaned), fate);
        SafeTransitive(w, v, Now());
        MayEraseStays(v, Now(), r);
      }
    }

    /** Looks for evidence of this very session at its path; other valid evidence does not count. */
    method FindEvidence(r: Record, fate: Fate) returns (stopped: bool, good: bool)
      requires Identified(Now(), r)
      modifies this`clock, this`chain
      ensures Safe(old(Now()), Now())
      ensures good ==> GoodEvidence(Now(), r.slot.role, r.address.value, r.dealId.value)
      ensures AllCalm(fate) ==> !stopped
      ensures AllCalm(fate) && GoodEvidence(old(Now()), r.slot.role, r.address.value, r.dealId.value) ==> good
    {
      hide Safe;
      var w := Now();
      var existing;
      stopped, existing := LoadEvidence(r.slot.role, r.address.value, fate);
      var v := Now();
      ReleasedStays2(w, v, r);
      good := false;
      if !stopped && existing.Some? && BelongsTo(existing.value, r, network) {
        stopped, good := Check(existing.value, fate);
        SafeTransitive(w, v, Now());
        ReleasedStays2(w, Now(), r);
      }
    }

    /** Saves evidence and reads it back twice: once inside the save, once for the final check. */
    method SaveEvidence(r: Record, e: Evidence, fate: Fate) returns (stopped: bool, good: bool)
      requires Identified(Now(), r) && BelongsTo(e, r, network) && Verifies(e, network, chain[r.address.value])
      modifies this`clock, this`chain, this`evidence, this`temporaries
      ensures Safe(old(Now()), Now()) && Confined(old(Now()), Now(), r.slot, r.address.value)
      ensures good ==> GoodEvidence(Now(), r.slot.role, r.address.value, r.dealId.value)
      ensures AllCalm(fate) ==> !stopped && good && temporaries <= old(temporaries)
    {
      hide Safe;
      var w := Now();
      good := false;
      stopped := WriteEvidence(e, fate);
      StillVerifies(w, Now(), e);
      if stopped { return; }
      var v := Now();
      var reread;
      stopped, reread := LoadEvidence(r.slot.role, r.address.value, fate);
      SafeTransitive(w, v, Now());
      StillVerifies(w, Now(), e);
      if stopped { return; }
      if reread != Some(e) { stopped := true; return; }
      v := Now();
      stopped, reread := LoadEvidence(r.slot.role, r.address.value, fate);
      SafeTransitive(w, v, Now());
      StillVerifies(w, Now(), e);
      if stopped { return; }
      if reread.None? { stopped := true; return; }
      if BelongsTo(reread.value, r, network) {
        v := Now();
        stopped, good := Check(reread.value, fate);
        SafeTransitive(w, v, Now());
        StillVerifies(w, Now(), e);
      }
    }

    /** Accepts existing evidence of this session, or saves it from the stored opening. */
    method SecureEvidence(r: Record, fate: Fate) returns (stopped: bool, failure: Option<KeptReason>)
      requires Recorded(Now(), r) && Identified(Now(), r) && chain[r.address.value].status.Settled?
      modifies this`clock, this`chain, this`evidence, this`temporaries
      ensures Safe(old(Now()), Now()) && Confined(old(Now()), Now(), r.slot, r.address.value)
      ensures !stopped && failure.None? ==> GoodEvidence(Now(), r.slot.role, r.address.value, r.dealId.value)
      ensures AllCalm(fate) ==> !stopped && temporaries <= old(temporaries)
      ensures AllCalm(fate) && Backed(old(Now()), r) ==> failure.None?
      ensures AllCalm(fate) && !Backed(old(Now()), r) ==> failure.Some? && Untouched(old(Now()), Now())
      ensures !stopped && failure.Some? ==> SettledFor(Now(), r) && openings == old(openings)
      ensures !stopped && failure == Some(NoOpening) ==> r.slot !in openings
      ensures !stopped && failure == Some(EvidenceRejected) ==> r.slot in openings
      ensures failure.Some? ==> failure.value.NoOpening? || failure.value.EvidenceRejected?
    {
      hide Safe;
      var w := Now();
      failure := None;
      var good;
      stopped, good := FindEvidence(r, fate);
      var v := Now();
      FinalStays(w, v, r);
      if stopped || good { return; }
      var m := Tick(fate);
      SafeTransitive(w, v, Now());
      FinalStays(w, Now(), r);
      if m.stop { stopped := true; return; }
      if r.slot !in openings { failure := Some(NoOpening); return; }
      var e := Build(r, network, openings[r.slot]);
      v := Now();
      stopped, good := Check(e, fate);
      SafeTransitive(w, v, Now());
      FinalStays(w, Now(), r);
      if stopped { return; }
      if !good { failure := Some(EvidenceRejected); return; }
      v := Now();
      stopped, good := SaveEvidence(r, e, fate);
      SafeTransitive(w, v, Now());
      FinalStays(w, Now(), r);
      if !stopped && !good { failure := Some(EvidenceRejected); }
    }

    /** Marks that evidence is saved, and only then erases. */
    method MarkSavedAndClean(r: Record, fate: Fate) returns (stopped: bool)
      requires MayErase(Now(), r)
      modifies this`clock, this`chain, this`openings, this`signingKeys, this`records
      ensures Safe(old(Now()), Now()) && Confined(old(Now()), Now(), r.slot, r.address.value)
      ensures !stopped ==> IsDone(Now(), r)
      ensures AllCalm(fate) ==> !stopped
    {
      hide Safe;
      hide Released;
      var w := Now();
      stopped := WriteRecord(r.(phase := EvidenceSaved), fate);
      MayEraseStays(w, Now(), r);
      if !stopped {
        var v := Now();
        stopped := MarkCleaned(r.(phase := EvidenceSaved), fate);
        SafeTransitive(w, v, Now());
        ConfinedTransitive(w, v, Now(), r.slot, r.address.value);
      }
    }

    /** The settled branch: evidence first, then the mark, and only then the erasure. */
    method FinishSettled(r: Record, fate: Fate) returns (result: Result)
      requires Recorded(Now(), r) && Identified(Now(), r) && chain[r.address.value].status.Settled?
      modifies this`clock, this`chain, this`evidence, this`temporaries, this`openings, this`signingKeys, this`records
      ensures Safe(old(Now()), Now()) && Confined(old(Now()), Now(), r.slot, r.address.value)
      ensures result.Finished? && result.outcome.SettledEvidenceSaved? ==>
        IsDone(Now(), r) && GoodEvidence(Now(), r.slot.role, r.address.value, r.dealId.value)
      ensures result.Finished? && !result.outcome.SettledEvidenceSaved? ==>
        result.outcome.Kept? && records == old(records) && openings == old(openings) && signingKeys == old(signingKeys)
      ensures result.Finished? && !result.outcome.SettledEvidenceSaved? ==>
        SettledFor(Now(), r) &&
        (if result.outcome.reason.NoOpening? then r.slot !in openings
         else result.outcome.reason.EvidenceRejected? && r.slot in openings)
      ensures AllCalm(fate) ==> result.Finished? && temporaries <= old(temporaries)
      ensures AllCalm(fate) && Backed(old(Now()), r) ==> result == Finished(SettledEvidenceSaved)
      ensures AllCalm(fate) && !Backed(old(Now()), r) ==> Untouched(old(Now()), Now())
    {
      hide Safe;
      hide GoodEvidence;
      hide Backed;
      hide Untouched;
      var w := Now();
      var stopped, failure := SecureEvidence(r, fate);
      if stopped { return Stopped; }
      if failure.Some? { return Finished(Kept(failure.value)); }
      var v := Now();
      FinalStays(w, v, r);
      stopped := MarkSavedAndClean(r, fate);
      SafeTransitive(w, v, Now());
      ConfinedTransitive(w, v, Now(), r.slot, r.address.value);
      ReleasedStays(v, Now(), r.slot.role, r.address.value, r.dealId.value);
      result := if stopped then Stopped else Finished(SettledEvidenceSaved);
    }

    method FinalizeSession(r: Record, fate: Fate) returns (result: Result)
      requires Recorded(Now(), r)
      modifies this`clock, this`chain, this`evidence, this`temporaries, this`openings, this`signingKeys, this`records
      ensures Safe(old(Now()), Now())
      ensures if r.address.Some? then Confined(old(Now()), Now(), r.slot, r.address.value)
              else Untouched(old(Now()), Now())
      ensures result.Finished? ==> match result.outcome
        case SettledEvidenceSaved =>
          IsDone(Now(), r) && GoodEvidence(Now(), r.slot.role, r.address.value, r.dealId.value)
        case CancelledCleaned => IsDone(Now(), r) && DealCancelled(Now(), r.address.value) && evidence == old(evidence)
        case AlreadyCleaned => r.phase.Cleaned? && Untouched(old(Now()), Now())
        case Kept(reason) =>
          && records == old(records) && openings == old(openings) && signingKeys == old(signingKeys)
          && ReasonFits(old(Now()), Now(), r, AllCalm(fate), reason)
      // a deal that is not final keeps everything
      ensures r.address.Some? && !(r.address.value in chain && Final(chain[r.address.value])) ==>
        Untouched(old(Now()), Now())
      // without faults, everything that can be finished is finished, and nothing else is touched
      ensures AllCalm(fate) ==> result.Finished? && temporaries <= old(temporaries)
      ensures AllCalm(fate) && Cleanable(old(Now()), r) ==>
        result == Finished(
          if old(chain)[r.address.value].status.Settled? then SettledEvidenceSaved else CancelledCleaned)
      ensures AllCalm(fate) && !Cleanable(old(Now()), r) ==>
        Untouched(old(Now()), Now()) || NewlyFinal(old(Now()), Now())
    {
      hide Safe;
      hide GoodEvidence;
      hide KeepsUnresolved;
      hide NewlyFinal;
      hide ReasonFits;
      hide SettledFor;
      hide Confined;
      hide SameSessions;
      var w := Now();
      TimeIsSafe(w, w);
      ReasonsFit(w, w, r, AllCalm(fate));
      forall v, address | Untouched(w, v) ensures Confined(w, v, r.slot, address) {
        TimeIsConfined(w, v, r.slot, address);
      }
      if r.phase.Cleaned? { return Finished(AlreadyCleaned); }
      if r.address.None? { return Finished(Kept(NoContract)); }
      if r.dealId.None? || r.network != network { return Finished(Kept(IdentityMismatch)); }
      var stopped, state := ReadDealState(r.address.value, fate);
      var v := Now();
      FinalStays(w, v, r);
      if stopped { return Stopped; }
      if Cleanable(v, r) { CleanableBefore(w, v, r); }
      ReasonsFit(w, v, r, AllCalm(fate));
      if state.None? { return Finished(Kept(ChainUnavailable)); }
      if state.value.dealId != r.dealId.value { return Finished(Kept(IdentityMismatch)); }
      if state.value.status.Cancelled? {
        stopped := MarkCleaned(r, fate);
        SafeTransitive(w, v, Now());
        ConfinedTransitive(w, v, Now(), r.slot, r.address.value);
        FinalStays(v, Now(), r);
        if NewlyFinal(w, v) { NewlyFinalStays(w, v, Now()); }
        result := if stopped then Stopped else Finished(CancelledCleaned);
      } else if state.value.status.Settled? {
        result := FinishSettled(r, fate);
        SafeTransitive(w, v, Now());
        ConfinedTransitive(w, v, Now(), r.slot, r.address.value);
        ReasonsFit(w, Now(), r, AllCalm(fate));
        FinalStays(v, Now(), r);
        if NewlyFinal(w, v) { NewlyFinalStays(w, v, Now()); }
      } else {
        result := Finished(Kept(NotFinal));
      }
    }

    /** Removes the temporary files that earlier writes of this role left behind. */
    method RemoveTemporaries(role: Role, fate: Fate) returns (stopped: bool)
      modifies this`clock, this`chain, this`temporaries
      ensures Safe(old(Now()), Now()) && OnlyRole(old(Now()), Now(), role) && temporaries <= old(temporaries)
      ensures AllCalm(fate) ==> !stopped && forall t <- temporaries :: t.role != role
    {
      hide GoodEvidence;
      hide Safe;
      var w := Now();
      TimeIsSafe(w, w);
      var names := set t | t in temporaries && t.role == role;
      stopped := false;
      while names != {}
        invariant Safe(w, Now()) && temporaries <= old(temporaries)
        invariant forall t <- names :: t.role == role
        invariant forall t <- temporaries :: t.role == role ==> t in names
        invariant forall t: Temporary :: t.role != role ==> (t in temporaries <==> t in old(temporaries))
      {
        var v := Now();
        var m := Tick(fate);
        SafeTransitive(w, v, Now());
        if m.stop { return true; }
        var t :| t in names;
        names := names - {t};
        v := Now();
        temporaries := temporaries - {t};
        LeftoversAreSafe(v, temporaries);
        SafeTransitive(w, v, Now());
      }
    }

    predicate WellNamed()
      reads this
    {
      forall s <- records :: records[s].slot == s
    }

    /** Reads all records of a role, in the order of their file names. */
    method ReadSessionRecords(role: Role) returns (list: seq<Record>)
      requires WellNamed()
      ensures AllListed(Now(), role, list)
    {
      hide Listed;
      var names := set s | s in records && s.role == role;
      list := [];
      NothingListed(Now(), role);
      while names != {}
        invariant forall s <- names :: s in records && s.role == role
        invariant Listed(Now(), role, list)
        invariant forall r <- list, s <- names :: r.slot.session < s.session
        invariant forall s <- records :: s.role == role ==> s in names || records[s] in list
      {
        FirstName(names);
        var s :| s in names && forall t <- names :: s.session <= t.session;
        names := names - {s};
        ListGrows(Now(), role, list, records[s]);
        list := list + [records[s]];
      }
    }

    /** The recovery loop over records that have been read. */
    method RecoverList(role: Role, list: seq<Record>, skip: Option<nat>, fate: Fate) returns (stopped: bool)
      requires Listed(Now(), role, list)
      modifies this`clock, this`chain, this`evidence, this`temporaries, this`openings, this`signingKeys, this`records
      ensures Safe(old(Now()), Now()) && OnlyRole(old(Now()), Now(), role)
      ensures AllCalm(fate) ==> !stopped && Progress(old(Now()), Now(), list, |list|, skip)
    {
      hide Safe;
      hide OnlyRole;
      hide Progress;
      hide Effect;
      hide NewlyFinal;
      var w := Now();
      NothingHappened(w, role);
      ProgressStarts(w, role, list, skip);
      stopped := false;
      for k := 0 to |list|
        invariant Safe(w, Now()) && OnlyRole(w, Now(), role)
        invariant forall j :: k <= j < |list| ==> list[j].slot in records && records[list[j].slot] == list[j]
        invariant AllCalm(fate) ==> Progress(w, Now(), list, k, skip)
      {
        var r, v := list[k], Now();
        if Pending(r, skip) {
          var result := FinalizeSession(r, fate);
          StepInList(w, v, Now(), role, r);
          forall j | k < j < |list| ensures list[j].slot in records && records[list[j].slot] == list[j] {
            SlotsDiffer(w, role, list, j, k);
            OthersKeep(v, Now(), r, list[j]);
          }
          if result.Stopped? { return true; }
          if AllCalm(fate) {
            EffectOf(v, Now(), r);
            ProgressContinues(w, v, Now(), role, list, k, skip);
          }
        } else if AllCalm(fate) {
          ProgressSkips(w, v, list, k, skip);
        }
      }
    }

    /** Start-up: clears partial writes and finishes every session that an earlier run left open. */
    method RecoverSessions(role: Role, skip: Option<nat>, fate: Fate) returns (stopped: bool)
      requires WellNamed()
      modifies this
      ensures Safe(old(Now()), Now()) && OnlyRole(old(Now()), Now(), role) && WellNamed()
      ensures AllCalm(fate) ==> !stopped && Recovered(old(Now()), Now(), role, skip)
    {
      hide Safe;
      hide OnlyRole;
      hide Progress;
      hide Recovered;
      hide NewlyFinal;
      var w := Now();
      stopped := RemoveTemporaries(role, fate);
      var v := Now();
      SafeMovesForward(w, v);
      if stopped { return; }
      var list := ReadSessionRecords(role);
      stopped := RecoverList(role, list, skip, fate);
      SafeTransitive(w, v, Now());
      OnlyRoleTransitive(w, v, Now(), role);
      SafeMovesForward(v, Now());
      SafeMovesForward(w, Now());
      forall s | s in records ensures records[s].slot == s {
        assert records[s].(phase := w.records[s].phase) == w.records[s];
      }
      if AllCalm(fate) { RecoveryCompletes(w, v, Now(), role, list, skip); }
    }

    /** Finishes the session in this slot, if there is one, as its running process would: the process
        may still hold the record with an earlier phase. */
    method FinishOne(slot: Slot, phase: Phase, fate: Fate) returns (result: Result)
      requires WellNamed()
      modifies this
      ensures Safe(old(Now()), Now()) && WellNamed()
    {
      hide Safe;
      var w := Now();
      NothingHappened(w, slot.role);
      if slot !in records { return Stopped; }
      result := FinalizeSession(records[slot].(phase := phase), fate);
      SafeMovesForward(w, Now());
      forall s | s in records ensures records[s].slot == s {
        assert records[s].(phase := w.records[s].phase) == w.records[s];
      }
    }

    /** Any number of processes of both parties, each stopping anywhere. */
    method LiveThrough(lives: seq<Life>)
      requires WellNamed()
      modifies this
      ensures Safe(old(Now()), Now()) && WellNamed()
    {
      hide Safe;
      var w := Now();
      NothingHappened(w, Buyer);
      for k := 0 to |lives|
        invariant Safe(w, Now()) && WellNamed()
      {
        var v := Now();
        match lives[k] {
          case Recovers(role, skip, fate) => var _ := RecoverSessions(role, skip, fate);
          case Finishes(slot, phase, fate) => var _ := FinishOne(slot, phase, fate);
        }
        SafeTransitive(w, v, Now());
      }
    }

    /** After any crashes, one recovery without faults closes every session whose deal is cancelled, or is
        settled and can be shown. A second one changes something exactly if a session was passed over,
        and finishes it. Further ones change nothing. */
    method CrashThenRecover(lives: seq<Life>, role: Role, once: Fate, again: Fate, later: seq<Fate>)
      returns (ghost crashed: World, ghost recovered: World, ghost settled: World)
      requires WellNamed() && AllCalm(once) && AllCalm(again) && forall fate <- later :: AllCalm(fate)
      modifies this
      ensures Safe(old(Now()), crashed) && Safe(crashed, recovered) && Safe(recovered, settled) && Safe(settled, Now())
      ensures OnlyRole(crashed, recovered, role) && OnlyRole(recovered, settled, role) && OnlyRole(settled, Now(), role)
      ensures forall id: Identity :: id.slot.role == role && Answerable(old(Now()), crashed, id) ==>
        Closed(old(Now()), recovered, id)
      ensures !NewlyFinal(crashed, settled) ==> (Untouched(recovered, settled) <==> !NeedsTwoRuns(crashed, role, None))
      ensures forall s :: !NewlyFinal(crashed, recovered) && PassedOver(crashed, role, s, None) ==>
        s in recovered.records && IsDone(settled, recovered.records[s])
      ensures !NewlyFinal(crashed, Now()) ==> Untouched(settled, Now())
    {
      hide Safe;
      hide OnlyRole;
      hide Answerable;
      hide Closed;
      hide NewlyFinal;
      hide Recovered;
      hide NeedsTwoRuns;
      hide PassedOver;
      hide Quiet;
      hide IsDone;
      var w := Now();
      LiveThrough(lives);
      crashed := Now();
      var _ := RecoverSessions(role, None, once);
      recovered := Now();
      forall id: Identity | id.slot.role == role && Answerable(w, crashed, id) ensures Closed(w, recovered, id) {
        AnswerableIsClosed(w, crashed, recovered, role, id);
      }
      var _ := RecoverSessions(role, None, again);
      settled := Now();
      SafeMovesForward(crashed, recovered);
      forall s | !NewlyFinal(crashed, recovered) && PassedOver(crashed, role, s, None)
        ensures s in recovered.records && IsDone(settled, recovered.records[s])
      {
        PassedOverIsFinished(crashed, recovered, settled, role, s, None);
      }
      if !NewlyFinal(crashed, settled) { SecondRun(crashed, recovered, settled, role, None); }
      SafeTransitive(crashed, recovered, settled);
      RecoverRepeatedly(crashed, settled, role, later);
    }

    /** Calm recoveries of a role that has nothing left to do. */
    method RecoverRepeatedly(ghost base: World, ghost settled: World, role: Role, fates: seq<Fate>)
      requires WellNamed() && Now() == settled && Safe(base, settled) && forall fate <- fates :: AllCalm(fate)
      requires !NewlyFinal(base, settled) ==> Quiet(settled, role, None)
      modifies this
      ensures WellNamed() && Safe(settled, Now()) && OnlyRole(settled, Now(), role)
      ensures !NewlyFinal(base, Now()) ==> Untouched(settled, Now())
    {
      hide Safe;
      hide OnlyRole;
      hide NewlyFinal;
      hide Recovered;
      hide Quiet;
      NothingHappened(settled, role);
      for k := 0 to |fates|
        invariant WellNamed() && Safe(settled, Now()) && OnlyRole(settled, Now(), role) && Safe(base, Now())
        invariant !NewlyFinal(base, Now()) ==> Untouched(settled, Now()) && Quiet(Now(), role, None)
      {
        ghost var v := Now();
        var _ := RecoverSessions(role, None, fates[k]);
        SafeTransitive(settled, v, Now());
        OnlyRoleTransitive(settled, v, Now(), role);
        SafeTransitive(base, v, Now());
        if !NewlyFinal(base, Now()) {
          StillNotFinal(base, v, Now());
          QuietRun(v, Now(), role, None);
        }
      }
    }

    /** From a settled deal to the end: whatever crashes follow, one recovery of a party without faults
        leaves its session closed, with its opening gone and evidence of the agreed price in its place. */
    method HonestPartyRecovers(d: Settlement.Deal, steps: seq<Settlement.Step>, slot: Slot, address: nat,
                               lives: seq<Life>, calm: Fate)
      returns (ghost id: Identity)
      requires WellNamed() && AllCalm(calm)
      requires Settlement.ValidDeal(d) && Settlement.Execute(d, steps).ledger.status.Settled?
      requires Hosts(Now(), d, Settlement.Execute(d, steps), slot, address)
      modifies this
      ensures id.slot == slot && id.address == address && id.dealId == d.dealId
      ensures Settlement.Execute(d, steps).system.buyer.outcomes == [Runtimes.Settled(id.opening.price)]
      ensures MarkedClean(Now(), id) && slot !in openings && slot !in signingKeys
      ensures Path(slot.role, address) in evidence
      ensures Decrypt(evidence[Path(slot.role, address)], Key(Now(), slot.role)) ==
        Some(Evidence(slot.role, network, CONTRACT_VERSION, address, d.dealId, id.opening.price,
                      id.opening.randomness, PriceCommitment(d.dealId, id.opening.price, id.opening.randomness)))
    {
      hide Safe;
      hide Closed;
      hide Fits;
      hide Answerable;
      hide Hosts;
      hide Settlement.Execute;
      hide MarkedClean;
      hide Decrypt;
      hide Recovered;
      hide OnlyRole;
      var w := Now();
      id := HonestSettlementsAreDecided(d, steps, w, slot, address);
      LiveThrough(lives);
      ghost var crashed := Now();
      var _ := RecoverSessions(slot.role, None, calm);
      FitsStays(w, crashed, id);
      FitsStays(crashed, Now(), id);
      AnswerableIsClosed(w, crashed, Now(), slot.role, id);
      ClosedShowsThePrice(w, Now(), id);
    }
  }

  /** A Seller settles a deal and stops before it finishes the session. In another session a peer sends the
      same address again; the Seller records it, and only then is its joining refused. If that record's
      file name comes first, the first recovery passes it over, and the second one finishes it. */
  method SharedContractsNeedTwoRuns() returns (host: Host, ghost once: World, ghost first: Slot, ghost later: Slot)
    ensures fresh(host) && first == Slot(Seller, 1) && later == Slot(Seller, 2)
    ensures first in once.records && later in once.records && first in host.records
    ensures !once.records[first].phase.Cleaned? && once.records[later].phase.Cleaned?
    ensures host.records[first].phase.Cleaned?
  {
    var dealId, randomness := Pad("deal"), Random(0);
    var chain := map[7 := PublicDeal(dealId, PriceCommitment(dealId, 100_000, randomness), Contract.Settled)];
    first, later := Slot(Seller, 1), Slot(Seller, 2);
    var early := Record(Slot(Seller, 1), 0, Some(7), Some(dealId), Active);
    var late := Record(Slot(Seller, 2), 0, Some(7), Some(dealId), Active);
    host := new Host(World(0, 1, 2, map[], {}, map[Slot(Seller, 1) := early, Slot(Seller, 2) := late],
                           map[Slot(Seller, 2) := Opening(100_000, randomness)], {}, chain));
    ghost var w := host.Now();
    TwoRecordsOneDeal(w, early, late);
    var calm: Fate := (k: nat) => Moment(false, false, chain);
    var _ := host.RecoverSessions(Seller, None, calm);
    once := host.Now();
    var _ := host.RecoverSessions(Seller, None, calm);
    TwoRunsSeen(w, once, host.Now(), early, late);
  }
}
