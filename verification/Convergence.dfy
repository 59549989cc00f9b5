/** One recovery without faults, record by record: which sessions it finishes, which it leaves, and
    whether another one would find anything to do. */
module Convergence {
  import opened Pricing
  import opened Vault

  /** The records of a role in the order in which they are read: sessions are numbered by file name. */
  predicate Listed(w: World, role: Role, list: seq<Record>) {
    && (forall r <- list :: r.slot.role == role && r.slot in w.records && w.records[r.slot] == r)
    && (forall i, j :: 0 <= i < j < |list| ==> list[i].slot.session < list[j].slot.session)
  }

  /** What finishing one session without faults does. */
  ghost predicate Effect(v: World, u: World, r: Record) {
    && u.temporaries <= v.temporaries
    && (if Cleanable(v, r) then IsDone(u, r) else Untouched(v, u) || NewlyFinal(v, u))
  }

  lemma EffectOf(v: World, u: World, r: Record)
    requires u.temporaries <= v.temporaries
    requires if Cleanable(v, r) then IsDone(u, r) else Untouched(v, u) || NewlyFinal(v, u)
    ensures Effect(v, u, r)
  {}

  /** The first k sessions are finished if they could be, and nothing was touched if none could. */
  ghost predicate Finishing(w: World, u: World, list: seq<Record>, k: nat, skip: Option<nat>)
    requires k <= |list|
  {
    && u.temporaries <= w.temporaries
    && (forall j :: k <= j < |list| && Cleanable(w, list[j]) ==> Cleanable(u, list[j]))
    && (forall j :: 0 <= j < k && Pending(list[j], skip) && Cleanable(w, list[j]) ==> IsDone(u, list[j]))
    && (forall r <- list :: IsDone(w, r) ==> IsDone(u, r))
    && ((forall r <- list :: Pending(r, skip) ==> !Cleanable(w, r)) ==> Untouched(w, u) || NewlyFinal(w, u))
  }

  lemma FinishingStarts(w: World, role: Role, list: seq<Record>, skip: Option<nat>)
    ensures Finishing(w, w, list, 0, skip)
  {
    hide Cleanable;
    hide IsDone;
    hide NewlyFinal;
  }

  lemma PendingIsNotDone(v: World, r: Record, skip: Option<nat>)
    requires r.slot in v.records && v.records[r.slot] == r && Pending(r, skip)
    ensures !IsDone(v, r)
  {}

  lemma FinishingContinues(w: World, v: World, u: World, role: Role, list: seq<Record>, k: nat, skip: Option<nat>)
    requires k < |list| && Listed(w, role, list) && Finishing(w, v, list, k, skip) && Pending(list[k], skip)
    requires list[k].slot in v.records && v.records[list[k].slot] == list[k]
    requires Safe(w, v) && Safe(v, u) && Effect(v, u, list[k])
    requires if list[k].address.Some? then Confined(v, u, list[k].slot, list[k].address.value) else Untouched(v, u)
    ensures Finishing(w, u, list, k + 1, skip)
  {
    hide Listed;
    hide SameSessions;
    hide Safe;
    hide Confined;
    hide Cleanable;
    hide IsDone;
    hide NewlyFinal;
    hide ChainForward;
    var r := list[k];
    PendingIsNotDone(v, r, skip);
    SafeMovesForward(w, v);
    SafeMovesForward(v, u);
    if NewlyFinal(w, v) || NewlyFinal(v, u) { NewlyFinalStays(w, v, u); }
    if Untouched(w, v) && Cleanable(v, r) { CleanableBefore(w, v, r); }
    forall j | 0 <= j < |list| && j != k ensures
      (Cleanable(v, list[j]) ==> Cleanable(u, list[j])) && (IsDone(v, list[j]) ==> IsDone(u, list[j]))
    {
      SlotsDiffer(w, role, list, j, k);
      OthersKeep(v, u, r, list[j]);
    }
  }

  lemma SlotsDiffer(w: World, role: Role, list: seq<Record>, j: nat, k: nat)
    requires Listed(w, role, list) && j < |list| && k < |list| && j != k
    ensures list[j].slot != list[k].slot
  {}

  // ---- Sessions that share a deal ----

  predicate SameDeal(q: Record, r: Record) {
    q.slot.role == r.slot.role && q.network == r.network && q.address == r.address && q.dealId == r.dealId
  }

  predicate OnSettled(w: World, r: Record) {
    r.address.Some? && r.address.value in w.chain && w.chain[r.address.value].status.Settled?
  }

  /** Finishing q leaves evidence that also serves r. */
  predicate Helps(w: World, q: Record, r: Record) {
    Cleanable(w, q) && OnSettled(w, q) && SameDeal(q, r)
  }

  ghost predicate HelpedBefore(w: World, list: seq<Record>, k: int, r: Record, skip: Option<nat>) {
    exists j :: 0 <= j < k && j < |list| && Pending(list[j], skip) && Helps(w, list[j], r)
  }

  /** Whether r can be finished once the first k sessions have been. */
  ghost predicate Finishable(w: World, list: seq<Record>, k: int, r: Record, skip: Option<nat>) {
    Cleanable(w, r) || (!r.phase.Cleaned? && HelpedBefore(w, list, k, r, skip))
  }

  /** A calm run without newly final deals, exactly: the first k sessions are done if they could be
      finished at their turn, and are as they were otherwise. */
  ghost predicate Traced(w: World, u: World, list: seq<Record>, k: nat, skip: Option<nat>) {
    forall i :: 0 <= i < |list| ==> TracedAt(w, u, list, k, i, skip)
  }

  ghost predicate TracedAt(w: World, u: World, list: seq<Record>, k: nat, i: nat, skip: Option<nat>)
    requires i < |list|
  {
    var r := list[i];
    if i < k && Pending(r, skip) && Finishable(w, list, i, r, skip) then IsDone(u, r)
    else r.slot in u.records && u.records[r.slot] == r && (Cleanable(u, r) <==> Finishable(w, list, k, r, skip))
  }

  lemma TraceStarts(w: World, role: Role, list: seq<Record>, skip: Option<nat>)
    requires Listed(w, role, list)
    ensures Traced(w, w, list, 0, skip)
  {
    hide Cleanable;
  }

  /** Finishing a session gives exactly those others something that share its settled deal. */
  lemma OthersGain(v: World, u: World, r: Record, x: Record)
    requires Safe(v, u) && !NewlyFinal(v, u) && Recorded(v, x) && x.slot != r.slot && r.address.Some?
    requires Confined(v, u, r.slot, r.address.value) && Cleanable(v, r) && IsDone(u, r)
    ensures Cleanable(u, x) <==> Cleanable(v, x) || (!x.phase.Cleaned? && OnSettled(v, r) && SameDeal(r, x))
  {
    OthersKeep(v, u, r, x);
    FinalStays(v, u, r);
    if !x.phase.Cleaned? && OnSettled(v, r) && SameDeal(r, x) {
      assert GoodEvidence(u, x.slot.role, x.address.value, x.dealId.value);
    }
    if Cleanable(u, x) && !Cleanable(v, x) { OnlySharersGain(v, u, r, x); }
  }

  lemma OnlySharersGain(v: World, u: World, r: Record, x: Record)
    requires Safe(v, u) && !NewlyFinal(v, u) && Recorded(v, x) && x.slot != r.slot && r.address.Some?
    requires Confined(v, u, r.slot, r.address.value) && Cleanable(v, r)
    requires Cleanable(u, x) && !Cleanable(v, x)
    ensures OnSettled(v, r) && SameDeal(r, x)
  {
    assert v.records[x.slot].address == x.address && !BecomesFinal(v, u, x.address.value);
    FinalStays(v, u, x);
    FinalStays(v, u, r);
    assert x.slot in (u.openings - {r.slot}).Keys <==> x.slot in u.openings;
    EvidenceElsewhere(v, u, r.slot, r.address.value, Path(x.slot.role, x.address.value));
  }

  lemma EvidenceElsewhere(v: World, u: World, slot: Slot, address: nat, p: Path)
    requires Confined(v, u, slot, address)
    ensures p != Path(slot.role, address) ==>
      (p in u.evidence <==> p in v.evidence) && (p in u.evidence ==> u.evidence[p] == v.evidence[p])
  {
    if p != Path(slot.role, address) {
      assert p in (u.evidence - {Path(slot.role, address)}).Keys <==> p in u.evidence;
      assert p in (v.evidence - {Path(slot.role, address)}).Keys <==> p in v.evidence;
      if p in u.evidence {
        assert (u.evidence - {Path(slot.role, address)})[p] == (v.evidence - {Path(slot.role, address)})[p];
      }
    }
  }

  /** Without a newly final deal, leaving everything untouched leaves everything as finishable as it was. */
  lemma NothingGained(v: World, u: World, x: Record)
    requires Untouched(v, u) && Safe(v, u) && !NewlyFinal(v, u) && Recorded(v, x)
    ensures Cleanable(u, x) <==> Cleanable(v, x)
    ensures IsDone(v, x) ==> IsDone(u, x)
  {
    hide GoodEvidence;
    SafeMovesForward(v, u);
    if Cleanable(u, x) { CleanableBefore(v, u, x); }
    ClearedSessions(v, u, x);
  }

  lemma HelpedByOneMore(w: World, list: seq<Record>, k: nat, r: Record, skip: Option<nat>)
    requires k < |list|
    ensures HelpedBefore(w, list, k + 1, r, skip) <==>
      HelpedBefore(w, list, k, r, skip) || (Pending(list[k], skip) && Helps(w, list[k], r))
  {
    hide Helps;
  }

  /** A session that could be finished at its turn helps those that share its settled deal, or an
      earlier one has helped them already. */
  lemma HelpIsPassedOn(w: World, list: seq<Record>, k: nat, x: Record, skip: Option<nat>)
    requires k < |list| && Pending(list[k], skip) && Finishable(w, list, k, list[k], skip) && OnSettled(w, list[k])
    requires SameDeal(list[k], x)
    ensures HelpedBefore(w, list, k + 1, x, skip)
  {
    if !Cleanable(w, list[k]) {
      var j :| 0 <= j < k && j < |list| && Pending(list[j], skip) && Helps(w, list[j], list[k]);
      assert Helps(w, list[j], x);
    } else {
      assert Helps(w, list[k], x);
    }
  }

  lemma SettledAlike(w: World, v: World, r: Record)
    requires Safe(w, v) && !NewlyFinal(w, v) && Recorded(w, r)
    ensures OnSettled(w, r) <==> OnSettled(v, r)
  {
    if OnSettled(v, r) {
      assert w.records[r.slot].address == r.address && !BecomesFinal(w, v, r.address.value);
    }
    if r.address.Some? { FinalStays(w, v, r); }
  }

  lemma TraceSkips(w: World, v: World, list: seq<Record>, k: nat, skip: Option<nat>)
    requires k < |list| && Traced(w, v, list, k, skip) && !Pending(list[k], skip)
    ensures Traced(w, v, list, k + 1, skip)
  {
    hide Cleanable;
    hide IsDone;
    hide HelpedBefore;
    var next := k + 1;
    forall i | 0 <= i < |list| ensures TracedAt(w, v, list, next, i, skip) {
      assert TracedAt(w, v, list, k, i, skip);
      HelpedByOneMore(w, list, k, list[i], skip);
    }
  }

  /** How one session's effect moves the trace of another one. */
  lemma TraceOfOther(w: World, v: World, u: World, role: Role, list: seq<Record>, k: nat, i: nat, skip: Option<nat>)
    requires k < |list| && i < |list| && i != k && Listed(w, role, list) && Traced(w, v, list, k, skip)
    requires Pending(list[k], skip) && Safe(w, v) && Safe(v, u) && !NewlyFinal(w, u) && Effect(v, u, list[k])
    requires if list[k].address.Some? then Confined(v, u, list[k].slot, list[k].address.value) else Untouched(v, u)
    ensures TracedAt(w, u, list, k + 1, i, skip)
  {
    hide Safe;
    hide Confined;
    hide Cleanable;
    hide IsDone;
    hide NewlyFinal;
    hide HelpedBefore;
    hide OnSettled;
    var r, x := list[k], list[i];
    assert TracedAt(w, v, list, k, k, skip) && TracedAt(w, v, list, k, i, skip);
    StillNotFinal(w, v, u);
    SafeMovesForward(w, v);
    SafeMovesForward(v, u);
    HelpedByOneMore(w, list, k, x, skip);
    OthersKeep(v, u, r, x);
    SettledAlike(w, v, r);
    if Cleanable(v, r) {
      CleanableHasAddress(v, r);
      if x.slot in v.records && v.records[x.slot] == x { OthersGain(v, u, r, x); }
      if OnSettled(w, r) && SameDeal(r, x) { HelpIsPassedOn(w, list, k, x, skip); }
    } else {
      if x.slot in v.records && v.records[x.slot] == x { NothingGained(v, u, x); }
    }
  }

  lemma StillNotFinal(w: World, v: World, u: World)
    requires Safe(w, v) && Safe(v, u) && !NewlyFinal(w, u)
    ensures !NewlyFinal(w, v) && !NewlyFinal(v, u)
  {
    hide NewlyFinal;
    SafeMovesForward(w, v);
    SafeMovesForward(v, u);
    if NewlyFinal(w, v) || NewlyFinal(v, u) { NewlyFinalStays(w, v, u); }
  }

  lemma CleanableHasAddress(w: World, r: Record)
    requires Cleanable(w, r)
    ensures r.address.Some? && !r.phase.Cleaned?
  {}

  lemma TraceContinues(w: World, v: World, u: World, role: Role, list: seq<Record>, k: nat, skip: Option<nat>)
    requires k < |list| && Listed(w, role, list) && Traced(w, v, list, k, skip)
    requires Pending(list[k], skip) && Safe(w, v) && Safe(v, u) && !NewlyFinal(w, u) && Effect(v, u, list[k])
    requires if list[k].address.Some? then Confined(v, u, list[k].slot, list[k].address.value) else Untouched(v, u)
    ensures Traced(w, u, list, k + 1, skip)
  {
    hide Safe;
    hide Confined;
    hide Cleanable;
    hide IsDone;
    hide NewlyFinal;
    hide HelpedBefore;
    var r := list[k];
    StillNotFinal(w, v, u);
    assert TracedAt(w, v, list, k, k, skip);
    HelpedByOneMore(w, list, k, r, skip);
    if !Cleanable(v, r) {
      NothingGained(v, u, r);
      NotFinishableNoHelp(w, r);
    }
    var next := k + 1;
    forall i | 0 <= i < |list| ensures TracedAt(w, u, list, next, i, skip) {
      if i != k { TraceOfOther(w, v, u, role, list, k, i, skip); }
    }
  }

  lemma NotFinishableNoHelp(w: World, r: Record)
    ensures !Cleanable(w, r) ==> !Helps(w, r, r)
  {}

  // ---- Whether another run would find something ----

  /** The session is read before every session that could help it, and there is one: it is passed over
      while it cannot be finished, and can be finished once the run is over. */
  ghost predicate PassedOver(w: World, role: Role, s: Slot, skip: Option<nat>) {
    && s in w.records && s.role == role && Pending(w.records[s], skip) && !Cleanable(w, w.records[s])
    && (exists t :: IsHelper(w, role, t, w.records[s], skip))
    && (forall t :: IsHelper(w, role, t, w.records[s], skip) ==> s.session < t.session)
  }

  predicate IsHelper(w: World, role: Role, t: Slot, r: Record, skip: Option<nat>) {
    t in w.records && t.role == role && Pending(w.records[t], skip) && Helps(w, w.records[t], r)
  }

  ghost predicate NeedsTwoRuns(w: World, role: Role, skip: Option<nat>) {
    exists s :: PassedOver(w, role, s, skip)
  }

  /** Within the role, every contract belongs to one session. */
  predicate OneContractEach(w: World, role: Role) {
    forall s, t :: s in w.records && t in w.records && s != t && s.role == t.role == role ==>
      w.records[s].address.None? || w.records[s].address != w.records[t].address
  }

  lemma OneContractEachNeedsOneRun(w: World, role: Role, skip: Option<nat>)
    requires OneContractEach(w, role)
    ensures !NeedsTwoRuns(w, role, skip)
  {}

  /** The list of all records of a role. */
  predicate AllListed(w: World, role: Role, list: seq<Record>) {
    && Listed(w, role, list)
    && forall s <- w.records :: w.records[s].slot == s && (s.role == role ==> w.records[s] in list)
  }

  lemma HelpersAreListed(w: World, role: Role, list: seq<Record>, k: nat, r: Record, skip: Option<nat>)
    requires AllListed(w, role, list) && k <= |list|
    ensures HelpedBefore(w, list, k, r, skip) ==>
      exists t :: IsHelper(w, role, t, r, skip) && (k < |list| ==> t.session < list[k].slot.session)
    ensures forall t :: IsHelper(w, role, t, r, skip) && (k < |list| ==> t.session < list[k].slot.session) ==>
      HelpedBefore(w, list, k, r, skip)
  {
    hide Helps;
    if HelpedBefore(w, list, k, r, skip) {
      var j :| 0 <= j < k && j < |list| && Pending(list[j], skip) && Helps(w, list[j], r);
      assert IsHelper(w, role, list[j].slot, r, skip);
    }
    forall t | IsHelper(w, role, t, r, skip) && (k < |list| ==> t.session < list[k].slot.session)
      ensures HelpedBefore(w, list, k, r, skip)
    {
      var j :| 0 <= j < |list| && list[j] == w.records[t];
      assert list[j].slot == t;
    }
  }

  /** In the list, being passed over means: not helped by an earlier record, but by some record. */
  lemma PassedOverInList(w: World, role: Role, list: seq<Record>, i: nat, skip: Option<nat>)
    requires AllListed(w, role, list) && i < |list| && Pending(list[i], skip)
    ensures PassedOver(w, role, list[i].slot, skip) <==>
      !Finishable(w, list, i, list[i], skip) && HelpedBefore(w, list, |list|, list[i], skip)
  {
    hide HelpedBefore;
    var r := list[i];
    HelpersAreListed(w, role, list, i, r, skip);
    HelpersAreListed(w, role, list, |list|, r, skip);
    assert forall t :: IsHelper(w, role, t, r, skip) && t.session == r.slot.session ==> t == r.slot;
  }

  /** What a session is left to do after a calm run: something exactly if it was passed over. */
  predicate LeftToDo(u: World, s: Slot, skip: Option<nat>)
    requires s in u.records
  {
    Pending(u.records[s], skip) && Cleanable(u, u.records[s])
  }

  /** Exactly: after a calm run that no newly final deal disturbed, a session of the role is left to do
      if and only if it was passed over. */
  lemma LeftIfPassedOver(w: World, u: World, role: Role, list: seq<Record>, skip: Option<nat>)
    requires AllListed(w, role, list) && Traced(w, u, list, |list|, skip) && SameSessions(w, u)
    ensures forall s <- w.records :: s.role == role ==> (LeftToDo(u, s, skip) <==> PassedOver(w, role, s, skip))
    ensures forall s <- w.records :: s.role == role && w.records[s].phase.Cleaned? ==> u.records[s] == w.records[s]
  {
    hide LeftToDo;
    hide PassedOver;
    hide TracedAt;
    forall s | s in w.records && s.role == role
      ensures LeftToDo(u, s, skip) <==> PassedOver(w, role, s, skip)
      ensures w.records[s].phase.Cleaned? ==> u.records[s] == w.records[s]
    {
      var i :| 0 <= i < |list| && list[i] == w.records[s];
      StillToDo(w, u, role, list, i, skip);
    }
  }

  lemma StillToDo(w: World, u: World, role: Role, list: seq<Record>, i: nat, skip: Option<nat>)
    requires AllListed(w, role, list) && Traced(w, u, list, |list|, skip) && i < |list|
    ensures var s := list[i].slot;
      s in u.records && (LeftToDo(u, s, skip) <==> PassedOver(w, role, s, skip))
    ensures list[i].phase.Cleaned? ==> u.records[list[i].slot] == list[i]
  {
    hide Cleanable;
    hide HelpedBefore;
    var r := list[i];
    assert TracedAt(w, u, list, |list|, i, skip);
    if Pending(r, skip) {
      PassedOverInList(w, role, list, i, skip);
      if HelpedBefore(w, list, i, r, skip) { MoreHelp(w, list, i, |list|, r, skip); }
    }
  }

  lemma MoreHelp(w: World, list: seq<Record>, i: nat, k: nat, r: Record, skip: Option<nat>)
    requires i <= k && HelpedBefore(w, list, i, r, skip)
    ensures HelpedBefore(w, list, k, r, skip)
  {
    hide Helps;
  }
}
