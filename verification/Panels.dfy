/** What the controller shows on each panel and tells each process, session by session, over every
    sequence of events in which both parties keep running. */
module Panels {
  import opened Pricing
  import opened Runtimes
  import opened Controller

  /** One panel and one process, and the session one looks at. */
  datatype View = View(panel: Role, child: Child, session: nat)

  function StageOf(v: View, o: Output): seq<Stage> {
    if o.Show? && o.panel == v.panel && o.session == v.session then [o.stage] else []
  }

  function CommandOf(v: View, o: Output): seq<Command> {
    if o.Tell? && o.target == v.child && o.command.session == v.session then [o.command] else []
  }

  /** The stages the panel shows for the session, in order. */
  function Story(output: seq<Output>, v: View): seq<Stage> {
    if output == [] then [] else Story(output[..|output| - 1], v) + StageOf(v, output[|output| - 1])
  }

  /** The commands the process gets for the session, in order. */
  function Orders(output: seq<Output>, v: View): seq<Command> {
    if output == [] then [] else Orders(output[..|output| - 1], v) + CommandOf(v, output[|output| - 1])
  }

  function When<T>(c: bool, xs: seq<T>): seq<T> {
    if c then xs else []
  }

  /** Between two states exactly these stages and commands are added. */
  predicate Adds(v: View, s: State, t: State, stages: seq<Stage>, commands: seq<Command>) {
    Story(t.output, v) == Story(s.output, v) + stages && Orders(t.output, v) == Orders(s.output, v) + commands
  }

  predicate PartiesRun(s: State) {
    BuyerChild in s.connected && SellerChild in s.connected
  }

  function IsParty(v: View): bool { !v.child.ObserverChild? }

  predicate Watches(s: State, v: View) {
    v.child.ObserverChild? && ObserverChild in s.connected
  }

  // ---- What each event adds ----

  predicate NoticeDue(chain: bool, s: State, panel: Role, session: nat) {
    && Holds(s.commitments, Opposite(panel), session) && (panel, session) !in s.notices
    && (chain ==> session in s.chainOpen)
  }

  predicate MayAnnounce(chain: bool, s: State, session: nat) {
    session !in s.announced && session !in s.accepted && (chain ==> session in s.chainOpen)
  }

  predicate MayStart(chain: bool, s: State, session: nat) {
    Due(chain, s, session) && session !in s.negotiating && session !in s.accepted
  }

  predicate Meets(s: State, role: Role, session: nat, productCode: nat) {
    Opposite(role) in s.rooms && s.rooms[Opposite(role)] == Room(session, productCode)
  }

  predicate GetsReady(s: State, role: Role, session: nat) {
    BothCommitted(s.(commitments := s.commitments[role := session]), session) && session !in s.peerReady
  }

  function Chapter(chain: bool, s: State, e: Event, v: View): seq<Stage> {
    match e
    case Joins(role, session, productCode) =>
      if session != v.session then []
      else if !Meets(s, role, session, productCode) then When(role == v.panel, [WaitingPeer])
      else
        var t := s.(commitments := s.commitments - {role});
        [PeerJoined] + When(NoticeDue(chain, t, v.panel, session), [PeerCommitment])
    case Commits(role, session) =>
      if session != v.session || !GetsReady(s, role, session) then []
      else
        var t := s.(commitments := s.commitments[role := session]);
        When(NoticeDue(chain, t, v.panel, session), [PeerCommitment]) + When(MayAnnounce(chain, t, session), [Starting])
    case Ends(session, outcome) =>
      if session != v.session || session !in s.negotiating || session in s.accepted then []
      else [Complete] + When(chain, [if outcome.Settled? then Verifying else Finalizing])
    case Observes(session, state) => if !chain || session != v.session then [] else Observed(s, state, v)
    case Fires(index) =>
      if !MayFire(s.jobs, index) || s.jobs[index].session != v.session then [] else Fired(s, s.jobs[index])
    case _ => []
  }

  function Observed(s: State, state: PublicState, v: View): seq<Stage> {
    match state
    case PublicOpen =>
      var t := s.(chainOpen := s.chainOpen + {v.session});
      if v.session !in s.peerReady then []
      else
        When(NoticeDue(true, t, v.panel, v.session), [PeerCommitment]) +
        When(MayAnnounce(true, t, v.session), [Starting])
    case PublicAuthorized => [ProofsComplete, Finalizing]
    case PublicCancelled => [ShownCancelled]
    case PublicSettled =>
      if v.session !in s.pending then []
      else
        When(v.session !in s.chainAuthorized, [ProofsComplete, Finalizing]) +
        [Agreed(s.pending[v.session]), ShownSettled]
  }

  function Fired(s: State, job: Job): seq<Stage> {
    match job
    case Display(session) => When(session !in s.accepted, [Negotiating])
    case ShowCancellation(_) => [ShownCancelled]
    case ShowVerifying(_) => [Verifying]
    case ShowProofs(_) => [ProofsComplete]
    case ShowAgreed(_, amount) => [Agreed(amount)]
    case ShowSettlement(_) => [ShownSettled]
  }

  function Mandate(chain: bool, s: State, e: Event, v: View): seq<Command> {
    match e
    case Joins(role, session, productCode) =>
      When(session == v.session && Watches(s, v) && Meets(s, role, session, productCode) && session !in s.observers,
           [Configure(session)])
    case Commits(role, session) =>
      if session != v.session || !GetsReady(s, role, session) then []
      else if IsParty(v) then [PeerIsReady(session)]
      else When(!chain && session in s.observers && Watches(s, v), [Publish(session, PublicOpen)])
    case ChannelReady(role, session) => StartOrder(chain, s.(channels := s.channels[role := session]), session, v)
    case Ends(_, _) => []
    case Observes(session, state) =>
      if !chain || session != v.session then []
      else
        (match state
         case PublicOpen => StartOrder(chain, s.(chainOpen := s.chainOpen + {session}), session, v)
         case PublicAuthorized => []
         case PublicCancelled => When(IsParty(v), [Finalize(session)])
         case PublicSettled => When(IsParty(v) && session in s.pending, [Finalize(session)]))
    case ObserverConfigured(session) => When(session == v.session && Watches(s, v), [Configure(session)])
    case StartRequested(session) => StartOrder(chain, s, session, v)
    case Fires(index) =>
      if !MayFire(s.jobs, index) || s.jobs[index].session != v.session then []
      else Triggered(chain, s, s.jobs[index], v)
    case Exits(_) => []
  }

  function StartOrder(chain: bool, s: State, session: nat, v: View): seq<Command> {
    When(session == v.session && IsParty(v) && MayStart(chain, s, session), [Start(session)])
  }

  function Triggered(chain: bool, s: State, job: Job, v: View): seq<Command> {
    var published := Watches(s, v) && job.session in s.observers;
    match job
    case Display(session) =>
      if session in s.accepted then []
      else StartOrder(chain, s.(displayReady := s.displayReady + {session}), session, v)
    case ShowCancellation(session) => When(published, [Publish(session, PublicCancelled)])
    case ShowProofs(session) => When(published, [Publish(session, PublicAuthorized)])
    case ShowSettlement(session) => When(published, [Publish(session, PublicSettled)])
    case _ => []
  }

  // ---- It adds exactly that ----

  lemma OutputAdds(v: View, s: State, o: Output)
    ensures Adds(v, s, s.(output := s.output + [o]), StageOf(v, o), CommandOf(v, o))
  {
    assert (s.output + [o])[..|s.output|] == s.output;
  }

  lemma OneAdds(v: View, s: State, panel: Role, session: nat, stage: Stage)
    ensures Adds(v, s, ShowOne(s, panel, session, stage), When(panel == v.panel && session == v.session, [stage]), [])
  {
    OutputAdds(v, s, Show(panel, session, stage));
  }

  lemma PairAdds(v: View, s: State, session: nat, stage: Stage)
    ensures Adds(v, s, ShowPair(s, session, stage), When(session == v.session, [stage]), [])
  {
    hide Story;
    hide Orders;
    OutputAdds(v, s, Show(Buyer, session, stage));
    OutputAdds(v, ShowOne(s, Buyer, session, stage), Show(Seller, session, stage));
  }

  lemma SendAdds(v: View, s: State, target: Child, command: Command)
    ensures Adds(v, s, SendTo(s, target, command).state, [],
                 When(target == v.child && command.session == v.session && target in s.connected, [command]))
  {
    OutputAdds(v, s, Tell(target, command));
  }

  lemma PartiesAdd(v: View, s: State, command: Command)
    requires PartiesRun(s)
    ensures Adds(v, s, SendParties(s, command).state, [], When(IsParty(v) && command.session == v.session, [command]))
    ensures SendParties(s, command).ok
  {
    hide Story;
    hide Orders;
    OutputAdds(v, s, Tell(BuyerChild, command));
    OutputAdds(v, SendTo(s, BuyerChild, command).state, Tell(SellerChild, command));
  }

  lemma StartAdds(chain: bool, v: View, s: State, session: nat)
    requires PartiesRun(s)
    ensures Adds(v, s, TryStart(chain, s, session).state, [], StartOrder(chain, s, session, v))
  {
    hide Story;
    hide Orders;
    hide SendParties;
    PartiesAdd(v, s.(negotiating := s.negotiating + {session}), Start(session));
  }

  lemma PublishAdds(v: View, s: State, session: nat, state: PublicState)
    ensures Adds(v, s, PublishState(s, session, state).state, [],
                 When(Watches(s, v) && session == v.session && session in s.observers, [Publish(session, state)]))
  {
    SendAdds(v, s, ObserverChild, Publish(session, state));
  }

  lemma NoticesAdd(chain: bool, v: View, s: State, session: nat)
    ensures Adds(v, s, Notices(chain, s, session),
                 When(session == v.session && NoticeDue(chain, s, v.panel, session), [PeerCommitment]), [])
    ensures var t := Notices(chain, s, session); t == s.(notices := t.notices, output := t.output)
  {
    hide Story;
    hide Orders;
    NoticesOnly(chain, s, session);
    OneAdds(v, s.(notices := s.notices + {(Buyer, session)}), Buyer, session, PeerCommitment);
    var t := Notice(chain, s, Buyer, session);
    OneAdds(v, t.(notices := t.notices + {(Seller, session)}), Seller, session, PeerCommitment);
  }

  lemma AnnounceAdds(chain: bool, v: View, s: State, session: nat)
    ensures Adds(v, s, Announce(chain, s, session),
                 When(session == v.session && MayAnnounce(chain, s, session), [Starting]), [])
  {
    hide Story;
    hide Orders;
    PairAdds(v, s.(announced := s.announced + {session}), session, Starting);
  }

  lemma ConfigureAdds(v: View, s: State, session: nat)
    ensures Adds(v, s, ConfigureObserver(s, session).state, [],
                 When(session == v.session && Watches(s, v), [Configure(session)]))
  {
    SendAdds(v, s, ObserverChild, Configure(session));
  }

  lemma JoinAdds(chain: bool, v: View, s: State, role: Role, session: nat, productCode: nat)
    ensures var e := Joins(role, session, productCode);
      Adds(v, s, AcceptJoin(chain, s, role, session, productCode).state,
           Chapter(chain, s, e, v), Mandate(chain, s, e, v))
  {
    hide Story;
    hide Orders;
    hide Notices;
    hide ConfigureObserver;
    var t := s.(rooms := s.rooms[role := Room(session, productCode)], commitments := s.commitments - {role});
    OneAdds(v, t, role, session, WaitingPeer);
    PairAdds(v, t, session, PeerJoined);
    var u := ShowPair(t, session, PeerJoined);
    NoticesAdd(chain, v, u, session);
    ConfigureAdds(v, Notices(chain, u, session), session);
  }

  lemma CommitAdds(chain: bool, v: View, s: State, role: Role, session: nat)
    requires PartiesRun(s)
    ensures var e := Commits(role, session);
      Adds(v, s, AcceptCommitment(chain, s, role, session).state, Chapter(chain, s, e, v), Mandate(chain, s, e, v))
  {
    hide Story;
    hide Orders;
    hide Notices;
    hide SendParties;
    hide PublishState;
    hide Announce;
    var t := s.(commitments := s.commitments[role := session]);
    if BothCommitted(t, session) && session !in t.peerReady {
      var ready := t.(peerReady := t.peerReady + {session});
      PartiesAdd(v, ready, PeerIsReady(session));
      var u := SendParties(ready, PeerIsReady(session)).state;
      PartiesOnly(ready, PeerIsReady(session));
      NoticesAdd(chain, v, u, session);
      var w := Notices(chain, u, session);
      AnnounceAdds(chain, v, w, session);
      AnnounceOnly(chain, w, session);
      PublishAdds(v, Announce(chain, w, session), session, PublicOpen);
    }
  }

  lemma PartiesOnly(s: State, command: Command)
    ensures var t := SendParties(s, command).state; t == s.(output := t.output)
  {}

  lemma AnnounceOnly(chain: bool, s: State, session: nat)
    ensures var t := Announce(chain, s, session); t == s.(announced := t.announced, jobs := t.jobs, output := t.output)
  {}

  lemma OutcomeAdds(chain: bool, v: View, s: State, session: nat, outcome: Outcome)
    ensures var e := Ends(session, outcome);
      Adds(v, s, AcceptOutcome(chain, s, session, outcome), Chapter(chain, s, e, v), Mandate(chain, s, e, v))
  {
    hide Story;
    hide Orders;
    hide ShowPair;
    var t := s.(accepted := s.accepted[session := outcome]);
    PairAdds(v, t, session, Complete);
    PairOnly(t, session, Complete);
    var u := ShowPair(t, session, Complete);
    PairAdds(v, u, session, Finalizing);
    if outcome.Settled? { PairAdds(v, u.(pending := u.pending[session := outcome.amount]), session, Verifying); }
  }

  lemma PairOnly(s: State, session: nat, stage: Stage)
    ensures var t := ShowPair(s, session, stage); t == s.(output := t.output)
  {}

  lemma AuthorizedAdds(v: View, s: State, session: nat)
    ensures Adds(v, s, Authorized(s, session), When(session == v.session, [ProofsComplete, Finalizing]), [])
    ensures var t := Authorized(s, session); t == s.(chainAuthorized := t.chainAuthorized, output := t.output)
  {
    hide Story;
    hide Orders;
    hide ShowPair;
    var t := s.(chainAuthorized := s.chainAuthorized + {session});
    PairAdds(v, t, session, ProofsComplete);
    PairAdds(v, ShowPair(t, session, ProofsComplete), session, Finalizing);
    PairOnly(t, session, ProofsComplete);
    PairOnly(ShowPair(t, session, ProofsComplete), session, Finalizing);
  }

  lemma OpenAdds(v: View, s: State, session: nat)
    requires PartiesRun(s)
    ensures var e := Observes(session, PublicOpen);
      Adds(v, s, AcceptObservation(true, s, session, PublicOpen).state, Chapter(true, s, e, v), Mandate(true, s, e, v))
  {
    hide Story;
    hide Orders;
    hide Notices;
    hide Announce;
    hide TryStart;
    var t := s.(chainOpen := s.chainOpen + {session});
    NoticesAdd(true, v, t, session);
    var u := Notices(true, t, session);
    AnnounceAdds(true, v, u, session);
    AnnounceOnly(true, u, session);
    var w := if session in t.peerReady then Announce(true, u, session) else t;
    StartAdds(true, v, w, session);
  }

  lemma ObservationAdds(chain: bool, v: View, s: State, session: nat, state: PublicState)
    requires PartiesRun(s)
    ensures var e := Observes(session, state);
      Adds(v, s, AcceptObservation(chain, s, session, state).state, Chapter(chain, s, e, v), Mandate(chain, s, e, v))
  {
    hide Story;
    hide Orders;
    hide ShowPair;
    hide SendParties;
    hide Authorized;
    if chain {
      match state
      case PublicOpen => OpenAdds(v, s, session);
      case PublicAuthorized => AuthorizedAdds(v, s, session);
      case PublicCancelled =>
        var t := s.(pending := s.pending - {session});
        PartiesAdd(v, t, Finalize(session));
        PairAdds(v, SendParties(t, Finalize(session)).state, session, ShownCancelled);
      case PublicSettled => if session in s.pending { SettlementAdds(v, s, session); }
    }
  }

  lemma SettlementAdds(v: View, s: State, session: nat)
    requires PartiesRun(s) && session in s.pending
    ensures var e := Observes(session, PublicSettled);
      Adds(v, s, AcceptObservation(true, s, session, PublicSettled).state,
           Chapter(true, s, e, v), Mandate(true, s, e, v))
  {
    hide Story;
    hide Orders;
    hide ShowPair;
    hide SendParties;
    hide Authorized;
    AuthorizedAdds(v, s, session);
    var t := if session in s.chainAuthorized then s else Authorized(s, session);
    PairAdds(v, t, session, Agreed(s.pending[session]));
    PairOnly(t, session, Agreed(s.pending[session]));
    var u := ShowPair(t, session, Agreed(s.pending[session]));
    PairAdds(v, u, session, ShownSettled);
    PairOnly(u, session, ShownSettled);
    var w := ShowPair(u, session, ShownSettled);
    PartiesAdd(v, w.(pending := w.pending - {session}), Finalize(session));
  }

  lemma JobAdds(chain: bool, v: View, s: State, job: Job)
    requires PartiesRun(s)
    ensures Adds(v, s, Perform(chain, s, job).state, When(job.session == v.session, Fired(s, job)),
                 When(job.session == v.session, Triggered(chain, s, job, v)))
  {
    hide Story;
    hide Orders;
    hide ShowPair;
    hide TryStart;
    hide PublishState;
    var session := job.session;
    match job
    case Display(_) =>
      PairAdds(v, s, session, Negotiating);
      PairOnly(s, session, Negotiating);
      var t := ShowPair(s, session, Negotiating);
      StartAdds(chain, v, t.(displayReady := t.displayReady + {session}), session);
    case ShowCancellation(_) =>
      PairAdds(v, s, session, ShownCancelled);
      PairOnly(s, session, ShownCancelled);
      PublishAdds(v, ShowPair(s, session, ShownCancelled), session, PublicCancelled);
    case ShowVerifying(_) => PairAdds(v, s, session, Verifying);
    case ShowProofs(_) =>
      PairAdds(v, s, session, ProofsComplete);
      PairOnly(s, session, ProofsComplete);
      PublishAdds(v, ShowPair(s, session, ProofsComplete), session, PublicAuthorized);
    case ShowAgreed(_, amount) => PairAdds(v, s, session, Agreed(amount));
    case ShowSettlement(_) =>
      PairAdds(v, s, session, ShownSettled);
      PairOnly(s, session, ShownSettled);
      PublishAdds(v, ShowPair(s, session, ShownSettled), session, PublicSettled);
  }

  lemma OtherAdds(chain: bool, v: View, s: State, e: Event)
    requires PartiesRun(s)
    requires e.ChannelReady? || e.ObserverConfigured? || e.StartRequested? || e.Exits?
    ensures Adds(v, s, Handle(chain, s, e).state, Chapter(chain, s, e, v), Mandate(chain, s, e, v))
  {
    hide Story;
    hide Orders;
    hide TryStart;
    hide ConfigureObserver;
    hide StartOrder;
    match e
    case ChannelReady(role, session) => StartAdds(chain, v, s.(channels := s.channels[role := session]), session);
    case ObserverConfigured(session) => ConfigureAdds(v, s, session);
    case StartRequested(session) => StartAdds(chain, v, s, session);
    case _ =>
  }

  lemma FiringAdds(chain: bool, v: View, s: State, index: nat)
    requires PartiesRun(s)
    ensures var e := Fires(index);
      Adds(v, s, Handle(chain, s, e).state, Chapter(chain, s, e, v), Mandate(chain, s, e, v))
  {
    hide Story;
    hide Orders;
    hide Perform;
    hide TryStart;
    if MayFire(s.jobs, index) { JobAdds(chain, v, TakeJob(s, index), s.jobs[index]); }
  }

  /** What the controller puts out for an event, in full. */
  lemma HandleAdds(chain: bool, v: View, s: State, e: Event)
    requires PartiesRun(s)
    ensures Adds(v, s, Handle(chain, s, e).state, Chapter(chain, s, e, v), Mandate(chain, s, e, v))
  {
    hide Story;
    hide Orders;
    hide AcceptJoin;
    hide AcceptCommitment;
    hide AcceptObservation;
    hide AcceptOutcome;
    hide Chapter;
    hide Mandate;
    match e
    case Joins(role, session, productCode) => JoinAdds(chain, v, s, role, session, productCode);
    case Commits(role, session) => CommitAdds(chain, v, s, role, session);
    case Ends(session, outcome) => OutcomeAdds(chain, v, s, session, outcome);
    case Observes(session, state) => ObservationAdds(chain, v, s, session, state);
    case ChannelReady(_, _) => OtherAdds(chain, v, s, e);
    case ObserverConfigured(_) => OtherAdds(chain, v, s, e);
    case StartRequested(_) => OtherAdds(chain, v, s, e);
    case Fires(index) => FiringAdds(chain, v, s, index);
    case Exits(_) => OtherAdds(chain, v, s, e);
  }

  // ---- Where a session stands ----

  /** What the controller remembers of a session, with its timers in the order in which they fire. */
  datatype Standing = Standing(ready: bool, announced: bool, displayed: bool, started: bool,
                               accepted: Option<Outcome>, jobs: seq<Job>)

  function Mine(jobs: seq<Job>, session: nat): seq<Job> {
    if jobs == [] then []
    else
      var job := jobs[|jobs| - 1];
      Mine(jobs[..|jobs| - 1], session) + When(job.session == session, [job])
  }

  function Of(s: State, session: nat): Standing {
    Standing(session in s.peerReady, session in s.announced, session in s.displayReady, session in s.negotiating,
             if session in s.accepted then Some(s.accepted[session]) else None, Mine(s.jobs, session))
  }

  function AfterAnnounce(st: Standing, yes: bool, session: nat): Standing {
    if yes then st.(announced := true, jobs := st.jobs + [Display(session)]) else st
  }

  function AfterStart(st: Standing, yes: bool): Standing {
    st.(started := st.started || yes)
  }

  function EndingJobs(outcome: Outcome, session: nat): seq<Job> {
    match outcome
    case Settled(amount) => SettlementJobs(session, amount)
    case Cancelled => [ShowCancellation(session)]
  }

  function NextStanding(chain: bool, s: State, e: Event, session: nat): Standing {
    var st := Of(s, session);
    match e
    case Commits(role, k) =>
      if k != session || !GetsReady(s, role, k) then st
      else AfterAnnounce(st.(ready := true), MayAnnounce(chain, s, k), k)
    case ChannelReady(role, k) =>
      AfterStart(st, k == session && MayStart(chain, s.(channels := s.channels[role := k]), k))
    case Ends(k, outcome) =>
      if k != session || !st.started || st.accepted.Some? then st
      else st.(accepted := Some(outcome), jobs := st.jobs + When(!chain, EndingJobs(outcome, session)))
    case Observes(k, PublicOpen) =>
      if !chain || k != session then st
      else
        var t := s.(chainOpen := s.chainOpen + {k});
        AfterStart(AfterAnnounce(st, k in s.peerReady && MayAnnounce(chain, t, k), k), MayStart(chain, t, k))
    case StartRequested(k) => AfterStart(st, k == session && MayStart(chain, s, k))
    case Fires(index) =>
      if !MayFire(s.jobs, index) || s.jobs[index].session != session then st
      else
        var rest := st.(jobs := Mine(TakeJob(s, index).jobs, session));
        var shown := s.(displayReady := s.displayReady + {session});
        if !s.jobs[index].Display? || session in s.accepted then rest
        else AfterStart(rest.(displayed := true), MayStart(chain, shown, session))
    case _ => st
  }

  lemma MineGrows(jobs: seq<Job>, job: Job, session: nat)
    ensures Mine(jobs + [job], session) == Mine(jobs, session) + When(job.session == session, [job])
  {
    assert (jobs + [job])[..|jobs|] == jobs;
  }

  lemma {:induction false} MineSplits(a: seq<Job>, b: seq<Job>, session: nat)
    ensures Mine(a + b, session) == Mine(a, session) + Mine(b, session)
  {
    if b == [] {
      assert a + b == a;
    } else {
      assert (a + b)[..|a + b| - 1] == a + b[..|b| - 1];
      MineSplits(a, b[..|b| - 1], session);
    }
  }

  lemma {:induction false} NoneMine(jobs: seq<Job>, session: nat)
    requires forall j :: 0 <= j < |jobs| ==> jobs[j].session != session
    ensures Mine(jobs, session) == []
  {
    if jobs != [] { NoneMine(jobs[..|jobs| - 1], session); }
  }

  lemma {:induction false} AllMine(jobs: seq<Job>, session: nat)
    requires forall j :: 0 <= j < |jobs| ==> jobs[j].session == session
    ensures Mine(jobs, session) == jobs
  {
    if jobs != [] { AllMine(jobs[..|jobs| - 1], session); }
  }

  /** The timer that fires is the session's first one. */
  lemma FirstOfMineFires(s: State, index: nat, session: nat)
    requires MayFire(s.jobs, index)
    ensures var (job, rest) := (s.jobs[index], Mine(TakeJob(s, index).jobs, session));
      Mine(s.jobs, session) == if job.session == session then [job] + rest else rest
  {
    hide Mine;
    var before, job, after := s.jobs[..index], [s.jobs[index]], s.jobs[index + 1..];
    assert s.jobs == before + (job + after);
    MineSplits(before, job + after, session);
    MineSplits(job, after, session);
    MineSplits(before, after, session);
    OneMine(s.jobs[index], session);
    if s.jobs[index].session == session { NoneMine(before, session); }
  }

  lemma OneMine(job: Job, session: nat)
    ensures Mine([job], session) == When(job.session == session, [job])
  {
    if job.session == session { AllMine([job], session); } else { NoneMine([job], session); }
  }

  lemma StartStands(chain: bool, s: State, k: nat, session: nat)
    requires PartiesRun(s)
    ensures Of(TryStart(chain, s, k).state, session) ==
      AfterStart(Of(s, session), k == session && MayStart(chain, s, k))
  {
    hide Mine;
    hide SendParties;
    PartiesOnly(s.(negotiating := s.negotiating + {k}), Start(k));
  }

  lemma AnnounceStands(chain: bool, s: State, k: nat, session: nat)
    ensures Of(Announce(chain, s, k), session) ==
      AfterAnnounce(Of(s, session), k == session && MayAnnounce(chain, s, k), session)
    ensures var t := Announce(chain, s, k); t == s.(announced := t.announced, jobs := t.jobs, output := t.output)
  {
    hide Mine;
    hide ShowPair;
    AnnounceOnly(chain, s, k);
    PairOnly(s.(announced := s.announced + {k}), k, Starting);
    MineGrows(s.jobs, Display(k), session);
  }

  lemma MatchOnly(chain: bool, s: State, k: nat)
    ensures var t := TryMatch(chain, s, k).state;
      t == s.(notices := t.notices, observers := t.observers, output := t.output) && s.observers <= t.observers
  {
    hide Notices;
    hide ShowPair;
    PairOnly(s, k, PeerJoined);
    NoticesOnly(chain, ShowPair(s, k, PeerJoined), k);
  }

  lemma JoinStands(chain: bool, s: State, role: Role, k: nat, productCode: nat, session: nat)
    ensures Of(AcceptJoin(chain, s, role, k, productCode).state, session) == Of(s, session)
  {
    hide Mine;
    hide TryMatch;
    var t := s.(rooms := s.rooms[role := Room(k, productCode)], commitments := s.commitments - {role});
    MatchOnly(chain, t, k);
    MatchOnly(chain, ShowOne(t, role, k, WaitingPeer), k);
  }

  lemma CommitStands(chain: bool, s: State, role: Role, k: nat, session: nat)
    requires PartiesRun(s)
    ensures Of(AcceptCommitment(chain, s, role, k).state, session) == NextStanding(chain, s, Commits(role, k), session)
  {
    hide Mine;
    hide Notices;
    hide SendParties;
    hide Announce;
    hide PublishState;
    var t := s.(commitments := s.commitments[role := k]);
    if BothCommitted(t, k) && k !in t.peerReady {
      var ready := t.(peerReady := t.peerReady + {k});
      PartiesAdd(View(Buyer, BuyerChild, k), ready, PeerIsReady(k));
      PartiesOnly(ready, PeerIsReady(k));
      var u := SendParties(ready, PeerIsReady(k)).state;
      NoticesOnly(chain, u, k);
      AnnounceStands(chain, Notices(chain, u, k), k, session);
      PublishOnly(Announce(chain, Notices(chain, u, k), k), k, PublicOpen);
    }
  }

  lemma PublishOnly(s: State, k: nat, state: PublicState)
    ensures var t := PublishState(s, k, state).state; t == s.(output := t.output)
  {}

  lemma OutcomeOnly(chain: bool, s: State, k: nat, outcome: Outcome)
    requires k in s.negotiating && k !in s.accepted
    ensures var t := AcceptOutcome(chain, s, k, outcome);
      t == s.(accepted := s.accepted[k := outcome], jobs := s.jobs + When(!chain, EndingJobs(outcome, k)),
              pending := t.pending, output := t.output)
  {
    hide ShowPair;
    var t := s.(accepted := s.accepted[k := outcome]);
    PairOnly(t, k, Complete);
    var u := ShowPair(t, k, Complete);
    PairOnly(u, k, Finalizing);
    if outcome.Settled? { PairOnly(u.(pending := u.pending[k := outcome.amount]), k, Verifying); }
    assert s.jobs + [] == s.jobs;
  }

  lemma EndingMine(chain: bool, outcome: Outcome, k: nat, session: nat)
    ensures Mine(When(!chain, EndingJobs(outcome, k)), session) == When(k == session && !chain, EndingJobs(outcome, k))
  {
    var more := When(!chain, EndingJobs(outcome, k));
    hide Mine;
    if k == session { AllMine(more, session); } else { NoneMine(more, session); }
  }

  lemma OutcomeStands(chain: bool, s: State, k: nat, outcome: Outcome, session: nat)
    ensures Of(AcceptOutcome(chain, s, k, outcome), session) == NextStanding(chain, s, Ends(k, outcome), session)
  {
    hide Mine;
    hide EndingJobs;
    hide ShowPair;
    if k in s.negotiating && k !in s.accepted {
      OutcomeOnly(chain, s, k, outcome);
      EndingMine(chain, outcome, k, session);
      MineSplits(s.jobs, When(!chain, EndingJobs(outcome, k)), session);
      OutcomeMoves(chain, s, AcceptOutcome(chain, s, k, outcome), k, outcome, session);
    }
  }

  lemma OutcomeMoves(chain: bool, s: State, t: State, k: nat, outcome: Outcome, session: nat)
    requires k in s.negotiating && k !in s.accepted
    requires t == s.(accepted := s.accepted[k := outcome], jobs := t.jobs, pending := t.pending, output := t.output)
    requires Mine(t.jobs, session) == Mine(s.jobs, session) + When(k == session && !chain, EndingJobs(outcome, k))
    ensures Of(t, session) == NextStanding(chain, s, Ends(k, outcome), session)
  {
    hide Mine;
    hide EndingJobs;
    hide SettlementJobs;
    assert Mine(s.jobs, session) + [] == Mine(s.jobs, session);
  }

  lemma ObservationStands(chain: bool, s: State, k: nat, state: PublicState, session: nat)
    requires PartiesRun(s)
    ensures Of(AcceptObservation(chain, s, k, state).state, session) ==
      NextStanding(chain, s, Observes(k, state), session)
  {
    hide Mine;
    hide ShowPair;
    hide SendParties;
    hide Authorized;
    hide Notices;
    hide Announce;
    hide TryStart;
    AuthorizedAdds(View(Buyer, BuyerChild, k), s, k);
    if chain {
      match state
      case PublicOpen =>
        var t := s.(chainOpen := s.chainOpen + {k});
        NoticesOnly(chain, t, k);
        AnnounceStands(chain, Notices(chain, t, k), k, session);
        StartStands(chain, if k in t.peerReady then Announce(chain, Notices(chain, t, k), k) else t, k, session);
      case PublicAuthorized =>
      case PublicCancelled =>
        var t := s.(pending := s.pending - {k});
        PartiesOnly(t, Finalize(k));
        PairOnly(SendParties(t, Finalize(k)).state, k, ShownCancelled);
      case PublicSettled =>
        if k in s.pending {
          var t := if k in s.chainAuthorized then s else Authorized(s, k);
          PairOnly(t, k, Agreed(s.pending[k]));
          var u := ShowPair(t, k, Agreed(s.pending[k]));
          PairOnly(u, k, ShownSettled);
          var w := ShowPair(u, k, ShownSettled);
          PartiesOnly(w.(pending := w.pending - {k}), Finalize(k));
        }
    }
  }

  lemma PerformOnly(chain: bool, s: State, job: Job)
    requires !job.Display? || job.session in s.accepted
    ensures var t := Perform(chain, s, job).state; t == s.(output := t.output)
  {
    hide ShowPair;
    if !job.Display? {
      var stage := match job
        case ShowCancellation(_) => ShownCancelled
        case ShowVerifying(_) => Verifying
        case ShowProofs(_) => ProofsComplete
        case ShowAgreed(_, amount) => Agreed(amount)
        case _ => ShownSettled;
      PairOnly(s, job.session, stage);
    }
  }

  lemma DisplayStands(chain: bool, s: State, k: nat, session: nat)
    requires PartiesRun(s) && k !in s.accepted
    ensures Of(Perform(chain, s, Display(k)).state, session) ==
      if k != session then Of(s, session)
      else AfterStart(Of(s, session).(displayed := true),
                      MayStart(chain, s.(displayReady := s.displayReady + {session}), session))
  {
    hide Mine;
    hide ShowPair;
    hide TryStart;
    PairOnly(s, k, Negotiating);
    var u := ShowPair(s, k, Negotiating);
    StartStands(chain, u.(displayReady := u.displayReady + {k}), k, session);
  }

  lemma FireStands(chain: bool, s: State, index: nat, session: nat)
    requires PartiesRun(s) && MayFire(s.jobs, index)
    ensures Of(Perform(chain, TakeJob(s, index), s.jobs[index]).state, session) ==
      NextStanding(chain, s, Fires(index), session)
  {
    hide Mine;
    hide Perform;
    var t, job := TakeJob(s, index), s.jobs[index];
    FirstOfMineFires(s, index, session);
    if job.Display? && job.session !in s.accepted {
      DisplayStands(chain, t, job.session, session);
      assert job == Display(job.session);
    } else {
      PerformOnly(chain, t, job);
    }
  }

  lemma OtherStands(chain: bool, s: State, e: Event, session: nat)
    requires PartiesRun(s)
    requires e.ChannelReady? || e.ObserverConfigured? || e.StartRequested? || e.Exits?
    ensures Of(Handle(chain, s, e).state, session) == NextStanding(chain, s, e, session)
  {
    hide Mine;
    hide TryStart;
    match e
    case ChannelReady(role, k) => StartStands(chain, s.(channels := s.channels[role := k]), k, session);
    case StartRequested(k) => StartStands(chain, s, k, session);
    case _ =>
  }

  lemma HandleStands(chain: bool, s: State, e: Event, session: nat)
    requires PartiesRun(s)
    ensures Of(Handle(chain, s, e).state, session) == NextStanding(chain, s, e, session)
  {
    hide Of;
    hide AcceptJoin;
    hide AcceptCommitment;
    hide AcceptObservation;
    hide AcceptOutcome;
    hide Perform;
    hide TryStart;
    match e
    case Joins(role, k, productCode) => JoinStands(chain, s, role, k, productCode, session);
    case Commits(role, k) => CommitStands(chain, s, role, k, session);
    case Ends(k, outcome) => OutcomeStands(chain, s, k, outcome, session);
    case Observes(k, state) => ObservationStands(chain, s, k, state, session);
    case Fires(index) => if MayFire(s.jobs, index) { FireStands(chain, s, index, session); }
    case ChannelReady(_, _) => OtherStands(chain, s, e, session);
    case ObserverConfigured(_) => OtherStands(chain, s, e, session);
    case StartRequested(_) => OtherStands(chain, s, e, session);
    case Exits(_) => OtherStands(chain, s, e, session);
  }

  // ---- What holds over every run ----

  /** Each stage comes after the one before it, and the timers left are those still to fire. */
  predicate Fine(chain: bool, st: Standing, session: nat) {
    && (st.displayed ==> st.announced) && (st.started ==> st.displayed) && (st.accepted.Some? ==> st.started)
    && (match st.accepted
        case None => st.jobs == When(st.announced && !st.displayed, [Display(session)])
        case Some(outcome) =>
          var all := EndingJobs(outcome, session);
          if chain then st.jobs == [] else |st.jobs| <= |all| && st.jobs == all[|all| - |st.jobs|..])
  }

  lemma FineNext(chain: bool, s: State, e: Event, session: nat)
    requires Fine(chain, Of(s, session), session)
    ensures Fine(chain, NextStanding(chain, s, e, session), session)
  {
    hide Mine;
    if e.Fires? {
      if MayFire(s.jobs, e.index) && s.jobs[e.index].session == session {
        var st, rest := Of(s, session), Mine(TakeJob(s, e.index).jobs, session);
        FirstOfMineFires(s, e.index, session);
        FineFired(chain, st, s.jobs[e.index], rest, session);
        assert Of(s, session).accepted.Some? <==> session in s.accepted;
      }
    } else if e.Ends? {
      FineEnds(chain, s, e.session, e.outcome, session);
    }
  }

  lemma FineEnds(chain: bool, s: State, k: nat, outcome: Outcome, session: nat)
    requires Fine(chain, Of(s, session), session)
    ensures Fine(chain, NextStanding(chain, s, Ends(k, outcome), session), session)
  {
    hide Mine;
    var st, all := Of(s, session), EndingJobs(outcome, session);
    if k == session && st.started && st.accepted.None? {
      assert st.jobs == [];
      assert [] + all == all && all[0..] == all;
    }
  }

  lemma FineMeans(chain: bool, st: Standing, session: nat)
    requires Fine(chain, st, session)
    ensures (st.displayed ==> st.announced) && (st.started ==> st.displayed) && (st.accepted.Some? ==> st.started)
    ensures st.jobs != [] ==> st.announced
  {}

  lemma NoDisplayEnds(outcome: Outcome, session: nat)
    ensures forall job <- EndingJobs(outcome, session) :: !job.Display?
  {}

  /** A timer fires: the display before the end, the first of the ending's after it. */
  lemma FineFired(chain: bool, st: Standing, job: Job, rest: seq<Job>, session: nat)
    requires Fine(chain, st, session) && st.jobs == [job] + rest
    ensures job.Display? <==> st.accepted.None?
    ensures chain ==> st.accepted.None?
    ensures st.accepted.None? ==> !st.displayed && rest == [] && job == Display(session)
    ensures st.accepted.Some? ==>
      var all := EndingJobs(st.accepted.value, session);
      |st.jobs| <= |all| && job == all[|all| - |st.jobs|] && rest == all[|all| - |rest|..]
    ensures Fine(chain, st.(jobs := rest, displayed := st.displayed || st.accepted.None?), session)
  {
    hide EndingJobs;
    assert st.jobs[0] == job && st.jobs[1..] == rest;
    if st.accepted.Some? {
      var all := EndingJobs(st.accepted.value, session);
      NoDisplayEnds(st.accepted.value, session);
      assert st.jobs == all[|all| - |st.jobs|..];
      assert all[|all| - |st.jobs|..][1..] == all[|all| - |rest|..];
    }
  }

  /** The parties run after every beginning of a run in which they run. */
  lemma BeginningsRun(chain: bool, events: seq<Event>)
    requires BothRun(events) && events != []
    ensures BothRun(events[..|events| - 1]) && PartiesRun(Control(chain, events[..|events| - 1]))
  {
    hide Control;
    var init := events[..|events| - 1];
    assert forall e <- init :: e in events;
    ControlKeeps(chain, init);
    PartiesConnected(chain, init, Control(chain, init));
  }

  lemma {:induction false} SessionsStandFine(chain: bool, events: seq<Event>, session: nat)
    requires BothRun(events)
    ensures Fine(chain, Of(Control(chain, events), session), session)
  {
    hide Handle;
    hide Fine;
    hide Of;
    if events == [] {
      StartsFine(chain, session);
    } else {
      var init, last := events[..|events| - 1], events[|events| - 1];
      BeginningsRun(chain, events);
      SessionsStandFine(chain, init, session);
      HandleStands(chain, Control(chain, init), last, session);
      FineNext(chain, Control(chain, init), last, session);
    }
  }

  lemma StartsFine(chain: bool, session: nat)
    ensures Of(STARTED, session) == Standing(false, false, false, false, None, [])
    ensures Fine(chain, Of(STARTED, session), session)
  {}

  predicate IsSetUp(stage: Stage) {
    stage.WaitingPeer? || stage.PeerJoined? || stage.PeerCommitment?
  }

  /** The stages that follow the set-up of a session. */
  function Progress(stages: seq<Stage>): seq<Stage> {
    if stages == [] then []
    else
      var stage := stages[|stages| - 1];
      Progress(stages[..|stages| - 1]) + When(!IsSetUp(stage), [stage])
  }

  lemma {:induction false} ProgressAdds(a: seq<Stage>, b: seq<Stage>)
    ensures Progress(a + b) == Progress(a) + Progress(b)
  {
    if b == [] {
      assert a + b == a;
    } else {
      assert (a + b)[..|a + b| - 1] == a + b[..|b| - 1];
      ProgressAdds(a, b[..|b| - 1]);
    }
  }

  lemma ProgressShort(a: Stage, b: Stage)
    ensures Progress([a]) == When(!IsSetUp(a), [a])
    ensures Progress([a, b]) == When(!IsSetUp(a), [a]) + When(!IsSetUp(b), [b])
  {
    assert [a][..0] == [] && [a, b][..1] == [a];
  }

  function EndingStages(outcome: Outcome): seq<Stage> {
    match outcome
    case Settled(amount) => [Verifying, ProofsComplete, Agreed(amount), ShownSettled]
    case Cancelled => [ShownCancelled]
  }

  /** How the display of a session goes without a chain: an ending only after the outcome, in its order,
      and as far as its timers have fired. */
  function Plot(st: Standing): seq<Stage> {
    When(st.announced, [Starting]) + When(st.displayed, [Negotiating]) +
    (match st.accepted
     case None => []
     case Some(outcome) =>
       var all := EndingStages(outcome);
       [Complete] + (if |st.jobs| <= |all| then all[..|all| - |st.jobs|] else []))
  }

  lemma PlotGoesOn(s: State, e: Event, v: View)
    requires Fine(false, Of(s, v.session), v.session)
    ensures Plot(NextStanding(false, s, e, v.session)) == Plot(Of(s, v.session)) + Progress(Chapter(false, s, e, v))
  {
    hide Mine;
    hide Plot;
    hide Progress;
    hide EndingJobs;
    NothingShown(v);
    match e
    case Joins(role, k, productCode) => JoinPlots(s, e, v);
    case Commits(role, k) => CommitPlots(s, role, k, v);
    case Ends(k, outcome) => OutcomePlots(s, k, outcome, v);
    case Fires(index) =>
      if MayFire(s.jobs, index) && s.jobs[index].session == v.session { FiringPlots(s, index, v); }
    case Exits(_) =>
    case ChannelReady(role, k) => StartPlots(Of(s, v.session));
    case StartRequested(k) => StartPlots(Of(s, v.session));
    case Observes(_, _) =>
    case ObserverConfigured(_) =>
  }

  lemma StartPlots(st: Standing)
    ensures forall yes :: Plot(AfterStart(st, yes)) == Plot(st)
  {}

  lemma JoinPlots(s: State, e: Event, v: View)
    requires e.Joins?
    ensures Progress(Chapter(false, s, e, v)) == []
  {
    hide NoticeDue;
    ProgressShort(WaitingPeer, PeerJoined);
    ProgressShort(PeerJoined, PeerCommitment);
  }

  lemma CommitPlots(s: State, role: Role, k: nat, v: View)
    requires Fine(false, Of(s, v.session), v.session)
    ensures Plot(NextStanding(false, s, Commits(role, k), v.session)) ==
      Plot(Of(s, v.session)) + Progress(Chapter(false, s, Commits(role, k), v))
  {
    hide Mine;
    hide Plot;
    hide Fine;
    hide NoticeDue;
    hide Progress;
    hide GetsReady;
    NothingShown(v);
    var st := Of(s, v.session);
    if k == v.session && GetsReady(s, role, k) {
      ProgressShort(PeerCommitment, Starting);
      ProgressShort(Starting, PeerCommitment);
      var t := s.(commitments := s.commitments[role := k]);
      var announced := When(MayAnnounce(false, t, k), [Starting]);
      ProgressAdds(When(NoticeDue(false, t, v.panel, k), [PeerCommitment]), announced);
      assert Progress(announced) == announced;
      FineMeans(false, st, v.session);
      AnnouncePlots(st, MayAnnounce(false, s, k), v.session);
    }
  }

  lemma AnnouncePlots(st: Standing, yes: bool, session: nat)
    requires (st.displayed ==> st.announced) && (yes ==> !st.announced && st.accepted.None?)
    ensures Plot(AfterAnnounce(st.(ready := true), yes, session)) == Plot(st) + When(yes, [Starting])
  {}

  lemma OutcomePlots(s: State, k: nat, outcome: Outcome, v: View)
    requires Fine(false, Of(s, v.session), v.session)
    ensures Plot(NextStanding(false, s, Ends(k, outcome), v.session)) ==
      Plot(Of(s, v.session)) + Progress(Chapter(false, s, Ends(k, outcome), v))
  {
    hide Mine;
    hide Progress;
    NothingShown(v);
    ProgressShort(Complete, Complete);
    var st := Of(s, v.session);
    if k == v.session && st.started && st.accepted.None? {
      assert [Complete] + [] == [Complete];
      assert EndingStages(outcome)[..0] == [] && |EndingStages(outcome)| == |EndingJobs(outcome, k)|;
      assert st.jobs + EndingJobs(outcome, k) == EndingJobs(outcome, k);
      EndingPlots(st, outcome);
    }
  }

  lemma EndingPlots(st: Standing, outcome: Outcome)
    requires st.announced && st.displayed && st.accepted.None?
    ensures forall jobs: seq<Job> :: |jobs| == |EndingStages(outcome)| ==>
      Plot(st.(accepted := Some(outcome), jobs := jobs)) == Plot(st) + [Complete]
  {}

  lemma FiringPlots(s: State, index: nat, v: View)
    requires Fine(false, Of(s, v.session), v.session) && MayFire(s.jobs, index) && s.jobs[index].session == v.session
    ensures var e := Fires(index);
      Plot(NextStanding(false, s, e, v.session)) == Plot(Of(s, v.session)) + Progress(Chapter(false, s, e, v))
  {
    hide Mine;
    hide Plot;
    hide Progress;
    hide EndingJobs;
    hide MayStart;
    var st, job, rest := Of(s, v.session), s.jobs[index], Mine(TakeJob(s, index).jobs, v.session);
    FirstOfMineFires(s, index, v.session);
    FineFired(false, st, job, rest, v.session);
    var u := st.(jobs := rest, displayed := st.displayed || st.accepted.None?);
    StartPlots(u);
    FiredPlots(s, job, rest, v);
    ProgressShort(Negotiating, Complete);
  }

  lemma FiredPlots(s: State, job: Job, rest: seq<Job>, v: View)
    requires Fine(false, Of(s, v.session), v.session)
    requires Of(s, v.session).jobs == [job] + rest && job.session == v.session
    ensures var st := Of(s, v.session);
      && Plot(st.(jobs := rest, displayed := st.displayed || st.accepted.None?)) == Plot(st) + Fired(s, job)
      && Progress(Fired(s, job)) == Fired(s, job)
  {
    hide Mine;
    hide Plot;
    hide Fine;
    hide Progress;
    var st := Of(s, v.session);
    FineFired(false, st, job, rest, v.session);
    FineMeans(false, st, v.session);
    if st.accepted.None? {
      ProgressShort(Negotiating, Complete);
      assert Fired(s, job) == [Negotiating];
      DisplayPlots(st, rest);
    } else {
      var i := |EndingJobs(st.accepted.value, v.session)| - |st.jobs|;
      EndingMatches(s, st.accepted.value, v.session, i);
      var all := EndingStages(st.accepted.value);
      ProgressShort(all[i], Complete);
      assert all[..i + 1] == all[..i] + [all[i]];
      EndsPlot(st, rest, all[i]);
    }
  }

  lemma DisplayPlots(st: Standing, rest: seq<Job>)
    requires st.announced && !st.displayed && st.accepted.None?
    ensures Plot(st.(jobs := rest, displayed := true)) == Plot(st) + [Negotiating]
  {}

  lemma EndsPlot(st: Standing, rest: seq<Job>, stage: Stage)
    requires st.accepted.Some? && st.displayed && |rest| + 1 == |st.jobs| <= |EndingStages(st.accepted.value)|
    requires var all := EndingStages(st.accepted.value);
      all[..|all| - |rest|] == all[..|all| - |st.jobs|] + [stage]
    ensures Plot(st.(jobs := rest)) == Plot(st) + [stage]
  {
    hide EndingStages;
  }

  lemma EndingMatches(s: State, outcome: Outcome, session: nat, i: nat)
    requires i < |EndingJobs(outcome, session)|
    ensures |EndingStages(outcome)| == |EndingJobs(outcome, session)|
    ensures Fired(s, EndingJobs(outcome, session)[i]) == [EndingStages(outcome)[i]]
    ensures !IsSetUp(EndingStages(outcome)[i])
  {}

  /** Without a chain, each panel shows a session exactly so far: started, negotiating, complete, and
      then the ending of its outcome in order. A settlement is shown only after its agreed amount, and
      nothing but a cancellation after a cancelled negotiation. */
  lemma {:induction false} OffChainStory(events: seq<Event>, v: View)
    requires BothRun(events)
    ensures Progress(Story(Control(false, events).output, v)) == Plot(Of(Control(false, events), v.session))
  {
    hide Handle;
    hide Story;
    hide Orders;
    hide Of;
    hide Plot;
    hide Progress;
    if events == [] {
      NothingShown(v);
    } else {
      var init, last := events[..|events| - 1], events[|events| - 1];
      var s := Control(false, init);
      BeginningsRun(false, events);
      OffChainStory(init, v);
      SessionsStandFine(false, init, v.session);
      HandleAdds(false, v, s, last);
      HandleStands(false, s, last, v.session);
      PlotGoesOn(s, last, v);
      ProgressAdds(Story(s.output, v), Chapter(false, s, last, v));
    }
  }

  lemma NothingShown(v: View)
    ensures Story([], v) == [] && Orders([], v) == [] && Progress([]) == [] && Plot(Of(STARTED, v.session)) == []
  {}

  // ---- On chain ----

  /** How often an event has happened. */
  function Times(events: seq<Event>, e: Event): nat {
    if events == [] then 0
    else Times(events[..|events| - 1], e) + if events[|events| - 1] == e then 1 else 0
  }

  /** How often the chain has ended the session: cancelled it, or settled it while an amount was awaited. */
  function Conclusions(chain: bool, events: seq<Event>, session: nat): nat {
    if events == [] then 0
    else
      var init, last := events[..|events| - 1], events[|events| - 1];
      Conclusions(chain, init, session) +
      if chain && (last == Observes(session, PublicCancelled) ||
                   (last == Observes(session, PublicSettled) && session in Control(chain, init).pending)) then 1 else 0
  }

  /** Each party is told to finalise a session as often as the chain has ended it, and never without. */
  lemma {:induction false} FinalizedAsOftenAsEnded(chain: bool, events: seq<Event>, v: View)
    requires BothRun(events) && IsParty(v)
    ensures multiset(Orders(Control(chain, events).output, v))[Finalize(v.session)] ==
      Conclusions(chain, events, v.session)
  {
    hide Handle;
    hide Story;
    hide Orders;
    hide Mandate;
    hide Chapter;
    if events == [] {
      NothingShown(v);
    } else {
      var init, last := events[..|events| - 1], events[|events| - 1];
      BeginningsRun(chain, events);
      FinalizedAsOftenAsEnded(chain, init, v);
      HandleAdds(chain, v, Control(chain, init), last);
      FinalizedMore(chain, Control(chain, init), last, v);
    }
  }

  lemma FinalizedMore(chain: bool, s: State, e: Event, v: View)
    requires IsParty(v)
    ensures multiset(Mandate(chain, s, e, v))[Finalize(v.session)] ==
      if chain && (e == Observes(v.session, PublicCancelled) ||
                   (e == Observes(v.session, PublicSettled) && v.session in s.pending)) then 1 else 0
  {
    hide GetsReady;
    hide MayFire;
    hide Meets;
    hide MayStart;
  }

  /** Each party is told once that its peer is ready, when both are committed, and is started once. */
  lemma {:induction false} ToldOnce(chain: bool, events: seq<Event>, v: View)
    requires BothRun(events) && IsParty(v)
    ensures var s := Control(chain, events);
      var (orders, st) := (multiset(Orders(s.output, v)), Of(s, v.session));
      && orders[PeerIsReady(v.session)] == (if st.ready then 1 else 0)
      && orders[Start(v.session)] == (if st.started then 1 else 0)
  {
    hide Handle;
    hide Story;
    hide Orders;
    if events == [] {
      NothingShown(v);
    } else {
      var init, last := events[..|events| - 1], events[|events| - 1];
      var s := Control(chain, init);
      BeginningsRun(chain, events);
      ToldOnce(chain, init, v);
      HandleAdds(chain, v, s, last);
      HandleStands(chain, s, last, v.session);
      ToldMore(chain, s, last, v);
    }
  }

  /** What a process is told of a session when it goes on from one standing to another. */
  predicate ToldNow(orders: seq<Command>, st: Standing, next: Standing, session: nat) {
    && (st.ready ==> next.ready) && (st.started ==> next.started)
    && multiset(orders)[PeerIsReady(session)] == (if next.ready && !st.ready then 1 else 0)
    && multiset(orders)[Start(session)] == (if next.started && !st.started then 1 else 0)
  }

  lemma ToldNothing(st: Standing, session: nat)
    ensures forall xs: seq<Command>, next: Standing ::
      next.ready == st.ready && next.started == st.started && PeerIsReady(session) !in xs && Start(session) !in xs ==>
        ToldNow(xs, st, next, session)
  {}

  lemma StartTells(chain: bool, s: State, k: nat, v: View)
    requires IsParty(v)
    ensures forall st: Standing :: st.started == (v.session in s.negotiating) ==>
      ToldNow(StartOrder(chain, s, k, v), st, AfterStart(st, k == v.session && MayStart(chain, s, k)), v.session)
  {
    hide Due;
  }

  lemma CommitTells(chain: bool, s: State, role: Role, k: nat, v: View)
    requires IsParty(v)
    ensures var e := Commits(role, k);
      ToldNow(Mandate(chain, s, e, v), Of(s, v.session), NextStanding(chain, s, e, v.session), v.session)
  {
    hide Mine;
    hide MayAnnounce;
    hide BothCommitted;
  }

  lemma OpeningTells(chain: bool, s: State, k: nat, v: View)
    requires IsParty(v)
    ensures var e := Observes(k, PublicOpen);
      ToldNow(Mandate(chain, s, e, v), Of(s, v.session), NextStanding(chain, s, e, v.session), v.session)
  {
    hide Mine;
    hide MayAnnounce;
    hide Due;
  }

  lemma FiringTells(chain: bool, s: State, index: nat, v: View)
    requires IsParty(v)
    ensures var e := Fires(index);
      ToldNow(Mandate(chain, s, e, v), Of(s, v.session), NextStanding(chain, s, e, v.session), v.session)
  {
    hide Mine;
    hide MayFire;
    hide Due;
  }

  lemma ToldMore(chain: bool, s: State, e: Event, v: View)
    requires IsParty(v)
    ensures ToldNow(Mandate(chain, s, e, v), Of(s, v.session), NextStanding(chain, s, e, v.session), v.session)
  {
    hide Mine;
    hide MayFire;
    hide Meets;
    hide Due;
    hide EndingJobs;
    hide MayAnnounce;
    hide BothCommitted;
    hide ToldNow;
    ToldNothing(Of(s, v.session), v.session);
    match e
    case Commits(role, k) => CommitTells(chain, s, role, k, v);
    case Observes(k, PublicOpen) => OpeningTells(chain, s, k, v);
    case Fires(index) => FiringTells(chain, s, index, v);
    case ChannelReady(role, k) => StartTells(chain, s.(channels := s.channels[role := k]), k, v);
    case StartRequested(k) => StartTells(chain, s, k, v);
    case Joins(_, _, _) =>
    case Ends(_, _) =>
    case Observes(_, _) =>
    case ObserverConfigured(_) =>
    case Exits(_) =>
  }

  /** On chain a panel shows a cancellation as often as the chain reports one. */
  lemma {:induction false} CancelledAsOftenAsReported(events: seq<Event>, v: View)
    requires BothRun(events)
    ensures multiset(Story(Control(true, events).output, v))[ShownCancelled] ==
      Times(events, Observes(v.session, PublicCancelled))
  {
    hide Handle;
    hide Story;
    hide Orders;
    hide Chapter;
    hide Mandate;
    if events == [] {
      NothingShown(v);
    } else {
      var init, last := events[..|events| - 1], events[|events| - 1];
      var s := Control(true, init);
      BeginningsRun(true, events);
      CancelledAsOftenAsReported(init, v);
      HandleAdds(true, v, s, last);
      OnlyDisplaysFire(init, last, v.session);
      CancelledMore(s, last, v);
    }
  }

  lemma CancelledMore(s: State, e: Event, v: View)
    requires e.Fires? && MayFire(s.jobs, e.index) && s.jobs[e.index].session == v.session ==> s.jobs[e.index].Display?
    ensures multiset(Chapter(true, s, e, v))[ShownCancelled] ==
      if e == Observes(v.session, PublicCancelled) then 1 else 0
  {
    hide NoticeDue;
    hide GetsReady;
    hide Meets;
    hide MayAnnounce;
    hide When;
    hide MayFire;
    hide Observed;
    hide Fired;
    WhenCounts();
    FiredAlone(s, v.session);
    match e
    case Observes(session, state) => ObservedCancelled(s, state, v);
    case _ =>
  }

  lemma WhenCounts()
    ensures forall c, x: Stage, y: Stage :: multiset(When(c, [x]))[y] == if c && x == y then 1 else 0
  {}

  lemma FiredAlone(s: State, session: nat)
    ensures multiset(Fired(s, Display(session)))[ShownCancelled] == 0
  {}

  lemma ObservedCancelled(s: State, state: PublicState, v: View)
    ensures multiset(Observed(s, state, v))[ShownCancelled] == if state.PublicCancelled? then 1 else 0
  {
    hide NoticeDue;
    hide MayAnnounce;
  }

  /** On chain the only timers are those of the display. */
  lemma OnlyDisplaysFire(events: seq<Event>, e: Event, session: nat)
    requires BothRun(events)
    ensures var s := Control(true, events);
      e.Fires? && MayFire(s.jobs, e.index) && s.jobs[e.index].session == session ==>
        s.jobs[e.index].Display? && session !in s.accepted
  {
    hide Control;
    hide Mine;
    hide Fine;
    var s := Control(true, events);
    SessionsStandFine(true, events, session);
    if e.Fires? && MayFire(s.jobs, e.index) && s.jobs[e.index].session == session {
      FirstOfMineFires(s, e.index, session);
      FineFired(true, Of(s, session), s.jobs[e.index], Mine(TakeJob(s, e.index).jobs, session), session);
    }
  }

  /** A settlement is shown right after its agreed amount, and no amount without. */
  predicate Paired(stages: seq<Stage>) {
    forall i :: 0 <= i < |stages| ==> PairedAt(stages, i)
  }

  predicate PairedAt(stages: seq<Stage>, i: nat)
    requires i < |stages|
  {
    && (stages[i].Agreed? ==> i + 1 < |stages| && stages[i + 1].ShownSettled?)
    && (stages[i].ShownSettled? ==> i > 0 && stages[i - 1].Agreed?)
  }

  lemma PairedAdds(a: seq<Stage>, b: seq<Stage>)
    requires Paired(a) && Paired(b)
    ensures Paired(a + b)
  {
    forall i | 0 <= i < |a + b| ensures PairedAt(a + b, i) {
      if i < |a| { assert PairedAt(a, i); } else { assert PairedAt(b, i - |a|); }
    }
  }

  lemma {:induction false} SettledAfterAgreed(events: seq<Event>, v: View)
    requires BothRun(events)
    ensures Paired(Story(Control(true, events).output, v))
  {
    hide Handle;
    hide Story;
    hide Orders;
    hide Paired;
    hide Chapter;
    hide Mandate;
    if events == [] {
      NothingShown(v);
      NothingPaired();
    } else {
      var init, last := events[..|events| - 1], events[|events| - 1];
      var s := Control(true, init);
      BeginningsRun(true, events);
      SettledAfterAgreed(init, v);
      HandleAdds(true, v, s, last);
      OnlyDisplaysFire(init, last, v.session);
      ChapterPaired(s, last, v);
      PairedAdds(Story(s.output, v), Chapter(true, s, last, v));
    }
  }

  lemma NothingPaired()
    ensures Paired([])
  {}

  lemma ChapterPaired(s: State, e: Event, v: View)
    requires e.Fires? && MayFire(s.jobs, e.index) && s.jobs[e.index].session == v.session ==> s.jobs[e.index].Display?
    ensures Paired(Chapter(true, s, e, v))
  {}

  // ---- What the observer publishes ----

  /** What a panel shows when the observer publishes this. */
  function ShownAs(state: PublicState): Stage {
    match state
    case PublicOpen => Starting
    case PublicAuthorized => ProofsComplete
    case PublicCancelled => ShownCancelled
    case PublicSettled => ShownSettled
  }

  predicate MayPublish(s: State, v: View) {
    v.session in s.observers && ObserverChild in s.connected
  }

  predicate PublishedNow(s: State, e: Event, v: View, state: PublicState) {
    var told := multiset(Mandate(false, s, e, v))[Publish(v.session, state)];
    var shown := multiset(Chapter(false, s, e, v))[ShownAs(state)];
    told <= shown && (MayPublish(s, v) ==> told == shown)
  }

  lemma PublishedMore(s: State, e: Event, v: View, state: PublicState)
    requires v.child.ObserverChild?
    requires v.session !in s.peerReady ==> v.session !in s.announced && v.session !in s.accepted
    ensures PublishedNow(s, e, v, state)
  {
    match e
    case Commits(role, k) => OpenPublished(s, role, k, v, state);
    case Fires(index) => FiringPublished(s, index, v, state);
    case Joins(_, _, _) => NothingPublished(s, e, v, state);
    case Ends(k, outcome) => NothingPublished(s, e, v, state);
    case ChannelReady(_, _) => NothingPublished(s, e, v, state);
    case StartRequested(_) => NothingPublished(s, e, v, state);
    case ObserverConfigured(_) => NothingPublished(s, e, v, state);
    case Observes(_, _) => NothingPublished(s, e, v, state);
    case Exits(_) => NothingPublished(s, e, v, state);
  }

  lemma NothingPublished(s: State, e: Event, v: View, state: PublicState)
    requires !e.Commits? && !e.Fires? && v.child.ObserverChild?
    ensures PublishedNow(s, e, v, state)
  {
    hide Mandate;
    hide Chapter;
    NothingTold(s, e, v, state);
    NothingNew(s, e, v, state);
  }

  lemma NothingTold(s: State, e: Event, v: View, state: PublicState)
    requires !e.Commits? && !e.Fires? && v.child.ObserverChild?
    ensures Publish(v.session, state) !in Mandate(false, s, e, v)
  {
    hide MayStart;
    hide Meets;
    hide Watches;
  }

  lemma NothingNew(s: State, e: Event, v: View, state: PublicState)
    requires !e.Commits? && !e.Fires?
    ensures ShownAs(state) !in Chapter(false, s, e, v)
  {
    hide NoticeDue;
    hide Meets;
  }

  lemma OpenPublished(s: State, role: Role, k: nat, v: View, state: PublicState)
    requires v.child.ObserverChild?
    requires v.session !in s.peerReady ==> v.session !in s.announced && v.session !in s.accepted
    ensures PublishedNow(s, Commits(role, k), v, state)
  {
    hide NoticeDue;
    hide BothCommitted;
  }

  lemma FiringPublished(s: State, index: nat, v: View, state: PublicState)
    requires v.child.ObserverChild?
    ensures PublishedNow(s, Fires(index), v, state)
  {
    hide Triggered;
    hide Fired;
    if MayFire(s.jobs, index) { JobPublished(s, s.jobs[index], v, state); }
  }

  lemma JobPublished(s: State, job: Job, v: View, state: PublicState)
    requires v.child.ObserverChild?
    ensures job.session == v.session ==>
      var told := multiset(Triggered(false, s, job, v))[Publish(v.session, state)];
      told == if MayPublish(s, v) then multiset(Fired(s, job))[ShownAs(state)] else 0
  {
    hide MayStart;
    if job.Display? {
      assert Publish(v.session, state) !in Triggered(false, s, job, v);
      assert ShownAs(state) !in Fired(s, job);
    }
  }

  /** An observer stays configured, and connected until it exits. */
  predicate StaysWatched(s: State, t: State) {
    s.observers <= t.observers && s.connected <= t.connected
  }

  lemma StartOnly(chain: bool, s: State, k: nat)
    ensures var t := TryStart(chain, s, k).state; t == s.(negotiating := t.negotiating, output := t.output)
  {
    hide SendParties;
    PartiesOnly(s.(negotiating := s.negotiating + {k}), Start(k));
  }

  lemma ReadyWatched(s: State, k: nat)
    requires PartiesRun(s)
    ensures StaysWatched(s, TryReady(false, s, k).state)
  {
    hide Notices;
    hide SendParties;
    hide Announce;
    hide PublishState;
    var ready := s.(peerReady := s.peerReady + {k});
    PartiesAdd(View(Buyer, BuyerChild, k), ready, PeerIsReady(k));
    PartiesOnly(ready, PeerIsReady(k));
    var u := SendParties(ready, PeerIsReady(k)).state;
    NoticesOnly(false, u, k);
    AnnounceOnly(false, Notices(false, u, k), k);
    PublishOnly(Announce(false, Notices(false, u, k), k), k, PublicOpen);
  }

  lemma JobWatched(s: State, job: Job)
    ensures StaysWatched(s, Perform(false, s, job).state)
  {
    hide ShowPair;
    hide TryStart;
    if job.Display? && job.session !in s.accepted {
      var k := job.session;
      PairOnly(s, k, Negotiating);
      var t := ShowPair(s, k, Negotiating);
      StartOnly(false, t.(displayReady := t.displayReady + {k}), k);
    } else {
      PerformOnly(false, s, job);
    }
  }

  lemma OutcomeWatched(s: State, k: nat, outcome: Outcome)
    ensures StaysWatched(s, AcceptOutcome(false, s, k, outcome))
  {
    hide ShowPair;
    if k in s.negotiating && k !in s.accepted { OutcomeOnly(false, s, k, outcome); }
  }

  lemma ObserversStay(s: State, e: Event)
    requires PartiesRun(s)
    ensures e.Exits? || StaysWatched(s, Handle(false, s, e).state)
  {
    hide TryMatch;
    hide TryReady;
    hide AcceptOutcome;
    hide TryStart;
    hide Perform;
    match e
    case Joins(role, k, productCode) =>
      var t := s.(rooms := s.rooms[role := Room(k, productCode)], commitments := s.commitments - {role});
      MatchOnly(false, t, k);
      MatchOnly(false, ShowOne(t, role, k, WaitingPeer), k);
    case Commits(role, k) => ReadyWatched(s.(commitments := s.commitments[role := k]), k);
    case ChannelReady(role, k) => StartOnly(false, s.(channels := s.channels[role := k]), k);
    case StartRequested(k) => StartOnly(false, s, k);
    case Ends(k, outcome) => OutcomeWatched(s, k, outcome);
    case Fires(index) => if MayFire(s.jobs, index) { JobWatched(TakeJob(s, index), s.jobs[index]); }
    case Observes(_, _) =>
    case ObserverConfigured(_) =>
    case Exits(_) =>
  }

  /** How often the observer was told to publish a state, and how often the panel has shown it. */
  function Published(s: State, v: View, state: PublicState): (nat, nat) {
    (multiset(Orders(s.output, v))[Publish(v.session, state)], multiset(Story(s.output, v))[ShownAs(state)])
  }

  /** Between two states the observer was told to publish only what was shown, and all of it while configured. */
  predicate PublishedBetween(s: State, t: State, v: View, state: PublicState) {
    var ((told, shown), (told', shown')) := (Published(s, v, state), Published(t, v, state));
    told' + shown <= told + shown' && (MayPublish(s, v) ==> told' + shown == told + shown')
  }

  lemma PublishedStep(events: seq<Event>, v: View, state: PublicState)
    requires BothRun(events) && events != [] && v.child.ObserverChild?
    ensures PublishedBetween(Control(false, events[..|events| - 1]), Control(false, events), v, state)
    ensures !events[|events| - 1].Exits? && MayPublish(Control(false, events[..|events| - 1]), v) ==>
      MayPublish(Control(false, events), v)
  {
    hide Handle;
    hide Story;
    hide Orders;
    hide Chapter;
    hide Mandate;
    hide ShownAs;
    var init, last := events[..|events| - 1], events[|events| - 1];
    var s := Control(false, init);
    assert Control(false, events) == Handle(false, s, last).state;
    hide Control;
    BeginningsRun(false, events);
    NoneAnnounced(init, v.session);
    HandleAdds(false, v, s, last);
    PublishedMore(s, last, v, state);
    ObserversStay(s, last);
  }

  lemma NoneAnnounced(events: seq<Event>, session: nat)
    requires BothRun(events)
    ensures var s := Control(false, events);
      session !in s.peerReady ==> session !in s.announced && session !in s.accepted
  {
    hide Control;
    hide Mine;
    SessionsStandFine(false, events, session);
    ControlKeeps(false, events);
  }

  /** Without a chain the observer is never told to publish what the panel has not shown. */
  lemma {:induction false} PublishedIfShown(events: seq<Event>, v: View, state: PublicState)
    requires BothRun(events) && v.child.ObserverChild?
    ensures PublishedBetween(STARTED, Control(false, events), v, state)
  {
    hide Control;
    hide Published;
    hide MayPublish;
    NothingPublishedYet(v, state);
    if events != [] {
      var init := events[..|events| - 1];
      BeginningsRun(false, events);
      PublishedIfShown(init, v, state);
      PublishedStep(events, v, state);
    }
  }

  lemma NothingPublishedYet(v: View, state: PublicState)
    ensures Control(false, []) == STARTED && Published(STARTED, v, state) == (0, 0) && !MayPublish(STARTED, v)
  {}

  /** From the moment the observer is configured, and while it runs, it is told to publish all that is shown. */
  lemma {:induction false} PublishedAsShown(a: seq<Event>, b: seq<Event>, v: View, state: PublicState)
    requires BothRun(a + b) && v.child.ObserverChild? && Exits(ObserverChild) !in b
    requires MayPublish(Control(false, a), v)
    ensures PublishedBetween(Control(false, a), Control(false, a + b), v, state)
    ensures MayPublish(Control(false, a + b), v)
  {
    hide Control;
    hide Published;
    if b == [] {
      assert a + b == a;
    } else {
      var all, init := a + b, b[..|b| - 1];
      assert all[..|all| - 1] == a + init && all[|all| - 1] == b[|b| - 1];
      var last := b[|b| - 1];
      assert last in all && last in b;
      assert last != Exits(BuyerChild) && last != Exits(SellerChild) && last != Exits(ObserverChild);
      BeginningsRun(false, all);
      PublishedAsShown(a, init, v, state);
      PublishedStep(all, v, state);
    }
  }
}
