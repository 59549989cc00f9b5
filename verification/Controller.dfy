/** The controller that starts the runtimes and shows their progress: first as a function of its
    events, with what holds after any of them, then as the object that updates its maps and sets.
    Timers are steps that happen some time later. Those of one session fire in the order in which they
    are listed, which is that of their delays; those of different sessions in any order. */
module Controller {
  import opened Pricing
  import opened Runtimes

  datatype Child = BuyerChild | SellerChild | ObserverChild

  datatype PublicState = PublicOpen | PublicAuthorized | PublicSettled | PublicCancelled

  datatype Stage =
    | WaitingPeer | PeerJoined | PeerCommitment | Starting | Negotiating | Complete | Verifying | ProofsComplete
    | Finalizing | ShownCancelled | ShownSettled
    | Agreed(amount: int)

  /** On the wire a start command does not name its session; the model notes which one it is for. */
  datatype Command =
    | Configure(session: nat) | PeerIsReady(session: nat) | Start(session: nat)
    | Publish(session: nat, state: PublicState) | Finalize(session: nat)

  datatype Output = Show(panel: Role, session: nat, stage: Stage) | Tell(target: Child, command: Command)

  /** What a timer will do. */
  datatype Job =
    | Display(session: nat) | ShowCancellation(session: nat) | ShowVerifying(session: nat) | ShowProofs(session: nat)
    | ShowAgreed(session: nat, amount: int) | ShowSettlement(session: nat)

  datatype Event =
    | Joins(role: Role, session: nat, productCode: nat)
    | Commits(role: Role, session: nat)
    | ChannelReady(role: Role, session: nat)
    | Ends(session: nat, outcome: Outcome)
    | Observes(session: nat, state: PublicState)
    | ObserverConfigured(session: nat)
    | StartRequested(session: nat)
    | Fires(index: nat)
    | Exits(child: Child)

  /** `accepted` has the outcome of every finished session. */
  datatype State = State(
    rooms: map<Role, Room>, channels: map<Role, nat>, commitments: map<Role, nat>, notices: set<(Role, nat)>,
    peerReady: set<nat>, observers: set<nat>, chainOpen: set<nat>, chainAuthorized: set<nat>, pending: map<nat, int>,
    announced: set<nat>, displayReady: set<nat>, negotiating: set<nat>, accepted: map<nat, Outcome>,
    jobs: seq<Job>, connected: set<Child>, output: seq<Output>)

  const STARTED: State :=
    State(map[], map[], map[], {}, {}, {}, {}, {}, map[], {}, {}, {}, map[], [],
      {BuyerChild, SellerChild, ObserverChild}, [])

  /** A handler that throws leaves the state as it is at that point. */
  datatype Step = Step(state: State, ok: bool)

  function ShowOne(s: State, panel: Role, session: nat, stage: Stage): State {
    s.(output := s.output + [Show(panel, session, stage)])
  }

  function ShowPair(s: State, session: nat, stage: Stage): State {
    ShowOne(ShowOne(s, Buyer, session, stage), Seller, session, stage)
  }

  function SendTo(s: State, target: Child, command: Command): Step {
    if target in s.connected then Step(s.(output := s.output + [Tell(target, command)]), true) else Step(s, false)
  }

  function SendParties(s: State, command: Command): Step {
    var first := SendTo(s, BuyerChild, command);
    if first.ok then SendTo(first.state, SellerChild, command) else first
  }

  function PublishState(s: State, session: nat, state: PublicState): Step {
    if session in s.observers then SendTo(s, ObserverChild, Publish(session, state)) else Step(s, true)
  }

  predicate Holds(m: map<Role, nat>, role: Role, session: nat) {
    role in m && m[role] == session
  }

  function Notice(chain: bool, s: State, role: Role, session: nat): State {
    if !Holds(s.commitments, Opposite(role), session) || (role, session) in s.notices ||
       (chain && session !in s.chainOpen) then s
    else ShowOne(s.(notices := s.notices + {(role, session)}), role, session, PeerCommitment)
  }

  function Notices(chain: bool, s: State, session: nat): State {
    Notice(chain, Notice(chain, s, Buyer, session), Seller, session)
  }

  function Announce(chain: bool, s: State, session: nat): State {
    if session in s.announced || session in s.accepted || (chain && session !in s.chainOpen) then s
    else
      var t := ShowPair(s.(announced := s.announced + {session}), session, Starting);
      t.(jobs := t.jobs + [Display(session)])
  }

  /** Everything a start waits for. */
  predicate Due(chain: bool, s: State, session: nat) {
    && session in s.peerReady && session in s.displayReady && (chain ==> session in s.chainOpen)
    && Holds(s.channels, Buyer, session) && Holds(s.channels, Seller, session)
  }

  function TryStart(chain: bool, s: State, session: nat): Step {
    if !Due(chain, s, session) || session in s.negotiating || session in s.accepted then Step(s, true)
    else SendParties(s.(negotiating := s.negotiating + {session}), Start(session))
  }

  function ConfigureObserver(s: State, session: nat): Step {
    var t := SendTo(s, ObserverChild, Configure(session));
    if t.ok then Step(t.state.(observers := t.state.observers + {session}), true) else t
  }

  function TryMatch(chain: bool, s: State, session: nat): Step {
    if Buyer !in s.rooms || Seller !in s.rooms || s.rooms[Buyer].sessionId != session ||
       s.rooms[Seller] != s.rooms[Buyer]
    then Step(s, true)
    else
      var t := Notices(chain, ShowPair(s, session, PeerJoined), session);
      if session in t.observers then Step(t, true) else ConfigureObserver(t, session)
  }

  function TryReady(chain: bool, s: State, session: nat): Step {
    if !Holds(s.commitments, Buyer, session) || !Holds(s.commitments, Seller, session) || session in s.peerReady
    then Step(s, true)
    else
      var t := SendParties(s.(peerReady := s.peerReady + {session}), PeerIsReady(session));
      if !t.ok then t
      else
        var u := Announce(chain, Notices(chain, t.state, session), session);
        if chain then Step(u, true) else PublishState(u, session, PublicOpen)
  }

  function AcceptJoin(chain: bool, s: State, role: Role, session: nat, productCode: nat): Step {
    var room := Room(session, productCode);
    var t := s.(rooms := s.rooms[role := room], commitments := s.commitments - {role});
    var alone := Opposite(role) !in t.rooms || t.rooms[Opposite(role)] != room;
    TryMatch(chain, if alone then ShowOne(t, role, session, WaitingPeer) else t, session)
  }

  function AcceptCommitment(chain: bool, s: State, role: Role, session: nat): Step {
    TryReady(chain, s.(commitments := s.commitments[role := session]), session)
  }

  function AcceptChannel(chain: bool, s: State, role: Role, session: nat): Step {
    TryStart(chain, s.(channels := s.channels[role := session]), session)
  }

  /** The four displays that follow a settlement off chain. */
  function SettlementJobs(session: nat, amount: int): seq<Job> {
    [ShowVerifying(session), ShowProofs(session), ShowAgreed(session, amount), ShowSettlement(session)]
  }

  /** Only the first outcome of a session that was started counts. */
  function AcceptOutcome(chain: bool, s: State, session: nat, outcome: Outcome): State {
    if session !in s.negotiating || session in s.accepted then s
    else
      var t := ShowPair(s.(accepted := s.accepted[session := outcome]), session, Complete);
      match outcome
      case Cancelled =>
        if chain then ShowPair(t, session, Finalizing) else t.(jobs := t.jobs + [ShowCancellation(session)])
      case Settled(amount) =>
        if chain then ShowPair(t.(pending := t.pending[session := amount]), session, Verifying)
        else t.(jobs := t.jobs + SettlementJobs(session, amount))
  }

  function Authorized(s: State, session: nat): State {
    var t := s.(chainAuthorized := s.chainAuthorized + {session});
    ShowPair(ShowPair(t, session, ProofsComplete), session, Finalizing)
  }

  function AcceptObservation(chain: bool, s: State, session: nat, state: PublicState): Step {
    if !chain then Step(s, true)
    else match state
      case PublicOpen =>
        var t := s.(chainOpen := s.chainOpen + {session});
        var u := if session in t.peerReady then Announce(chain, Notices(chain, t, session), session) else t;
        TryStart(chain, u, session)
      case PublicAuthorized => Step(Authorized(s, session), true)
      case PublicCancelled =>
        var t := SendParties(s.(pending := s.pending - {session}), Finalize(session));
        if t.ok then Step(ShowPair(t.state, session, ShownCancelled), true) else t
      case PublicSettled =>
        if session !in s.pending then Step(s, false)
        else
          var t := if session in s.chainAuthorized then s else Authorized(s, session);
          var u := ShowPair(ShowPair(t, session, Agreed(s.pending[session])), session, ShownSettled);
          SendParties(u.(pending := u.pending - {session}), Finalize(session))
  }

  function Perform(chain: bool, s: State, job: Job): Step {
    match job
    case Display(session) =>
      if session in s.accepted then Step(s, true)
      else
        var t := ShowPair(s, session, Negotiating);
        TryStart(chain, t.(displayReady := t.displayReady + {session}), session)
    case ShowCancellation(session) => PublishState(ShowPair(s, session, ShownCancelled), session, PublicCancelled)
    case ShowVerifying(session) => Step(ShowPair(s, session, Verifying), true)
    case ShowProofs(session) => PublishState(ShowPair(s, session, ProofsComplete), session, PublicAuthorized)
    case ShowAgreed(session, amount) => Step(ShowPair(s, session, Agreed(amount)), true)
    case ShowSettlement(session) => PublishState(ShowPair(s, session, ShownSettled), session, PublicSettled)
  }

  /** No timer of the same session is due earlier. */
  predicate MayFire(jobs: seq<Job>, index: nat) {
    index < |jobs| && forall j :: 0 <= j < index ==> jobs[j].session != jobs[index].session
  }

  function TakeJob(s: State, index: nat): State
    requires index < |s.jobs|
  {
    s.(jobs := s.jobs[..index] + s.jobs[index + 1..])
  }

  function Handle(chain: bool, s: State, e: Event): Step {
    match e
    case Joins(role, session, productCode) => AcceptJoin(chain, s, role, session, productCode)
    case Commits(role, session) => AcceptCommitment(chain, s, role, session)
    case ChannelReady(role, session) => AcceptChannel(chain, s, role, session)
    case Ends(session, outcome) => Step(AcceptOutcome(chain, s, session, outcome), true)
    case Observes(session, state) => AcceptObservation(chain, s, session, state)
    case ObserverConfigured(session) => ConfigureObserver(s, session)
    case StartRequested(session) => TryStart(chain, s, session)
    case Fires(index) =>
      if MayFire(s.jobs, index) then Perform(chain, TakeJob(s, index), s.jobs[index]) else Step(s, true)
    case Exits(child) => Step(s.(connected := s.connected - {child}), true)
  }

  function Control(chain: bool, events: seq<Event>): State {
    if events == [] then STARTED
    else Handle(chain, Control(chain, events[..|events| - 1]), events[|events| - 1]).state
  }

  // ---- Counting what went out ----

  /** How often this child was told to start this session. */
  function Starts(output: seq<Output>, child: Child, session: nat): nat {
    if output == [] then 0
    else Starts(output[..|output| - 1], child, session) + StartOf(output[|output| - 1], child, session)
  }

  /** The amounts shown as agreed on a panel. */
  function Shown(output: seq<Output>, panel: Role, session: nat): seq<int> {
    if output == [] then []
    else Shown(output[..|output| - 1], panel, session) + AmountOf(output[|output| - 1], panel, session)
  }

  /** The amounts that timers will still show. */
  function Scheduled(jobs: seq<Job>, session: nat): seq<int> {
    if jobs == [] then []
    else
      var job := jobs[|jobs| - 1];
      Scheduled(jobs[..|jobs| - 1], session) + if job.ShowAgreed? && job.session == session then [job.amount] else []
  }

  function Awaited(pending: map<nat, int>, session: nat): seq<int> {
    if session in pending then [pending[session]] else []
  }

  function StartOf(o: Output, child: Child, session: nat): nat {
    if o == Tell(child, Start(session)) then 1 else 0
  }

  function StartTold(child: Child, session: nat, other: nat): nat {
    if other == session && child != ObserverChild then 1 else 0
  }

  function AmountOf(o: Output, panel: Role, session: nat): seq<int> {
    if o.Show? && o.panel == panel && o.session == session && o.stage.Agreed? then [o.stage.amount] else []
  }

  lemma OutputGrows(output: seq<Output>, o: Output)
    ensures forall child, session ::
      Starts(output + [o], child, session) == Starts(output, child, session) + StartOf(o, child, session)
    ensures forall panel, session ::
      Shown(output + [o], panel, session) == Shown(output, panel, session) + AmountOf(o, panel, session)
  {
    assert (output + [o])[..|output|] == output;
  }

  lemma {:induction false} ScheduledSplits(a: seq<Job>, b: seq<Job>, session: nat)
    ensures Scheduled(a + b, session) == Scheduled(a, session) + Scheduled(b, session)
  {
    if b == [] {
      assert a + b == a;
    } else {
      assert (a + b)[..|a + b| - 1] == a + b[..|b| - 1];
      ScheduledSplits(a, b[..|b| - 1], session);
    }
  }

  // ---- The invariant ----

  /** What must have happened before a session may be started. */
  predicate Justified(chain: bool, events: seq<Event>, session: nat) {
    && Commits(Buyer, session) in events && Commits(Seller, session) in events
    && ChannelReady(Buyer, session) in events && ChannelReady(Seller, session) in events
    && (chain ==> Observes(session, PublicOpen) in events)
  }

  predicate Past(chain: bool, events: seq<Event>, s: State) {
    && (forall role <- s.commitments :: Commits(role, s.commitments[role]) in events)
    && (forall role <- s.channels :: ChannelReady(role, s.channels[role]) in events)
    && (forall session <- s.peerReady :: Commits(Buyer, session) in events && Commits(Seller, session) in events)
    && (forall session <- s.chainOpen :: Observes(session, PublicOpen) in events)
    && (forall session <- s.negotiating :: Justified(chain, events, session))
    && (forall session <- s.accepted :: Ends(session, s.accepted[session]) in events)
  }

  /** The order of the stages; a shown negotiation is displayed, about to be, or over. */
  predicate Stages(s: State) {
    && s.accepted.Keys <= s.negotiating && s.displayReady <= s.announced <= s.peerReady
    && (forall job <- s.jobs :: job.Display? ==> job.session in s.announced)
    && (forall session <- s.announced ::
          session in s.displayReady || session in s.accepted || Display(session) in s.jobs)
  }

  /** Started at most once, and only when negotiating. */
  ghost predicate StartedOnce(s: State) {
    forall child, session :: Starts(s.output, child, session) <= if session in s.negotiating then 1 else 0
  }

  /** Both parties are still running. */
  predicate BothRun(events: seq<Event>) {
    Exits(BuyerChild) !in events && Exits(SellerChild) !in events
  }

  /** While both parties run, every negotiating session has been started on both sides. */
  ghost predicate StartsSent(events: seq<Event>, s: State) {
    BothRun(events) ==>
      && {BuyerChild, SellerChild} <= s.connected
      && forall session <- s.negotiating ::
           Starts(s.output, BuyerChild, session) == 1 && Starts(s.output, SellerChild, session) == 1
  }

  /** No start is lost: whatever came last, a session that has everything is started. */
  predicate NoneLost(chain: bool, s: State, except: Option<nat>) {
    forall session <- s.peerReady :: Due(chain, s, session) ==> session in s.negotiating || Some(session) == except
  }

  /** An accepted settlement is shown once on both panels, with its amount: now or later, or, on
      chain, not at all when the deal is cancelled there. */
  predicate ShownRightly(events: seq<Event>, s: State, session: nat) {
    var all := Shown(s.output, Buyer, session) + Scheduled(s.jobs, session) + Awaited(s.pending, session);
    && Shown(s.output, Seller, session) == Shown(s.output, Buyer, session)
    && (if session in s.accepted && s.accepted[session].Settled?
        then all == [s.accepted[session].amount] || (all == [] && Observes(session, PublicCancelled) in events)
        else all == [])
  }

  ghost predicate AllShownRightly(events: seq<Event>, s: State) {
    forall session :: ShownRightly(events, s, session)
  }

  ghost predicate Inv(chain: bool, events: seq<Event>, s: State, except: Option<nat>) {
    && Past(chain, events, s) && Stages(s) && StartedOnce(s) && StartsSent(events, s) && AllShownRightly(events, s)
    && NoneLost(chain, s, except)
  }

  lemma StartedInv(chain: bool)
    ensures Inv(chain, [], STARTED, None)
  {}

  lemma TimeGoesOn(chain: bool, events: seq<Event>, e: Event, s: State)
    requires Inv(chain, events, s, None)
    ensures Inv(chain, events + [e], s, None)
  {
    hide Shown;
    hide Scheduled;
    hide StartedOnce;
    hide Stages;
    hide NoneLost;
    assert forall f <- events :: f in events + [e];
    forall session ensures ShownRightly(events + [e], s, session) { assert ShownRightly(events, s, session); }
  }

  /** Nothing but a start or an agreed amount on an output matters. */
  lemma OutputKeeps(chain: bool, events: seq<Event>, s: State, o: Output, except: Option<nat>)
    requires Inv(chain, events, s, except)
    requires if o.Show? then !o.stage.Agreed? else !o.command.Start?
    ensures Inv(chain, events, s.(output := s.output + [o]), except)
  {
    hide Starts;
    hide Shown;
    hide Scheduled;
    OutputGrows(s.output, o);
    var t := s.(output := s.output + [o]);
    assert StartedOnce(t) by {
      forall child, session ensures Starts(t.output, child, session) <= if session in t.negotiating then 1 else 0 {
        assert StartOf(o, child, session) == 0;
      }
    }
    forall session ensures ShownRightly(events, t, session) { assert ShownRightly(events, s, session); }
  }

  lemma ShowKeeps(chain: bool, events: seq<Event>, s: State, session: nat, stage: Stage, except: Option<nat>)
    requires Inv(chain, events, s, except) && !stage.Agreed?
    ensures forall panel :: Inv(chain, events, ShowOne(s, panel, session, stage), except)
    ensures Inv(chain, events, ShowPair(s, session, stage), except)
  {
    hide Inv;
    forall panel ensures Inv(chain, events, ShowOne(s, panel, session, stage), except) {
      OutputKeeps(chain, events, s, Show(panel, session, stage), except);
    }
    OutputKeeps(chain, events, ShowOne(s, Buyer, session, stage), Show(Seller, session, stage), except);
  }

  lemma SendKeeps(chain: bool, events: seq<Event>, s: State, command: Command, except: Option<nat>)
    requires Inv(chain, events, s, except) && !command.Start?
    ensures forall target :: Inv(chain, events, SendTo(s, target, command).state, except)
    ensures Inv(chain, events, SendParties(s, command).state, except)
  {
    hide Inv;
    forall target ensures Inv(chain, events, SendTo(s, target, command).state, except) {
      OutputKeeps(chain, events, s, Tell(target, command), except);
    }
    OutputKeeps(chain, events, SendTo(s, BuyerChild, command).state, Tell(SellerChild, command), except);
  }

  /** Fields the invariant does not speak of. */
  lemma OtherFields(chain: bool, events: seq<Event>, s: State, t: State, except: Option<nat>)
    requires Inv(chain, events, s, except)
    requires t == s.(rooms := t.rooms, notices := t.notices, observers := t.observers,
                     chainAuthorized := t.chainAuthorized, connected := t.connected)
    requires BothRun(events) ==> s.connected - {ObserverChild} <= t.connected
    ensures Inv(chain, events, t, except)
  {
    hide Starts;
    hide Shown;
    hide Scheduled;
    forall session ensures ShownRightly(events, t, session) { assert ShownRightly(events, s, session); }
  }

  lemma NoticesKeep(chain: bool, events: seq<Event>, s: State, session: nat, except: Option<nat>)
    requires Inv(chain, events, s, except)
    ensures Inv(chain, events, Notices(chain, s, session), except)
  {
    hide Inv;
    NoticeKeeps(chain, events, s, Buyer, session, except);
    NoticeKeeps(chain, events, Notice(chain, s, Buyer, session), Seller, session, except);
  }

  lemma NoticeKeeps(chain: bool, events: seq<Event>, s: State, role: Role, session: nat, except: Option<nat>)
    requires Inv(chain, events, s, except)
    ensures Inv(chain, events, Notice(chain, s, role, session), except)
  {
    hide Inv;
    var t := s.(notices := s.notices + {(role, session)});
    OtherFields(chain, events, s, t, except);
    ShowKeeps(chain, events, t, session, PeerCommitment, except);
  }

  lemma NoticesOnly(chain: bool, s: State, session: nat)
    ensures var t := Notices(chain, s, session); t == s.(notices := t.notices, output := t.output)
  {
    hide Notice;
    NoticeOnly(chain, s, Buyer, session);
    NoticeOnly(chain, Notice(chain, s, Buyer, session), Seller, session);
  }

  lemma NoticeOnly(chain: bool, s: State, role: Role, session: nat)
    ensures var t := Notice(chain, s, role, session); t == s.(notices := t.notices, output := t.output)
  {}

  lemma AnnounceKeeps(chain: bool, events: seq<Event>, s: State, session: nat, except: Option<nat>)
    requires Inv(chain, events, s, except) && session in s.peerReady
    ensures Inv(chain, events, Announce(chain, s, session), except)
  {
    hide Inv;
    if !(session in s.announced || session in s.accepted || (chain && session !in s.chainOpen)) {
      DisplayIsScheduled(chain, events, s, session, except);
      var t := s.(announced := s.announced + {session}, jobs := s.jobs + [Display(session)]);
      ShowKeeps(chain, events, t, session, Starting, except);
    }
  }

  lemma DisplayIsScheduled(chain: bool, events: seq<Event>, s: State, session: nat, except: Option<nat>)
    requires Inv(chain, events, s, except) && session in s.peerReady
    ensures Inv(chain, events, s.(announced := s.announced + {session}, jobs := s.jobs + [Display(session)]), except)
  {
    hide Starts;
    hide Shown;
    hide Scheduled;
    var t := s.(announced := s.announced + {session}, jobs := s.jobs + [Display(session)]);
    forall other ensures ShownRightly(events, t, other) {
      assert ShownRightly(events, s, other);
      OneMoreJob(s.jobs, Display(session), other);
    }
    assert Display(session) in t.jobs && forall job <- s.jobs :: job in t.jobs;
  }

  lemma OneMoreJob(jobs: seq<Job>, job: Job, session: nat)
    ensures Scheduled(jobs + [job], session) ==
            Scheduled(jobs, session) + (if job.ShowAgreed? && job.session == session then [job.amount] else [])
  {
    assert (jobs + [job])[..|jobs|] == jobs;
  }

  lemma StartOutputs(s: State, session: nat)
    ensures var t := SendParties(s, Start(session)).state;
      && t == s.(output := t.output)
      && (forall panel, other :: Shown(t.output, panel, other) == Shown(s.output, panel, other))
      && (forall child, other ::
            Starts(t.output, child, other) <= Starts(s.output, child, other) + if other == session then 1 else 0)
      && ({BuyerChild, SellerChild} <= s.connected ==>
            forall child, other ::
              Starts(t.output, child, other) == Starts(s.output, child, other) + StartTold(child, session, other))
  {
    hide Starts;
    hide Shown;
    OutputGrows(s.output, Tell(BuyerChild, Start(session)));
    OutputGrows(s.output + [Tell(BuyerChild, Start(session))], Tell(SellerChild, Start(session)));
  }

  /** The start itself: all conditions are met, so it is justified, and it is the first. */
  lemma TryStartKeeps(chain: bool, events: seq<Event>, s: State, session: nat)
    requires Inv(chain, events, s, Some(session))
    ensures Inv(chain, events, TryStart(chain, s, session).state, None)
  {
    hide Starts;
    hide Shown;
    hide Scheduled;
    hide SendParties;
    if Due(chain, s, session) && session !in s.negotiating {
      StartOutputs(s.(negotiating := s.negotiating + {session}), session);
      var u := TryStart(chain, s, session).state;
      forall child, other ensures Starts(u.output, child, other) <= if other in u.negotiating then 1 else 0 {
        assert Starts(s.output, child, other) <= if other in s.negotiating then 1 else 0;
      }
      forall other ensures ShownRightly(events, u, other) { assert ShownRightly(events, s, other); }
    }
  }

  // ---- Every event ----

  lemma MatchKeeps(chain: bool, events: seq<Event>, s: State, session: nat)
    requires Inv(chain, events, s, None)
    ensures Inv(chain, events, TryMatch(chain, s, session).state, None)
  {
    hide Inv;
    ShowKeeps(chain, events, s, session, PeerJoined, None);
    var t := ShowPair(s, session, PeerJoined);
    NoticesKeep(chain, events, t, session, None);
    ConfigureKeeps(chain, events, Notices(chain, t, session), session);
  }

  lemma ConfigureKeeps(chain: bool, events: seq<Event>, s: State, session: nat)
    requires Inv(chain, events, s, None)
    ensures Inv(chain, events, ConfigureObserver(s, session).state, None)
  {
    hide Inv;
    SendKeeps(chain, events, s, Configure(session), None);
    var t := SendTo(s, ObserverChild, Configure(session)).state;
    OtherFields(chain, events, t, t.(observers := t.observers + {session}), None);
  }

  lemma JoinKeeps(chain: bool, events: seq<Event>, s: State, role: Role, session: nat, productCode: nat)
    requires Inv(chain, events, s, None)
    ensures Inv(chain, events, AcceptJoin(chain, s, role, session, productCode).state, None)
  {
    var t := s.(commitments := s.commitments - {role});
    assert Inv(chain, events, t, None) by {
      hide Starts;
      hide Shown;
      hide Scheduled;
      forall other ensures ShownRightly(events, t, other) { assert ShownRightly(events, s, other); }
    }
    hide Inv;
    var u := t.(rooms := t.rooms[role := Room(session, productCode)]);
    OtherFields(chain, events, t, u, None);
    ShowKeeps(chain, events, u, session, WaitingPeer, None);
    MatchKeeps(chain, events, u, session);
    MatchKeeps(chain, events, ShowOne(u, role, session, WaitingPeer), session);
  }

  lemma PublishKeeps(chain: bool, events: seq<Event>, s: State, session: nat, state: PublicState)
    requires Inv(chain, events, s, None)
    ensures Inv(chain, events, PublishState(s, session, state).state, None)
  {
    hide Inv;
    SendKeeps(chain, events, s, Publish(session, state), None);
  }

  lemma PeersReadyKeeps(chain: bool, events: seq<Event>, s: State, session: nat)
    requires Inv(chain, events, s, None)
    requires Holds(s.commitments, Buyer, session) && Holds(s.commitments, Seller, session)
    ensures Inv(chain, events, s.(peerReady := s.peerReady + {session}), None)
  {
    hide Starts;
    hide Shown;
    hide Scheduled;
    var t := s.(peerReady := s.peerReady + {session});
    forall other ensures ShownRightly(events, t, other) { assert ShownRightly(events, s, other); }
  }

  lemma ReadyKeeps(chain: bool, events: seq<Event>, s: State, session: nat)
    requires Inv(chain, events, s, None)
    ensures Inv(chain, events, TryReady(chain, s, session).state, None)
  {
    if Holds(s.commitments, Buyer, session) && Holds(s.commitments, Seller, session) && session !in s.peerReady {
      var t := s.(peerReady := s.peerReady + {session});
      PeersReadyKeeps(chain, events, s, session);
      hide Inv;
      SendKeeps(chain, events, t, PeerIsReady(session), None);
      var u := SendParties(t, PeerIsReady(session)).state;
      NoticesKeep(chain, events, u, session, None);
      NoticesOnly(chain, u, session);
      AnnounceKeeps(chain, events, Notices(chain, u, session), session, None);
      PublishKeeps(chain, events, Announce(chain, Notices(chain, u, session), session), session, PublicOpen);
    }
  }

  lemma CommitmentKeeps(chain: bool, events: seq<Event>, s: State, role: Role, session: nat)
    requires Inv(chain, events, s, None) && Commits(role, session) in events
    ensures Inv(chain, events, AcceptCommitment(chain, s, role, session).state, None)
  {
    var t := s.(commitments := s.commitments[role := session]);
    assert Inv(chain, events, t, None) by {
      hide Starts;
      hide Shown;
      hide Scheduled;
      forall other ensures ShownRightly(events, t, other) { assert ShownRightly(events, s, other); }
    }
    ReadyKeeps(chain, events, t, session);
  }

  lemma ChannelKeeps(chain: bool, events: seq<Event>, s: State, role: Role, session: nat)
    requires Inv(chain, events, s, None) && ChannelReady(role, session) in events
    ensures Inv(chain, events, AcceptChannel(chain, s, role, session).state, None)
  {
    var t := s.(channels := s.channels[role := session]);
    assert Inv(chain, events, t, Some(session)) by {
      hide Starts;
      hide Shown;
      hide Scheduled;
      forall other ensures ShownRightly(events, t, other) { assert ShownRightly(events, s, other); }
    }
    TryStartKeeps(chain, events, t, session);
  }

  /** Announcing is not displaying, so it makes nothing due. */
  lemma OpenKeeps(chain: bool, events: seq<Event>, s: State, session: nat)
    requires Inv(chain, events, s, None) && Observes(session, PublicOpen) in events
    ensures Inv(chain, events, AcceptObservation(chain, s, session, PublicOpen).state, None)
  {
    if chain {
      var t := s.(chainOpen := s.chainOpen + {session});
      assert Inv(chain, events, t, Some(session)) by {
        hide Starts;
        hide Shown;
        hide Scheduled;
        forall other ensures ShownRightly(events, t, other) { assert ShownRightly(events, s, other); }
        forall other | other in t.peerReady && Due(chain, t, other) && other != session ensures other in t.negotiating {
          assert Due(chain, s, other);
        }
      }
      hide Inv;
      NoticesKeep(chain, events, t, session, Some(session));
      NoticesOnly(chain, t, session);
      if session in t.peerReady { AnnounceKeeps(chain, events, Notices(chain, t, session), session, Some(session)); }
      var u := if session in t.peerReady then Announce(chain, Notices(chain, t, session), session) else t;
      TryStartKeeps(chain, events, u, session);
    }
  }

  lemma AuthorizedKeeps(chain: bool, events: seq<Event>, s: State, session: nat)
    requires Inv(chain, events, s, None)
    ensures Inv(chain, events, Authorized(s, session), None)
  {
    hide Inv;
    var t := s.(chainAuthorized := s.chainAuthorized + {session});
    OtherFields(chain, events, s, t, None);
    ShowKeeps(chain, events, t, session, ProofsComplete, None);
    ShowKeeps(chain, events, ShowPair(t, session, ProofsComplete), session, Finalizing, None);
  }

  /** What the chain has cancelled is no longer awaited. */
  lemma ForgettingKeeps(chain: bool, events: seq<Event>, s: State, session: nat)
    requires Inv(chain, events, s, None) && Observes(session, PublicCancelled) in events
    ensures Inv(chain, events, s.(pending := s.pending - {session}), None)
  {
    hide Starts;
    hide Shown;
    hide Scheduled;
    hide ShownRightly;
    var t := s.(pending := s.pending - {session});
    forall other ensures ShownRightly(events, t, other) {
      assert ShownRightly(events, s, other);
      ForgettingShows(events, s, session, other);
    }
  }

  lemma ForgettingShows(events: seq<Event>, s: State, session: nat, other: nat)
    requires ShownRightly(events, s, other) && Observes(session, PublicCancelled) in events
    ensures ShownRightly(events, s.(pending := s.pending - {session}), other)
  {
    hide Shown;
    hide Scheduled;
  }

  lemma CancellationKeeps(chain: bool, events: seq<Event>, s: State, session: nat)
    requires Inv(chain, events, s, None) && Observes(session, PublicCancelled) in events
    ensures Inv(chain, events, AcceptObservation(chain, s, session, PublicCancelled).state, None)
  {
    hide Inv;
    hide ShowPair;
    hide SendParties;
    if chain {
      var t := s.(pending := s.pending - {session});
      ForgettingKeeps(chain, events, s, session);
      SendKeeps(chain, events, t, Finalize(session), None);
      ShowKeeps(chain, events, SendParties(t, Finalize(session)).state, session, ShownCancelled, None);
    }
  }

  /** An awaited or scheduled amount moves to the panels. */
  lemma AgreedKeeps(chain: bool, events: seq<Event>, s: State, t: State, session: nat, amount: int)
    requires Inv(chain, events, s, None)
    requires t == s.(jobs := t.jobs, pending := t.pending) && forall job <- t.jobs :: job in s.jobs
    requires forall job <- s.jobs :: job.Display? && job.session !in s.accepted ==> job in t.jobs
    requires forall other :: other != session ==>
      Scheduled(t.jobs, other) + Awaited(t.pending, other) == Scheduled(s.jobs, other) + Awaited(s.pending, other)
    requires Scheduled(s.jobs, session) + Awaited(s.pending, session) == [amount]
    requires Scheduled(t.jobs, session) + Awaited(t.pending, session) == []
    ensures Inv(chain, events, ShowPair(t, session, Agreed(amount)), None)
  {
    hide Starts;
    hide Shown;
    hide Scheduled;
    hide ShownRightly;
    var u := ShowPair(t, session, Agreed(amount));
    OutputGrows(s.output, Show(Buyer, session, Agreed(amount)));
    OutputGrows(s.output + [Show(Buyer, session, Agreed(amount))], Show(Seller, session, Agreed(amount)));
    forall other ensures ShownRightly(events, u, other) {
      assert ShownRightly(events, s, other);
      AgreedShows(events, s, t, session, amount, other);
    }
  }

  lemma AgreedShows(events: seq<Event>, s: State, t: State, session: nat, amount: int, other: nat)
    requires ShownRightly(events, s, other) && t == s.(jobs := t.jobs, pending := t.pending)
    requires other != session ==>
      Scheduled(t.jobs, other) + Awaited(t.pending, other) == Scheduled(s.jobs, other) + Awaited(s.pending, other)
    requires Scheduled(s.jobs, session) + Awaited(s.pending, session) == [amount]
    requires Scheduled(t.jobs, session) + Awaited(t.pending, session) == []
    ensures ShownRightly(events, ShowPair(t, session, Agreed(amount)), other)
  {
    hide Shown;
    hide Scheduled;
    var u := ShowPair(t, session, Agreed(amount));
    OutputGrows(s.output, Show(Buyer, session, Agreed(amount)));
    OutputGrows(s.output + [Show(Buyer, session, Agreed(amount))], Show(Seller, session, Agreed(amount)));
    var shown := Shown(s.output, Buyer, other);
    assert shown + Scheduled(s.jobs, other) + Awaited(s.pending, other) ==
      shown + (Scheduled(s.jobs, other) + Awaited(s.pending, other));
    assert Shown(u.output, Buyer, other) + Scheduled(t.jobs, other) + Awaited(t.pending, other) ==
           Shown(u.output, Buyer, other) + (Scheduled(t.jobs, other) + Awaited(t.pending, other));
    if other == session {
      assert |shown + [amount]| <= 1;
      assert Shown(u.output, Buyer, other) == [amount];
    }
  }

  lemma AwaitedIsNotScheduled(events: seq<Event>, s: State, session: nat)
    requires AllShownRightly(events, s) && session in s.pending
    ensures Scheduled(s.jobs, session) == []
  {
    hide Shown;
    hide Scheduled;
    assert ShownRightly(events, s, session);
    assert |Shown(s.output, Buyer, session) + Scheduled(s.jobs, session) + [s.pending[session]]| <= 1;
  }

  lemma PendingCommutes(s: State, session: nat, stage: Stage, pending: map<nat, int>)
    ensures ShowPair(s, session, stage).(pending := pending) == ShowPair(s.(pending := pending), session, stage)
    ensures ShowPair(s, session, stage).pending == s.pending
  {}

  lemma SamePending(s: State, session: nat)
    ensures Authorized(s, session).pending == s.pending && Authorized(s, session).jobs == s.jobs
  {}

  lemma AwaitedIsShown(chain: bool, events: seq<Event>, s: State, session: nat)
    requires Inv(chain, events, s, None) && session in s.pending
    ensures var t := s.(pending := s.pending - {session});
      Inv(chain, events, ShowPair(t, session, Agreed(s.pending[session])), None)
  {
    AwaitedIsNotScheduled(events, s, session);
    hide Inv;
    hide Scheduled;
    hide ShowPair;
    AgreedKeeps(chain, events, s, s.(pending := s.pending - {session}), session, s.pending[session]);
  }

  lemma SettlementKeeps(chain: bool, events: seq<Event>, s: State, session: nat)
    requires Inv(chain, events, s, None)
    ensures Inv(chain, events, AcceptObservation(chain, s, session, PublicSettled).state, None)
  {
    hide Inv;
    hide ShowPair;
    hide SendParties;
    hide Authorized;
    if chain && session in s.pending {
      AuthorizedKeeps(chain, events, s, session);
      SamePending(s, session);
      var t := if session in s.chainAuthorized then s else Authorized(s, session);
      var amount, left := s.pending[session], s.pending - {session};
      AwaitedIsShown(chain, events, t, session);
      var v := ShowPair(t.(pending := left), session, Agreed(amount));
      ShowKeeps(chain, events, v, session, ShownSettled, None);
      SendKeeps(chain, events, ShowPair(v, session, ShownSettled), Finalize(session), None);
      PendingCommutes(t, session, Agreed(amount), left);
      PendingCommutes(ShowPair(t, session, Agreed(amount)), session, ShownSettled, left);
    }
  }

  lemma CancelledKeeps(chain: bool, events: seq<Event>, s: State, session: nat)
    requires Inv(chain, events, s, None) && session in s.negotiating && session !in s.accepted
    requires Ends(session, Cancelled) in events
    ensures Inv(chain, events, AcceptOutcome(chain, s, session, Cancelled), None)
  {
    hide Scheduled;
    hide Shown;
    NothingAgreedYet(events, s, session);
    hide Inv;
    var t := s.(accepted := s.accepted[session := Cancelled]);
    var u := if chain then t else t.(jobs := t.jobs + [ShowCancellation(session)]);
    forall other ensures Scheduled(u.jobs, other) == Scheduled(s.jobs, other) {
      OneMoreJob(s.jobs, ShowCancellation(session), other);
    }
    AcceptingKeeps(chain, events, s, u, session, Cancelled);
    ShowKeeps(chain, events, u, session, Complete, None);
    ShowKeeps(chain, events, ShowPair(u, session, Complete), session, Finalizing, None);
  }

  /** Before its outcome is accepted nothing is agreed, so accepting it starts the count. */
  lemma SettledKeeps(chain: bool, events: seq<Event>, s: State, session: nat, amount: int)
    requires Inv(chain, events, s, None) && session in s.negotiating && session !in s.accepted
    requires Ends(session, Settled(amount)) in events
    ensures Inv(chain, events, AcceptOutcome(chain, s, session, Settled(amount)), None)
  {
    hide Scheduled;
    hide Shown;
    NothingAgreedYet(events, s, session);
    hide Inv;
    var t := s.(accepted := s.accepted[session := Settled(amount)]);
    var u := if chain then t.(pending := t.pending[session := amount])
             else t.(jobs := t.jobs + SettlementJobs(session, amount));
    forall other
      ensures !chain ==>
        Scheduled(u.jobs, other) == Scheduled(s.jobs, other) + if other == session then [amount] else []
    {
      FourJobs(s.jobs, session, amount, other);
    }
    AcceptingKeeps(chain, events, s, u, session, Settled(amount));
    ShowKeeps(chain, events, u, session, Complete, None);
    ShowKeeps(chain, events, ShowPair(u, session, Complete), session, Verifying, None);
  }

  lemma OutcomeKeeps(chain: bool, events: seq<Event>, s: State, session: nat, outcome: Outcome)
    requires Inv(chain, events, s, None) && Ends(session, outcome) in events
    ensures Inv(chain, events, AcceptOutcome(chain, s, session, outcome), None)
  {
    if session in s.negotiating && session !in s.accepted {
      match outcome
      case Settled(amount) => SettledKeeps(chain, events, s, session, amount);
      case Cancelled => CancelledKeeps(chain, events, s, session);
    }
  }

  lemma NothingAgreedYet(events: seq<Event>, s: State, session: nat)
    requires AllShownRightly(events, s) && session !in s.accepted
    ensures Scheduled(s.jobs, session) == [] && session !in s.pending && Shown(s.output, Buyer, session) == []
  {
    assert ShownRightly(events, s, session);
  }

  lemma FourJobs(jobs: seq<Job>, session: nat, amount: int, other: nat)
    ensures Scheduled(jobs + SettlementJobs(session, amount), other) ==
            Scheduled(jobs, other) + (if other == session then [amount] else [])
  {
    var more := SettlementJobs(session, amount);
    hide Scheduled;
    OneMoreJob(jobs, more[0], other);
    OneMoreJob(jobs + [more[0]], more[1], other);
    OneMoreJob(jobs + [more[0]] + [more[1]], more[2], other);
    OneMoreJob(jobs + [more[0]] + [more[1]] + [more[2]], more[3], other);
    assert jobs + more == jobs + [more[0]] + [more[1]] + [more[2]] + [more[3]];
  }

  lemma AcceptingKeeps(chain: bool, events: seq<Event>, s: State, u: State, session: nat, outcome: Outcome)
    requires Inv(chain, events, s, None) && session in s.negotiating && session !in s.accepted
    requires Ends(session, outcome) in events
    requires u == s.(accepted := s.accepted[session := outcome], jobs := u.jobs, pending := u.pending)
    requires forall job <- s.jobs :: job in u.jobs
    requires forall job <- u.jobs :: job.Display? ==> job in s.jobs
    requires forall other :: other != session ==>
      Scheduled(u.jobs, other) == Scheduled(s.jobs, other) && Awaited(u.pending, other) == Awaited(s.pending, other)
    requires Scheduled(u.jobs, session) + Awaited(u.pending, session) ==
      if outcome.Settled? then [outcome.amount] else []
    ensures Inv(chain, events, u, None)
  {
    hide Starts;
    hide Shown;
    hide Scheduled;
    hide ShownRightly;
    forall other ensures ShownRightly(events, u, other) {
      assert ShownRightly(events, s, other);
      AcceptingShows(events, s, u, session, outcome, other);
    }
  }

  lemma AcceptingShows(events: seq<Event>, s: State, u: State, session: nat, outcome: Outcome, other: nat)
    requires ShownRightly(events, s, other) && session !in s.accepted
    requires u == s.(accepted := s.accepted[session := outcome], jobs := u.jobs, pending := u.pending)
    requires other != session ==>
      Scheduled(u.jobs, other) == Scheduled(s.jobs, other) && Awaited(u.pending, other) == Awaited(s.pending, other)
    requires Scheduled(u.jobs, session) + Awaited(u.pending, session) ==
      if outcome.Settled? then [outcome.amount] else []
    ensures ShownRightly(events, u, other)
  {
    hide Shown;
    hide Scheduled;
    var shown := Shown(s.output, Buyer, other);
    assert shown + Scheduled(u.jobs, other) + Awaited(u.pending, other) ==
      shown + (Scheduled(u.jobs, other) + Awaited(u.pending, other));
  }

  /** A timer fires: its job leaves the list. */
  lemma TakingKeeps(s: State, index: nat, session: nat)
    requires index < |s.jobs| && |Scheduled(s.jobs, session)| <= 1
    ensures Scheduled(s.jobs, session) ==
      Scheduled(TakeJob(s, index).jobs, session) + Scheduled([s.jobs[index]], session)
  {
    hide Scheduled;
    var before, job, after := s.jobs[..index], [s.jobs[index]], s.jobs[index + 1..];
    ScheduledSplits(before, after, session);
    ScheduledSplits(before, job, session);
    ScheduledSplits(before + job, after, session);
    assert before + job + after == s.jobs;
  }

  lemma AtMostOne(events: seq<Event>, s: State, session: nat)
    requires AllShownRightly(events, s)
    ensures |Scheduled(s.jobs, session)| <= 1
  {
    assert ShownRightly(events, s, session);
  }

  lemma SingleJob(job: Job, session: nat)
    ensures Scheduled([job], session) == if job.ShowAgreed? && job.session == session then [job.amount] else []
  {
    OneMoreJob([], job, session);
    assert [] + [job] == [job];
  }

  lemma FiringKeeps(chain: bool, events: seq<Event>, s: State, index: nat)
    requires Inv(chain, events, s, None) && index < |s.jobs|
    ensures Inv(chain, events, Perform(chain, TakeJob(s, index), s.jobs[index]).state, None)
  {
    hide Starts;
    hide Shown;
    hide Scheduled;
    var t, job := TakeJob(s, index), s.jobs[index];
    forall other ensures Scheduled(s.jobs, other) == Scheduled(t.jobs, other) + Scheduled([job], other) {
      AtMostOne(events, s, other);
      TakingKeeps(s, index, other);
    }
    forall other
      ensures Scheduled([job], other) == if job.ShowAgreed? && job.session == other then [job.amount] else []
    {
      SingleJob(job, other);
    }
    if job.ShowAgreed? {
      assert ShownRightly(events, s, job.session);
      AgreedKeeps(chain, events, s, t, job.session, job.amount);
    } else {
      forall other ensures ShownRightly(events, t, other) { assert ShownRightly(events, s, other); }
      DisplayOrShow(chain, events, s, t, job);
    }
  }

  lemma DisplayOrShow(chain: bool, events: seq<Event>, s: State, t: State, job: Job)
    requires Inv(chain, events, s, None) && AllShownRightly(events, t) && !job.ShowAgreed? && job in s.jobs
    requires t == s.(jobs := t.jobs) && forall other <- s.jobs :: other == job || other in t.jobs
    requires forall other <- t.jobs :: other in s.jobs
    ensures Inv(chain, events, Perform(chain, t, job).state, None)
  {
    hide Starts;
    hide Shown;
    hide Scheduled;
    var session := job.session;
    if job.Display? && session !in s.accepted {
      var u := t.(displayReady := t.displayReady + {session});
      forall other ensures ShownRightly(events, u, other) { assert ShownRightly(events, t, other); }
      assert Inv(chain, events, u, Some(session)) by {
        forall other | other in u.peerReady && Due(chain, u, other) && other != session ensures other in u.negotiating {
          assert Due(chain, s, other);
        }
      }
      hide Inv;
      ShowKeeps(chain, events, u, session, Negotiating, Some(session));
      TryStartKeeps(chain, events, ShowPair(u, session, Negotiating), session);
    } else {
      assert Inv(chain, events, t, None);
      hide Inv;
      if !job.Display? {
        var stage := match job
          case ShowCancellation(_) => ShownCancelled
          case ShowVerifying(_) => Verifying
          case ShowProofs(_) => ProofsComplete
          case _ => ShownSettled;
        ShowKeeps(chain, events, t, session, stage, None);
        forall state ensures Inv(chain, events, PublishState(ShowPair(t, session, stage), session, state).state, None) {
          PublishKeeps(chain, events, ShowPair(t, session, stage), session, state);
        }
      }
    }
  }

  lemma HandleKeeps(chain: bool, events: seq<Event>, s: State, e: Event)
    requires Inv(chain, events, s, None) && e in events
    ensures Inv(chain, events, Handle(chain, s, e).state, None)
  {
    hide Inv;
    hide AcceptObservation;
    match e
    case Joins(role, session, productCode) => JoinKeeps(chain, events, s, role, session, productCode);
    case Commits(role, session) => CommitmentKeeps(chain, events, s, role, session);
    case ChannelReady(role, session) => ChannelKeeps(chain, events, s, role, session);
    case Ends(session, outcome) => OutcomeKeeps(chain, events, s, session, outcome);
    case Observes(session, PublicOpen) => OpenKeeps(chain, events, s, session);
    case Observes(session, PublicAuthorized) => ObservedAuthorizationKeeps(chain, events, s, session);
    case Observes(session, PublicCancelled) => CancellationKeeps(chain, events, s, session);
    case Observes(session, PublicSettled) => SettlementKeeps(chain, events, s, session);
    case ObserverConfigured(session) => ConfigureKeeps(chain, events, s, session);
    case StartRequested(session) => StartRequestKeeps(chain, events, s, session);
    case Fires(index) => if MayFire(s.jobs, index) { FiringKeeps(chain, events, s, index); }
    case Exits(child) =>
      assert BothRun(events) ==> child.ObserverChild? by { assert Exits(child) in events; }
      OtherFields(chain, events, s, s.(connected := s.connected - {child}), None);
  }

  lemma ObservedAuthorizationKeeps(chain: bool, events: seq<Event>, s: State, session: nat)
    requires Inv(chain, events, s, None)
    ensures Inv(chain, events, AcceptObservation(chain, s, session, PublicAuthorized).state, None)
  {
    hide Inv;
    AuthorizedKeeps(chain, events, s, session);
  }

  lemma StartRequestKeeps(chain: bool, events: seq<Event>, s: State, session: nat)
    requires Inv(chain, events, s, None)
    ensures Inv(chain, events, TryStart(chain, s, session).state, None)
  {
    assert Inv(chain, events, s, Some(session));
    TryStartKeeps(chain, events, s, session);
  }

  lemma {:induction false} ControlKeeps(chain: bool, events: seq<Event>)
    ensures Inv(chain, events, Control(chain, events), None)
  {
    hide Inv;
    hide Handle;
    if events == [] {
      StartedInv(chain);
    } else {
      var init, last := events[..|events| - 1], events[|events| - 1];
      ControlKeeps(chain, init);
      TimeGoesOn(chain, init, last, Control(chain, init));
      assert init + [last] == events;
      HandleKeeps(chain, events, Control(chain, init), last);
    }
  }

  // ---- No negotiation is left unannounced ----

  predicate BothCommitted(s: State, session: nat) {
    Holds(s.commitments, Buyer, session) && Holds(s.commitments, Seller, session)
  }

  predicate OpenFor(chain: bool, s: State, session: nat) {
    chain ==> session in s.chainOpen
  }

  /** Two commitments make a session ready, and a ready one is announced as soon as it is open. */
  ghost predicate Announced(chain: bool, s: State) {
    && (forall session :: BothCommitted(s, session) ==> session in s.peerReady)
    && (forall session <- s.peerReady :: OpenFor(chain, s, session) ==> session in s.announced || session in s.accepted)
  }

  /** Nothing an announcement depends on differs, or more is announced or accepted. */
  predicate KeepsAnnounced(s: State, t: State) {
    && t.commitments == s.commitments && t.peerReady == s.peerReady && t.chainOpen == s.chainOpen
    && s.announced <= t.announced && s.accepted.Keys <= t.accepted.Keys && t.connected == s.connected
  }

  lemma KeptAnnounced(chain: bool, s: State, t: State)
    requires Announced(chain, s) && KeepsAnnounced(s, t)
    ensures Announced(chain, t)
  {
    assert forall session :: BothCommitted(t, session) == BothCommitted(s, session);
    assert forall session :: OpenFor(chain, t, session) == OpenFor(chain, s, session);
  }

  lemma ShowingKeeps(s: State, session: nat, stage: Stage)
    ensures KeepsAnnounced(s, ShowPair(s, session, stage))
    ensures forall panel :: KeepsAnnounced(s, ShowOne(s, panel, session, stage))
  {}

  lemma SendingKeeps(s: State, command: Command)
    ensures forall target :: KeepsAnnounced(s, SendTo(s, target, command).state)
    ensures KeepsAnnounced(s, SendParties(s, command).state)
    ensures {BuyerChild, SellerChild} <= s.connected ==> SendParties(s, command).ok
  {}

  lemma NoticesKeepAnnounced(chain: bool, s: State, session: nat)
    ensures KeepsAnnounced(s, Notices(chain, s, session))
  {
    NoticesOnly(chain, s, session);
  }

  lemma StartingKeeps(chain: bool, s: State, session: nat)
    ensures KeepsAnnounced(s, TryStart(chain, s, session).state)
  {}

  lemma MatchingKeeps(chain: bool, s: State, session: nat)
    ensures KeepsAnnounced(s, TryMatch(chain, s, session).state)
  {
    hide Notices;
    NoticesKeepAnnounced(chain, ShowPair(s, session, PeerJoined), session);
  }

  lemma PerformingKeeps(chain: bool, s: State, job: Job)
    ensures KeepsAnnounced(s, Perform(chain, s, job).state)
  {
    hide TryStart;
    hide ShowPair;
    var session := job.session;
    match job
    case Display(_) =>
      ShowingKeeps(s, session, Negotiating);
      var t := ShowPair(s, session, Negotiating);
      StartingKeeps(chain, t.(displayReady := t.displayReady + {session}), session);
    case ShowCancellation(_) => ShowingKeeps(s, session, ShownCancelled);
    case ShowVerifying(_) => ShowingKeeps(s, session, Verifying);
    case ShowProofs(_) => ShowingKeeps(s, session, ProofsComplete);
    case ShowAgreed(_, amount) => ShowingKeeps(s, session, Agreed(amount));
    case ShowSettlement(_) => ShowingKeeps(s, session, ShownSettled);
  }

  /** Announcing announces, unless it is too early or too late. */
  lemma AnnouncingAnnounces(chain: bool, s: State, session: nat)
    ensures KeepsAnnounced(s, Announce(chain, s, session))
    ensures OpenFor(chain, s, session) ==>
      session in Announce(chain, s, session).announced || session in Announce(chain, s, session).accepted
  {
    hide ShowPair;
    ShowingKeeps(s.(announced := s.announced + {session}), session, Starting);
  }

  lemma ReadyAnnounces(chain: bool, s: State, session: nat)
    requires {BuyerChild, SellerChild} <= s.connected
    requires forall other :: BothCommitted(s, other) ==> other in s.peerReady || other == session
    requires forall other <- s.peerReady :: OpenFor(chain, s, other) ==> other in s.announced || other in s.accepted
    ensures Announced(chain, TryReady(chain, s, session).state)
  {
    hide Notices;
    hide Announce;
    hide SendParties;
    if BothCommitted(s, session) && session !in s.peerReady {
      var t := s.(peerReady := s.peerReady + {session});
      SendingKeeps(t, PeerIsReady(session));
      var u := SendParties(t, PeerIsReady(session)).state;
      NoticesKeepAnnounced(chain, u, session);
      AnnouncingAnnounces(chain, Notices(chain, u, session), session);
      var v := Announce(chain, Notices(chain, u, session), session);
      OneMoreAnnounced(chain, s, v, session);
      SendingKeeps(v, Publish(session, PublicOpen));
      KeptAnnounced(chain, v, PublishState(v, session, PublicOpen).state);
    }
  }

  lemma OneMoreAnnounced(chain: bool, s: State, v: State, session: nat)
    requires forall other :: BothCommitted(s, other) ==> other in s.peerReady || other == session
    requires forall other <- s.peerReady :: OpenFor(chain, s, other) ==> other in s.announced || other in s.accepted
    requires v.commitments == s.commitments && v.peerReady == s.peerReady + {session} && v.chainOpen == s.chainOpen
    requires s.announced <= v.announced && s.accepted.Keys <= v.accepted.Keys
    requires OpenFor(chain, v, session) ==> session in v.announced || session in v.accepted
    ensures Announced(chain, v)
  {
    assert forall other :: BothCommitted(v, other) == BothCommitted(s, other);
    assert forall other :: OpenFor(chain, v, other) == OpenFor(chain, s, other);
  }

  lemma OpeningAnnounces(chain: bool, s: State, session: nat)
    requires Announced(chain, s)
    ensures Announced(chain, AcceptObservation(chain, s, session, PublicOpen).state)
  {
    hide Notices;
    hide Announce;
    hide TryStart;
    if chain {
      var t := s.(chainOpen := s.chainOpen + {session});
      NoticesKeepAnnounced(chain, t, session);
      AnnouncingAnnounces(chain, Notices(chain, t, session), session);
      var u := if session in t.peerReady then Announce(chain, Notices(chain, t, session), session) else t;
      assert forall other :: BothCommitted(u, other) == BothCommitted(s, other);
      assert Announced(chain, u);
      StartingKeeps(chain, u, session);
      KeptAnnounced(chain, u, TryStart(chain, u, session).state);
    }
  }

  lemma AuthorizingKeeps(s: State, session: nat)
    ensures KeepsAnnounced(s, Authorized(s, session))
  {
    hide ShowPair;
    var t := s.(chainAuthorized := s.chainAuthorized + {session});
    ShowingKeeps(t, session, ProofsComplete);
    ShowingKeeps(ShowPair(t, session, ProofsComplete), session, Finalizing);
  }

  lemma ObservingKeeps(chain: bool, s: State, session: nat, state: PublicState)
    requires state != PublicOpen
    ensures KeepsAnnounced(s, AcceptObservation(chain, s, session, state).state)
  {
    hide ShowPair;
    hide SendParties;
    hide Authorized;
    AuthorizingKeeps(s, session);
    match state
    case PublicCancelled =>
      var t := s.(pending := s.pending - {session});
      SendingKeeps(t, Finalize(session));
      ShowingKeeps(SendParties(t, Finalize(session)).state, session, ShownCancelled);
    case PublicSettled =>
      if session in s.pending {
        var t := if session in s.chainAuthorized then s else Authorized(s, session);
        ShowingKeeps(t, session, Agreed(s.pending[session]));
        var u := ShowPair(t, session, Agreed(s.pending[session]));
        ShowingKeeps(u, session, ShownSettled);
        var v := ShowPair(u, session, ShownSettled);
        SendingKeeps(v.(pending := v.pending - {session}), Finalize(session));
      }
    case PublicAuthorized =>
  }

  lemma OutcomesKeep(chain: bool, s: State, session: nat, outcome: Outcome)
    ensures KeepsAnnounced(s, AcceptOutcome(chain, s, session, outcome))
  {
    hide ShowPair;
    var t := s.(accepted := s.accepted[session := outcome]);
    ShowingKeeps(t, session, Complete);
    var u := ShowPair(t, session, Complete);
    ShowingKeeps(u, session, Finalizing);
    if outcome.Settled? {
      ShowingKeeps(u.(pending := u.pending[session := outcome.amount]), session, Verifying);
    }
  }

  /** Every event keeps ready sessions announced, while both parties run. */
  lemma HandleAnnounces(chain: bool, s: State, e: Event)
    requires Announced(chain, s) && {BuyerChild, SellerChild} <= s.connected
    ensures Announced(chain, Handle(chain, s, e).state)
  {
    hide Announced;
    hide AcceptObservation;
    hide AcceptOutcome;
    hide Perform;
    hide TryMatch;
    hide TryReady;
    hide TryStart;
    match e
    case Joins(role, session, productCode) => JoinAnnounces(chain, s, role, session, productCode);
    case Commits(role, session) => CommitAnnounces(chain, s, role, session);
    case ChannelReady(role, session) =>
      var t := s.(channels := s.channels[role := session]);
      KeptAnnounced(chain, s, t);
      StartingKeeps(chain, t, session);
      KeptAnnounced(chain, t, TryStart(chain, t, session).state);
    case Ends(session, outcome) =>
      OutcomesKeep(chain, s, session, outcome);
      KeptAnnounced(chain, s, AcceptOutcome(chain, s, session, outcome));
    case Observes(session, state) =>
      if state == PublicOpen {
        OpeningAnnounces(chain, s, session);
      } else {
        ObservingKeeps(chain, s, session, state);
        KeptAnnounced(chain, s, AcceptObservation(chain, s, session, state).state);
      }
    case ObserverConfigured(session) => KeptAnnounced(chain, s, ConfigureObserver(s, session).state);
    case StartRequested(session) =>
      StartingKeeps(chain, s, session);
      KeptAnnounced(chain, s, TryStart(chain, s, session).state);
    case Fires(index) =>
      if MayFire(s.jobs, index) {
        KeptAnnounced(chain, s, TakeJob(s, index));
        PerformingKeeps(chain, TakeJob(s, index), s.jobs[index]);
        KeptAnnounced(chain, TakeJob(s, index), Perform(chain, TakeJob(s, index), s.jobs[index]).state);
      }
    case Exits(child) => ExitAnnounces(chain, s, child);
  }

  lemma ExitAnnounces(chain: bool, s: State, child: Child)
    requires Announced(chain, s)
    ensures Announced(chain, s.(connected := s.connected - {child}))
  {
    var t := s.(connected := s.connected - {child});
    assert forall session :: BothCommitted(t, session) == BothCommitted(s, session);
    assert forall session :: OpenFor(chain, t, session) == OpenFor(chain, s, session);
  }

  lemma JoinAnnounces(chain: bool, s: State, role: Role, session: nat, productCode: nat)
    requires Announced(chain, s)
    ensures Announced(chain, AcceptJoin(chain, s, role, session, productCode).state)
  {
    hide TryMatch;
    var t := s.(rooms := s.rooms[role := Room(session, productCode)], commitments := s.commitments - {role});
    assert Announced(chain, t) by {
      assert forall other :: BothCommitted(t, other) ==> BothCommitted(s, other);
      assert forall other :: OpenFor(chain, t, other) == OpenFor(chain, s, other);
    }
    var u := ShowOne(t, role, session, WaitingPeer);
    KeptAnnounced(chain, t, u);
    MatchingKeeps(chain, t, session);
    MatchingKeeps(chain, u, session);
    KeptAnnounced(chain, t, TryMatch(chain, t, session).state);
    KeptAnnounced(chain, u, TryMatch(chain, u, session).state);
  }

  lemma CommitAnnounces(chain: bool, s: State, role: Role, session: nat)
    requires Announced(chain, s) && {BuyerChild, SellerChild} <= s.connected
    ensures Announced(chain, AcceptCommitment(chain, s, role, session).state)
  {
    var t := s.(commitments := s.commitments[role := session]);
    forall other | BothCommitted(t, other) ensures other in t.peerReady || other == session {
      if other != session { assert BothCommitted(s, other); }
    }
    assert forall other :: OpenFor(chain, t, other) == OpenFor(chain, s, other);
    ReadyAnnounces(chain, t, session);
  }

  lemma {:induction false} ControlAnnounces(chain: bool, events: seq<Event>)
    requires BothRun(events)
    ensures Announced(chain, Control(chain, events))
  {
    hide Handle;
    hide Announced;
    if events == [] {
      StartedAnnounced(chain);
    } else {
      var init, last := events[..|events| - 1], events[|events| - 1];
      assert forall e <- init :: e in events;
      ControlAnnounces(chain, init);
      ControlKeeps(chain, init);
      PartiesConnected(chain, init, Control(chain, init));
      HandleAnnounces(chain, Control(chain, init), last);
    }
  }

  lemma StartedAnnounced(chain: bool)
    ensures Announced(chain, STARTED)
  {}

  lemma PartiesConnected(chain: bool, events: seq<Event>, s: State)
    requires Inv(chain, events, s, None) && BothRun(events)
    ensures {BuyerChild, SellerChild} <= s.connected
  {}

  // ---- What holds over every run ----

  /** A session is started at most once, and only after both commitments, both relay channels and, on
      chain, the observed opening of the deal. */
  lemma StartsAreJustified(chain: bool, events: seq<Event>, child: Child, session: nat)
    ensures var starts := Starts(Control(chain, events).output, child, session);
      starts <= 1 && (starts == 1 ==> Justified(chain, events, session))
  {
    hide Starts;
    hide Control;
    ControlKeeps(chain, events);
    var s := Control(chain, events);
    assert StartedOnce(s);
  }

  /** What the parties and the chain have reported for a session. */
  predicate Reported(chain: bool, s: State, session: nat) {
    && BothCommitted(s, session) && OpenFor(chain, s, session)
    && Holds(s.channels, Buyer, session) && Holds(s.channels, Seller, session)
  }

  /** No order of events loses a start. Once both commitments, both channels and, on chain, the opening
      are reported, and while both parties run, the session has been started, exactly once on each side,
      or is announced and waits for its display timer. When that has fired, nothing is waited for. */
  lemma NoStartIsLost(chain: bool, events: seq<Event>, session: nat)
    ensures var s := Control(chain, events);
      Reported(chain, s, session) && BothRun(events) ==>
        || (session in s.announced && Display(session) in s.jobs)
        || (session in s.negotiating &&
            Starts(s.output, BuyerChild, session) == 1 && Starts(s.output, SellerChild, session) == 1)
    ensures var s := Control(chain, events);
      Due(chain, s, session) ==> session in s.negotiating
  {
    hide Control;
    hide Starts;
    ControlKeeps(chain, events);
    var s := Control(chain, events);
    if Reported(chain, s, session) && BothRun(events) {
      ControlAnnounces(chain, events);
      assert session in s.peerReady;
    }
  }

  /** Each panel shows an agreed amount at most once, both show the same, and it is that of the one
      accepted outcome; for a cancelled or unfinished negotiation none is shown. */
  lemma AgreementIsShownRightly(chain: bool, events: seq<Event>, panel: Role, session: nat)
    ensures var s := Control(chain, events);
      var shown := Shown(s.output, panel, session);
      && shown == Shown(s.output, Opposite(panel), session)
      && (shown != [] ==>
            session in s.accepted && s.accepted[session].Settled? && shown == [s.accepted[session].amount])
      // what is accepted is what the Buyer reported for a session that was started
      && (session in s.accepted ==> Ends(session, s.accepted[session]) in events && Justified(chain, events, session))
      // an accepted settlement is shown, or waits to be, unless the chain cancelled the deal
      && (session in s.accepted && s.accepted[session].Settled? && Observes(session, PublicCancelled) !in events ==>
            shown + Scheduled(s.jobs, session) + Awaited(s.pending, session) == [s.accepted[session].amount])
  {
    hide Control;
    hide Shown;
    hide Scheduled;
    ControlKeeps(chain, events);
    assert ShownRightly(events, Control(chain, events), session);
  }

  // ---- The controller ----

  class RuntimeController {
    const chainMode: bool
    var partyRooms: map<Role, Room>
    var relayChannelSessions: map<Role, nat>
    var commitmentSessions: map<Role, nat>
    var peerCommitmentNotices: set<(Role, nat)>
    var peerReadySessions: set<nat>
    var observerSessions: set<nat>
    var chainOpenSessions: set<nat>
    var chainAuthorizedSessions: set<nat>
    var pendingSettlements: map<nat, int>
    var announcedSessions: set<nat>
    var displayReadySessions: set<nat>
    var negotiatingSessions: set<nat>
    var finishedSessions: set<nat>
    ghost var accepted: map<nat, Outcome>
    var timers: seq<Job>
    var children: set<Child>
    var output: seq<Output>

    ghost predicate Valid()
      reads this
    {
      finishedSessions == accepted.Keys
    }

    ghost function Now(): State
      reads this
    {
      State(partyRooms, relayChannelSessions, commitmentSessions, peerCommitmentNotices, peerReadySessions,
        observerSessions,
            chainOpenSessions, chainAuthorizedSessions, pendingSettlements, announcedSessions, displayReadySessions,
            negotiatingSessions, accepted, timers, children, output)
    }

    constructor (chainMode: bool)
      ensures this.chainMode == chainMode && Valid() && Now() == STARTED
    {
      this.chainMode := chainMode;
      partyRooms, relayChannelSessions, commitmentSessions := map[], map[], map[];
      peerCommitmentNotices, peerReadySessions, observerSessions := {}, {}, {};
      chainOpenSessions, chainAuthorizedSessions, pendingSettlements := {}, {}, map[];
      announcedSessions, displayReadySessions, negotiatingSessions, finishedSessions := {}, {}, {}, {};
      accepted, timers, children, output := map[], [], {BuyerChild, SellerChild, ObserverChild}, [];
    }

    method EmitOne(panel: Role, session: nat, stage: Stage)
      modifies this`output
      ensures Now() == ShowOne(old(Now()), panel, session, stage)
    {
      output := output + [Show(panel, session, stage)];
    }

    method EmitParticipantPair(session: nat, stage: Stage)
      modifies this`output
      ensures Now() == ShowPair(old(Now()), session, stage)
    {
      EmitOne(Buyer, session, stage);
      EmitOne(Seller, session, stage);
    }

    method Send(target: Child, command: Command) returns (ok: bool)
      modifies this`output
      ensures Step(Now(), ok) == SendTo(old(Now()), target, command)
    {
      ok := target in children;
      if ok { output := output + [Tell(target, command)]; }
    }

    method SendToParties(command: Command) returns (ok: bool)
      modifies this`output
      ensures Step(Now(), ok) == SendParties(old(Now()), command)
    {
      ok := Send(BuyerChild, command);
      if ok { ok := Send(SellerChild, command); }
    }

    method PublishPublicState(session: nat, state: PublicState) returns (ok: bool)
      modifies this`output
      ensures Step(Now(), ok) == PublishState(old(Now()), session, state)
    {
      ok := true;
      if session in observerSessions { ok := Send(ObserverChild, Publish(session, state)); }
    }

    method EmitPeerCommitmentNotice(role: Role, session: nat)
      modifies this`output, this`peerCommitmentNotices
      ensures Now() == Notice(chainMode, old(Now()), role, session)
    {
      if !Holds(commitmentSessions, Opposite(role), session) || (role, session) in peerCommitmentNotices ||
         (chainMode && session !in chainOpenSessions) { return; }
      peerCommitmentNotices := peerCommitmentNotices + {(role, session)};
      EmitOne(role, session, PeerCommitment);
    }

    method EmitBothNotices(session: nat)
      modifies this`output, this`peerCommitmentNotices
      ensures Now() == Notices(chainMode, old(Now()), session)
    {
      EmitPeerCommitmentNotice(Buyer, session);
      EmitPeerCommitmentNotice(Seller, session);
    }

    method AnnounceNegotiation(session: nat)
      requires Valid()
      modifies this`output, this`announcedSessions, this`timers
      ensures Now() == Announce(chainMode, old(Now()), session)
    {
      if session in announcedSessions || session in finishedSessions || (chainMode && session !in chainOpenSessions)
      { return; }
      announcedSessions := announcedSessions + {session};
      EmitParticipantPair(session, Starting);
      timers := timers + [Display(session)];
    }

    method TryStartNegotiation(session: nat) returns (ok: bool)
      requires Valid()
      modifies this`output, this`negotiatingSessions
      ensures Step(Now(), ok) == TryStart(chainMode, old(Now()), session)
    {
      ok := true;
      if session !in peerReadySessions || session !in displayReadySessions ||
         (chainMode && session !in chainOpenSessions) ||
         !Holds(relayChannelSessions, Buyer, session) || !Holds(relayChannelSessions, Seller, session) ||
         session in negotiatingSessions || session in finishedSessions { return; }
      negotiatingSessions := negotiatingSessions + {session};
      ok := SendToParties(Start(session));
    }

    method ConfigureSessionObserver(session: nat) returns (ok: bool)
      modifies this`output, this`observerSessions
      ensures Step(Now(), ok) == ConfigureObserver(old(Now()), session)
    {
      ok := Send(ObserverChild, Configure(session));
      if ok { observerSessions := observerSessions + {session}; }
    }

    method TryMatchRoom(session: nat) returns (ok: bool)
      modifies this`output, this`peerCommitmentNotices, this`observerSessions
      ensures Step(Now(), ok) == TryMatch(chainMode, old(Now()), session)
    {
      ok := true;
      if Buyer !in partyRooms || Seller !in partyRooms || partyRooms[Buyer].sessionId != session ||
         partyRooms[Seller].sessionId != session || partyRooms[Buyer].productCode != partyRooms[Seller].productCode
      { return; }
      EmitParticipantPair(session, PeerJoined);
      EmitBothNotices(session);
      if session !in observerSessions { ok := ConfigureSessionObserver(session); }
    }

    method TryReadySession(session: nat) returns (ok: bool)
      requires Valid()
      modifies this`output, this`peerReadySessions, this`peerCommitmentNotices, this`announcedSessions, this`timers
      ensures Step(Now(), ok) == TryReady(chainMode, old(Now()), session)
    {
      hide Announce;
      hide Notices;
      hide SendParties;
      hide PublishState;
      ok := true;
      if !Holds(commitmentSessions, Buyer, session) || !Holds(commitmentSessions, Seller, session) ||
         session in peerReadySessions
      { return; }
      peerReadySessions := peerReadySessions + {session};
      ok := SendToParties(PeerIsReady(session));
      if !ok { return; }
      EmitBothNotices(session);
      AnnounceNegotiation(session);
      if !chainMode { ok := PublishPublicState(session, PublicOpen); }
    }

    method AcceptJoinEvent(role: Role, session: nat, productCode: nat) returns (ok: bool)
      modifies this`output, this`partyRooms, this`commitmentSessions, this`peerCommitmentNotices, this`observerSessions
      ensures Step(Now(), ok) == AcceptJoin(chainMode, old(Now()), role, session, productCode)
    {
      hide TryMatch;
      hide ShowOne;
      partyRooms := partyRooms[role := Room(session, productCode)];
      commitmentSessions := commitmentSessions - {role};
      if Opposite(role) !in partyRooms || partyRooms[Opposite(role)] != Room(session, productCode)
      { EmitOne(role, session, WaitingPeer); }
      ok := TryMatchRoom(session);
    }

    method AcceptCommitmentEvent(role: Role, session: nat) returns (ok: bool)
      requires Valid()
      modifies this`output, this`commitmentSessions, this`peerReadySessions, this`peerCommitmentNotices,
        this`announcedSessions, this`timers
      ensures Step(Now(), ok) == AcceptCommitment(chainMode, old(Now()), role, session)
    {
      hide TryReady;
      commitmentSessions := commitmentSessions[role := session];
      ok := TryReadySession(session);
    }

    method AcceptChannelReady(role: Role, session: nat) returns (ok: bool)
      requires Valid()
      modifies this`output, this`relayChannelSessions, this`negotiatingSessions
      ensures Step(Now(), ok) == AcceptChannel(chainMode, old(Now()), role, session)
    {
      hide TryStart;
      relayChannelSessions := relayChannelSessions[role := session];
      ok := TryStartNegotiation(session);
    }

    method AcceptOutcomeMessage(session: nat, outcome: Outcome)
      requires Valid()
      modifies this
      ensures Valid() && Now() == AcceptOutcome(chainMode, old(Now()), session, outcome)
    {
      hide ShowPair;
      if session !in negotiatingSessions || session in finishedSessions { return; }
      finishedSessions := finishedSessions + {session};
      accepted := accepted[session := outcome];
      EmitParticipantPair(session, Complete);
      match outcome {
        case Cancelled =>
          if chainMode {
            EmitParticipantPair(session, Finalizing);
          } else {
            timers := timers + [ShowCancellation(session)];
          }
        case Settled(amount) =>
          if chainMode {
            pendingSettlements := pendingSettlements[session := amount];
            EmitParticipantPair(session, Verifying);
          } else {
            timers := timers + SettlementJobs(session, amount);
          }
      }
    }

    method AcceptAuthorization(session: nat)
      modifies this`output, this`chainAuthorizedSessions
      ensures Now() == Authorized(old(Now()), session)
    {
      chainAuthorizedSessions := chainAuthorizedSessions + {session};
      EmitParticipantPair(session, ProofsComplete);
      EmitParticipantPair(session, Finalizing);
    }

    method AcceptOpening(session: nat) returns (ok: bool)
      requires Valid() && chainMode
      modifies this`output, this`chainOpenSessions, this`peerCommitmentNotices, this`announcedSessions, this`timers,
        this`negotiatingSessions
      ensures Step(Now(), ok) == AcceptObservation(chainMode, old(Now()), session, PublicOpen)
    {
      hide TryStart;
      hide Announce;
      hide Notices;
      chainOpenSessions := chainOpenSessions + {session};
      if session in peerReadySessions {
        EmitBothNotices(session);
        AnnounceNegotiation(session);
      }
      ok := TryStartNegotiation(session);
    }

    method AcceptCancellation(session: nat) returns (ok: bool)
      requires chainMode
      modifies this`output, this`pendingSettlements
      ensures Step(Now(), ok) == AcceptObservation(chainMode, old(Now()), session, PublicCancelled)
    {
      pendingSettlements := pendingSettlements - {session};
      ok := SendToParties(Finalize(session));
      if ok { EmitParticipantPair(session, ShownCancelled); }
    }

    method AcceptSettlement(session: nat) returns (ok: bool)
      requires chainMode
      modifies this`output, this`pendingSettlements, this`chainAuthorizedSessions
      ensures Step(Now(), ok) == AcceptObservation(chainMode, old(Now()), session, PublicSettled)
    {
      if session !in pendingSettlements { return false; }
      var agreedAmount := pendingSettlements[session];
      if session !in chainAuthorizedSessions { AcceptAuthorization(session); }
      EmitParticipantPair(session, Agreed(agreedAmount));
      EmitParticipantPair(session, ShownSettled);
      pendingSettlements := pendingSettlements - {session};
      ok := SendToParties(Finalize(session));
    }

    method AcceptObserverEvent(session: nat, state: PublicState) returns (ok: bool)
      requires Valid()
      modifies this
      ensures Valid() && Step(Now(), ok) == AcceptObservation(chainMode, old(Now()), session, state)
    {
      hide TryStart;
      hide Announce;
      hide Notices;
      hide Authorized;
      hide SendParties;
      hide ShowPair;
      if !chainMode { return true; }
      match state {
        case PublicOpen => ok := AcceptOpening(session);
        case PublicAuthorized => AcceptAuthorization(session); ok := true;
        case PublicCancelled => ok := AcceptCancellation(session);
        case PublicSettled => ok := AcceptSettlement(session);
      }
    }

    method Fire(index: nat) returns (ok: bool)
      requires Valid() && index < |timers|
      modifies this
      ensures Valid() && Step(Now(), ok) == Perform(chainMode, TakeJob(old(Now()), index), old(timers)[index])
    {
      hide TryStart;
      hide ShowPair;
      hide PublishState;
      var job := timers[index];
      timers := timers[..index] + timers[index + 1..];
      ok := true;
      match job {
        case Display(session) =>
          if session in finishedSessions { return; }
          EmitParticipantPair(session, Negotiating);
          displayReadySessions := displayReadySessions + {session};
          ok := TryStartNegotiation(session);
        case ShowCancellation(session) =>
          EmitParticipantPair(session, ShownCancelled);
          ok := PublishPublicState(session, PublicCancelled);
        case ShowVerifying(session) => EmitParticipantPair(session, Verifying);
        case ShowProofs(session) =>
          EmitParticipantPair(session, ProofsComplete);
          ok := PublishPublicState(session, PublicAuthorized);
        case ShowAgreed(session, amount) => EmitParticipantPair(session, Agreed(amount));
        case ShowSettlement(session) =>
          EmitParticipantPair(session, ShownSettled);
          ok := PublishPublicState(session, PublicSettled);
      }
    }

    method Lose(child: Child)
      modifies this`children
      ensures Now() == old(Now()).(connected := old(children) - {child})
    {
      children := children - {child};
    }

    method Accept(e: Event) returns (ok: bool)
      requires Valid()
      modifies this
      ensures Valid() && Step(Now(), ok) == Handle(chainMode, old(Now()), e)
    {
      hide TakeJob;
      hide AcceptCommitment;
      hide AcceptChannel;
      hide TryStart;
      hide AcceptJoin;
      hide AcceptObservation;
      hide Perform;
      hide AcceptOutcome;
      hide ConfigureObserver;
      ok := true;
      match e {
        case Joins(role, session, productCode) => ok := AcceptJoinEvent(role, session, productCode);
        case Commits(role, session) => ok := AcceptCommitmentEvent(role, session);
        case ChannelReady(role, session) => ok := AcceptChannelReady(role, session);
        case Ends(session, outcome) => AcceptOutcomeMessage(session, outcome);
        case Observes(session, state) => ok := AcceptObserverEvent(session, state);
        case ObserverConfigured(session) => ok := ConfigureSessionObserver(session);
        case StartRequested(session) => ok := TryStartNegotiation(session);
        case Fires(index) => if MayFire(timers, index) { ok := Fire(index); }
        case Exits(child) => Lose(child);
      }
    }
  }

  /** A controller that accepts any events is in the state of that run, so its starts are justified and
      no more than one amount is shown for a session. */
  method ControlAll(chainMode: bool, events: seq<Event>) returns (controller: RuntimeController)
    ensures fresh(controller) && controller.Valid() && controller.Now() == Control(chainMode, events)
    ensures forall child, session ::
      Starts(controller.output, child, session) <= 1 &&
      (Starts(controller.output, child, session) == 1 ==> Justified(chainMode, events, session))
    ensures forall panel, session ::
      Shown(controller.output, panel, session) == Shown(controller.output, Opposite(panel), session) &&
      |Shown(controller.output, panel, session)| <= 1
  {
    hide Handle;
    hide Starts;
    hide Shown;
    controller := new RuntimeController(chainMode);
    assert events[..0] == [];
    for k := 0 to |events|
      invariant fresh(controller) && controller.chainMode == chainMode && controller.Valid()
      invariant controller.Now() == Control(chainMode, events[..k])
    {
      var _ := controller.Accept(events[k]);
      assert events[..k + 1][..k] == events[..k];
    }
    assert events[..|events|] == events;
    forall child, session
      ensures Starts(controller.output, child, session) <= 1
      ensures Starts(controller.output, child, session) == 1 ==> Justified(chainMode, events, session)
    {
      StartsAreJustified(chainMode, events, child, session);
    }
    forall panel, session
      ensures Shown(controller.output, panel, session) == Shown(controller.output, Opposite(panel), session)
      ensures |Shown(controller.output, panel, session)| <= 1
    {
      AgreementIsShownRightly(chainMode, events, panel, session);
    }
  }
}
