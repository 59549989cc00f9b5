# Private negotiation: a model of its protocol, contract and recovery

Buyer and Seller agree on a price without showing each other, or anyone else, their limits. Each
party's runtime asks a provider for candidate messages, filters them by its private limit and by a
public concession ladder in coordinates shifted by a secret offset, and sends the result over a relay.
An agreed price is authorised and settled on a contract that only sees commitments; afterwards each
party saves evidence and erases its secrets.

The project follows that path. Each module models one part of the system and proves what the part is
for. Providers, key derivation, message timing, chain timing, crashes and other contract callers are
arbitrary throughout.

| module | what it is about |
|---|---|
| `Pricing`, `Ladder` | local pricing rules: ladder, limit, offset, candidate filter, fallback; the arithmetic of the ladder |
| `Choice` | which candidate of a provider becomes the reply |
| `Runtimes`, `Processes` | the message handlers of both parties, as functions on states and as objects that update their fields |
| `Bargain` | both runtimes and a first-in first-out relay as a transition system; safety and termination of all runs |
| `Alone` | one runtime against any commands, packets and provider answers: it keeps its word and its limit |
| `Sessions`, `Conversation` | joining again starts clean; the two runtime objects, having any sessions one after another, are in the states of those runs, so their guarantees hold of every session |
| `Play`, `Scenario` | fixed providers: every order of events follows one sequential computation; the evaluation loop it refines |
| `Fallback`, `Closing`, `Privacy` | unattended runs: mock = fallback, their exact outcome, and what limits and offset cannot influence |
| `Offset` | how the secret offset is drawn |
| `Commitments`, `Contract` | commitments as terms; the five-state contract under any calls |
| `Settlement` | runtimes and contract together, from private limits to a settled ledger |
| `Vault`, `Convergence`, `Recovery` | what outlives a process and what every step owes to it; which sessions one recovery finishes; finishing and recovering sessions when a process may stop at any point |
| `Relay`, `Framing` | the relay server and the frames it reads |
| `Controller`, `Panels` | the process that starts the runtimes and shows their progress; what each panel shows, each party is told and the observer publishes, over whole runs |

Where the source updates fields, maps or files in place, there is a class whose methods are proved equal
to functions on its state (`Processes`, `Contract`, `Relay`, `Framing`, `Controller`) or carry the
guarantee directly (`Recovery`). Properties of whole runs are then proved about the functions.

Five points where the code is more particular than its description suggests:

- A Seller without a candidate declines, and the Buyer goes on with the next round. The evaluation loop
  stops there instead. `Scenario` proves that this is the only difference.
- A second recovery need not be idle. A session that cannot be finished itself is passed over when it is
  read before every session that shares its settled deal and can be finished. A Seller gets there when it
  stops before finishing a settled session and, in another session, a peer sends the same address again:
  that session records the address before its joining is refused, and its file name may come first.
  `Recovery.SharedContractsNeedTwoRuns` performs such a pair of runs. `Recovery.Host.CrashThenRecover`
  proves that this is exactly when the second recovery changes something, that the second one finishes
  what was passed over, and that any further ones change nothing, as long as no recorded deal becomes
  final meanwhile. With one session per contract nothing is passed over.
- A candidate is chosen by its place on the ladder before its actual amount is looked at. If the first one
  that fits stands for no uint64 amount, a permitted one behind it is not considered
  (`Choice.UnpayableOffersHideOthers`). In every other case the first one that fits is the reply.
- A Seller that is computing two replies at once can accept twice, and then holds to the later price
  (`Alone.TwoRepliesMoveTheAgreement`). Once it has agreed and computes nothing more the agreement stands,
  and either price is one it has named itself, within its limit.
- Start-up removes the temporary files of evidence writes, not those of session records. Only the former
  are part of the model.

## Model

| member | source | states |
|---|---|---|
| Pricing.RetryLoop | packages/agent-core/src/index.ts:689-729 | up to the request bound, the first candidate of the first request that yields an allowed one; failed and malformed answers count as nothing |
| Pricing.GenerateAllowedCandidate | packages/agent-core/src/index.ts:661-729 | exactly when the call throws, in which order its checks come, and that a returned candidate keeps the actual private limit |
| Pricing.FindAllowedSound | packages/agent-core/src/index.ts:537-548 | the chosen candidate is from the list and allowed; none is chosen only if none is allowed |
| Pricing.ReplyIsPermitted | packages/agent-core/src/index.ts:647-783 | whatever the provider answers, a reply keeps the private limit, and in shifted coordinates the ladder |
| Choice.FirstFitIsChosen | packages/agent-core/src/index.ts:537-548 | for any provider the reply is the first candidate, by request and then by position, that fits the limit, the current offer and the rung, written out in actual amounts; it is dropped for the fallback exactly if its amount is no uint64 one |
| Choice.NothingFits | packages/agent-core/src/index.ts:689-783 | when no candidate of three requests fits, the fallback replies |
| Choice.ProviderOffersAreMade | packages/agent-core/src/index.ts:537-548 | any offer at or below the Buyer's rung, or at or above the Seller's, within the limit, is made as the provider says |
| Choice.UnpayableOffersHideOthers | packages/agent-core/src/index.ts:647-688 | an input on which a fitting candidate without an actual amount hides a permitted one, so that the fallback replies |
| Choice.WithoutShiftNothing | packages/agent-core/src/index.ts:606-645 | without a reference, with an offset out of range or a current offer that cannot be shifted, there is no reply |
| Ladder.LadderIsRounded | packages/agent-core/src/index.ts:354-403 | a rung is the floored share rounded down or up to 250, and exists exactly when that lies between 250 and the uint64 maximum |
| Ladder.LadderConcedes | packages/agent-core/src/index.ts:378-403 | the Buyer's rungs never fall and the Seller's never rise |
| Ladder.SidesApartBeforeSix | packages/agent-core/src/index.ts:378-419 | up to round 5 the Seller's rung is above the Buyer's next rung |
| Ladder.ClosingCorridor | packages/agent-core/src/index.ts:378-419 | a price both ladders admit in one round is from round 6 or later and lies between the last rungs |
| Ladder.RungsMeet | packages/agent-core/src/index.ts:378-403 | from round 7 on the Seller's rung is at or below the Buyer's, and the closing prices rise |
| Offset.DeriveSessionPriceOffset | packages/agent-core/src/index.ts:561-604 | throws for malformed inputs; otherwise the offset of the first sample below the ceiling, always an admissible one |
| Offset.BothDeriveTheSame | packages/agent-core/src/index.ts:553-560 | equal inputs determine the accepted attempt and the offset |
| Offset.OffsetIsValid | packages/agent-core/src/index.ts:609-645 | any drawn offset passes normalisation, which then fails only when the shifted current offer is no price |
| Offset.OffsetsCountUp | packages/agent-core/src/index.ts:577-602 | the offsets count up by 250 with the sample from the lowest one, and start again after the highest |
| Offset.EveryOffsetIsEquallyLikely | packages/agent-core/src/index.ts:577-603 | no modulo bias: each multiple of 250 within 3 percent has exactly ceiling/count samples below the ceiling, anything else none |
| Offset.FewSamplesAreRejected | packages/agent-core/src/index.ts:577-580 | fewer than count samples, and fewer than half, are rejected |
| Fallback.UniqueCandidates | packages/agent-core/src/index.ts:421-431 | the same candidates, each once |
| Fallback.MockIsFallback | packages/agent-core/src/index.ts:433-476 | the mock run through the retry and filter loop returns exactly the local fallback, for every context, policy and offset |
| Fallback.OfflineIsFallbackOnly | packages/agent-core/src/index.ts:689-729 | with a provider that always fails, every reply is the fallback's |
| Fallback.MockIsFallbackOnly | packages/agent-core/src/index.ts:433-476 | with the mock, every reply is the fallback's |
| Fallback.LimitsNeverShapeAPrice | packages/agent-core/src/index.ts:731-783 | tightening a limit leaves a fallback reply identical or removes it, never changes it |
| Processes.BuyerRuntime.constructor | packages/buyer-runtime/src/index.ts:42-77 | the Buyer starts with the fresh state |
| Processes.BuyerRuntime.JoinRoom | packages/buyer-runtime/src/index.ts:693-708 | joining resets the session but not a pending timer or computation |
| Processes.BuyerRuntime.SetLimit | packages/buyer-runtime/src/index.ts:758-784 | the limit is locked once, for the joined room only |
| Processes.BuyerRuntime.AcceptPeerKey | packages/buyer-runtime/src/index.ts:459-477 | a key for another room is refused; otherwise it fixes the offset |
| Processes.BuyerRuntime.PeerReady | packages/buyer-runtime/src/index.ts:816-821 | accepted only for the joined room with a limit |
| Processes.BuyerRuntime.StartRuntime | packages/buyer-runtime/src/index.ts:822-844 | starts once, and only with limit, key and ready peer |
| Processes.BuyerRuntime.TimerFires | packages/buyer-runtime/src/index.ts:832-843 | the delayed first computation, for round 1 without an offer |
| Processes.BuyerRuntime.Launch | packages/buyer-runtime/src/index.ts:622-634 | a reply starts only while the session is ready and unfinished |
| Processes.BuyerRuntime.PublishOutcome | packages/buyer-runtime/src/index.ts:564-577 | only the first outcome of a session is published |
| Processes.BuyerRuntime.Relay | packages/buyer-runtime/src/index.ts:236-258 | packets carry consecutive sequence numbers; without a key nothing is sent |
| Processes.BuyerRuntime.AcceptRelayPacket | packages/buyer-runtime/src/index.ts:479-562 | acceptance only of the last offer, a decline moves to the next round until round 10, anything else is refused |
| Processes.BuyerRuntime.ExecuteCandidate | packages/buyer-runtime/src/index.ts:591-620 | an acceptance publishes the settlement; an offer beyond round 10 cancels |
| Processes.BuyerRuntime.FinishReply | packages/buyer-runtime/src/index.ts:622-666 | provider candidate, else fallback, else cancellation |
| Processes.SellerRuntime.constructor | packages/seller-runtime/src/index.ts:42-75 | the Seller starts with the fresh state |
| Processes.SellerRuntime.JoinRoom | packages/seller-runtime/src/index.ts:621-640 | joining resets the session |
| Processes.SellerRuntime.SetLimit | packages/seller-runtime/src/index.ts:679-700 | the limit is locked once, for the joined room only |
| Processes.SellerRuntime.AcceptPeerKey | packages/seller-runtime/src/index.ts:426-449 | a key for another room is refused; otherwise it fixes the offset |
| Processes.SellerRuntime.PeerReady | packages/seller-runtime/src/index.ts:739-744 | accepted only for the joined room with a limit |
| Processes.SellerRuntime.Relay | packages/seller-runtime/src/index.ts:227-249 | packets carry consecutive sequence numbers; without a key nothing is sent |
| Processes.SellerRuntime.AcceptRelayPacket | packages/seller-runtime/src/index.ts:451-521 | an opening settles only if it names the agreed price and otherwise cancels; bargaining traffic after agreeing is refused |
| Processes.SellerRuntime.ExecuteCandidate | packages/seller-runtime/src/index.ts:523-545 | accepting fixes the agreed price; an offer is remembered and sent in the Buyer's round |
| Processes.SellerRuntime.FinishReply | packages/seller-runtime/src/index.ts:547-594 | provider candidate, else fallback, else a decline |
| Alone.SellerKeepsItsWord | packages/seller-runtime/src/index.ts:451-594 | against any commands, packets and answers: each settlement the Seller launches is for a price it has proposed or accepted, and it names none below the limit it locked |
| Alone.SellerMovesSafely | packages/seller-runtime/src/index.ts:478-545 | in any reachable state: it settles exactly if an opening names the agreed price and cancels on any other; it agrees only on its own last offer, or on what it accepts itself; a locked limit never changes |
| Alone.SellerHearsInOrder | packages/seller-runtime/src/index.ts:451-471 | a packet either has the room, sender and a newer sequence number, and takes it, or changes nothing but the faults |
| Alone.AgreementStands | packages/seller-runtime/src/index.ts:497-521 | an agreed Seller that computes nothing more sends nothing and settles for that price only, whatever comes |
| Alone.TwoRepliesMoveTheAgreement | packages/seller-runtime/src/index.ts:523-594 | an input with two replies under way after which the agreed price is the second one |
| Alone.BuyerKeepsItsWord | packages/buyer-runtime/src/index.ts:479-666 | against any commands, packets and answers: at most one outcome a session, a settlement only for a price the Buyer has proposed or accepted, and none named above the limit it locked |
| Alone.BuyerMovesSafely | packages/buyer-runtime/src/index.ts:517-620 | in any reachable state: a settlement is published only when its own last offer is accepted or with an acceptance it sends itself; limit and outcome never change |
| Alone.BuyerHearsInOrder | packages/buyer-runtime/src/index.ts:479-516 | a packet either has the room, sender and a newer sequence number, and takes it, or changes nothing but the faults |
| Sessions.NewSessionsStartClean | packages/seller-runtime/src/index.ts:621-749 | from any state with nothing under way, joining, locking a limit, taking the key and hearing of the peer gives the state of a first session in every field but the record of earlier ones |
| Bargain.RunKeeps | packages/buyer-runtime/src/index.ts:479-666 | the protocol invariant over every run: rounds in step, last offers remembered, sequence numbers consecutive, one token |
| Bargain.NoFaults | packages/seller-runtime/src/index.ts:497-545 | no "unknown offer", no "traffic after agreeing" and no other handler error is ever reached |
| Bargain.SettlementIsAgreed | packages/buyer-runtime/src/index.ts:517-620 | a published price is a multiple of 250 within both limits and in the corridor of the ladder, closed in round 6 or later, and the Seller has agreed to it or the matching acceptance of its last offer is first in line |
| Bargain.SellerAgreesOnlyToTheOutcome | packages/seller-runtime/src/index.ts:523-545 | the Seller's agreed price is the published one, or its acceptance of the Buyer's last offer is still under way |
| Bargain.SingleToken | packages/buyer-runtime/src/index.ts:564-620 | exactly one negotiation message, pending reply or timer until the outcome, at most one after it, and exactly one outcome |
| Bargain.RoundsCountUp | packages/seller-runtime/src/index.ts:523-594 | messages alternate, Buyer proposals carry rounds 1, 2, 3, ..., and there are at most 21 messages |
| Bargain.RunsEnd | packages/buyer-runtime/src/index.ts:591-620 | at most 112 events of any run find something to do |
| Bargain.NeverStuck | packages/buyer-runtime/src/index.ts:530-547 | until an outcome is published some event is due |
| Bargain.EveryRunCanFinish | packages/buyer-runtime/src/index.ts:564-620 | from every reachable state, with any providers, an outcome is reached |
| Conversation.Talk.constructor | packages/buyer-runtime/src/index.ts:42-77 | two new runtime processes |
| Conversation.Talk.Begin | packages/buyer-runtime/src/index.ts:690-844 | objects that have had any sessions join a room, lock limits, take the key, hear of the peer and start: they are in the state of a first session, with the earlier record kept |
| Conversation.Talk.Happen | packages/seller-runtime/src/index.ts:451-594 | one event on the objects and the packets between them is one step of the system |
| Conversation.HaveSession | packages/buyer-runtime/src/index.ts:479-666 | a session of objects that have run before, driven by any events, is the run of a first session: no handler throws, one outcome at most is added, and a published price is within both limits of that session and known, or about to be, to the Seller |
| Conversation.Converse | packages/buyer-runtime/src/index.ts:479-708 | any sessions one after another on the same objects: outcomes and operations on record are those of the separate runs, and nothing ever throws |
| Play.RunsFollowPlay | packages/buyer-runtime/src/index.ts:479-666 | for fixed providers the order of events does not matter: every run sends a prefix of one script and ends with its outcome |
| Play.PlayIsReached | packages/buyer-runtime/src/index.ts:591-666 | every run can be continued until the script is complete |
| Scenario.ChooseCandidate | scripts/openai-negotiation-eval.mjs:6-20 | one request, then the fallback, and which of the two it was; throws exactly for an invalid context |
| Scenario.RunNegotiationScenario | scripts/openai-negotiation-eval.mjs:21-123 | the loop computes the round-by-round verdict with its count of model moves, at most two a round and the opening, and throws exactly for invalid limits or reference |
| Scenario.OneRequestIsEnough | scripts/openai-negotiation-eval.mjs:6-20 | for a deterministic provider three requests with offset zero choose what one request without an offset chooses |
| Scenario.RuntimesRefineTheLoop | scripts/openai-negotiation-eval.mjs:64-123 | when the loop settles, every message-passing run settles at the same price in the same round; verdicts differ only after a Seller decline |
| Closing.BuyerOpens | packages/agent-core/src/index.ts:731-783 | an unattended Buyer opens a round with its shifted rung, or not at all |
| Closing.BuyerCounters | packages/agent-core/src/index.ts:731-783 | an unattended Buyer accepts at or below its next rung, else moves to that rung, else stops |
| Closing.SellerResponds | packages/agent-core/src/index.ts:731-783 | an unattended Seller accepts at or above its rung, else names its rung, else declines |
| Closing.FirstAcceptableIsLeast | packages/buyer-runtime/src/index.ts:530-547 | the round in the closed form is the least one whose closing price the Seller can take |
| Closing.FallbackOutcome | packages/buyer-runtime/src/index.ts:530-620 | for every reference price, the exact outcome of every finished unattended run, from the public ladder and the two limits alone |
| Closing.EveryRoundCloses | packages/agent-core/src/index.ts:731-783 | from any round on: it closes there at the Buyer's or the Seller's rung, or goes on, or ends, as the closed form says |
| Closing.ClosedFormMeans | packages/buyer-runtime/src/index.ts:530-620 | it settles if and only if the first round that can close at a price the Seller takes does so at one the Buyer affords, and that round is 6 or later |
| Closing.NothingClosesEarly | packages/agent-core/src/index.ts:378-403 | up to round 5 no round has a closing price |
| Closing.RegularOutcome | packages/agent-core/src/index.ts:378-403 | for multiples of 250 from 500 on, and for any reference from 12500 on: it settles if and only if some closing price of rounds 6 to 10 lies within both limits, at the first one the Seller can take |
| Privacy.StricterRunsArePrefixes | packages/agent-core/src/index.ts:750-782 | for two runs: what is sent under a stricter Buyer limit is a prefix of what is sent under a looser one |
| Privacy.PricesAreRungs | packages/agent-core/src/index.ts:750-782 | every price of an unattended run is a public rung of its round, shifted by the offset: the sender's own in a proposal, the other party's in an acceptance; the proposals of each party go through its rungs in order |
| Privacy.ReplyIsEquivariant | packages/agent-core/src/index.ts:609-688 | a provider is asked the same question whatever the offset, and its choice comes out shifted |
| Privacy.FallbackShifts | packages/agent-core/src/index.ts:647-659 | the fallback's reply is shifted by the offset, and the last check of the actual limit never rejects it |
| Privacy.RunsAreEquivariant | packages/agent-core/src/index.ts:606-688 | a whole unattended run with an offset is the computation on limits moved the other way, with every price shifted, for all limits |
| Privacy.CentredRunsShift | packages/agent-core/src/index.ts:606-688 | where the moved limits are limits again, it is a run without an offset with every price shifted |
| Commitments.LimitBinds | packages/negotiation-contract/src/negotiation.compact:123-136 | a limit commitment fixes deal, side, key, limit and randomness |
| Commitments.PriceBinds | packages/negotiation-contract/src/negotiation.compact:138-145 | a price commitment fixes deal, price and randomness |
| Commitments.PublicKeyBinds | packages/negotiation-contract/src/negotiation.compact:116-121 | a public key fixes its secret |
| Commitments.KindsDiffer | packages/negotiation-contract/src/negotiation.compact:116-145 | keys, limit commitments and price commitments are never one another, nor the empty value |
| Contract.NegotiationContract.constructor | packages/negotiation-contract/src/negotiation.compact:32-45 | the deployed ledger |
| Contract.NegotiationContract.RunJoinDeal | packages/negotiation-contract/src/negotiation.compact:47-60 | accepted only from the Seller of a waiting deal; otherwise nothing changes |
| Contract.NegotiationContract.RunAuthorize | packages/negotiation-contract/src/negotiation.compact:62-79 | accepted only from the Buyer of an open deal, with its committed limit and a price within it |
| Contract.NegotiationContract.RunSettle | packages/negotiation-contract/src/negotiation.compact:81-102 | accepted only from the Seller of an authorised deal, with its committed limit and the committed price within it |
| Contract.NegotiationContract.RunCancel | packages/negotiation-contract/src/negotiation.compact:104-114 | accepted only from that party and never after settlement |
| Contract.NegotiationContract.RunCall | packages/negotiation-contract/src/negotiation.compact:47-114 | a call is accepted or changes nothing |
| Contract.RunAll | packages/negotiation-contract/src/negotiation.compact:32-114 | a deployed contract that runs any calls is in the state of replaying them |
| Contract.After | packages/negotiation-contract/src/negotiation.compact:47-114 | one call moves the status forward at most, leaves final ledgers alone, and writes each commitment only on its own transition |
| Contract.SettledPriceWithinLimits | packages/negotiation-contract/src/negotiation.compact:32-146 | for any calls by anyone with any witnesses, a settled ledger has exactly one opening, price and randomness, and its price lies within the two committed limits |
| Contract.ReplayEvolves | packages/negotiation-contract/src/negotiation.compact:47-114 | over all call sequences the status only moves forward, final states are absorbing, commitments are frozen once written |
| Contract.OutsidersChangeNothing | packages/negotiation-contract/src/negotiation.compact:47-121 | without one of the two secrets no call changes the deal |
| Contract.JoiningIsTheSellers | packages/negotiation-contract/src/negotiation.compact:47-60 | with the keys of two parties, a deal is joined exactly by the Seller's secret while it waits |
| Contract.AuthorizingIsTheBuyers | packages/negotiation-contract/src/negotiation.compact:62-79 | an open deal is authorised exactly by the Buyer's secret with its committed limit and a price within it |
| Contract.SettlingIsTheSellers | packages/negotiation-contract/src/negotiation.compact:81-102 | an authorised deal is settled exactly by the Seller's secret with its committed limit and the committed price at or above it |
| Contract.CancellingIsOnesOwn | packages/negotiation-contract/src/negotiation.compact:104-114 | a cancellation as Buyer cancels an unsettled deal exactly with the Buyer's secret, one as Seller exactly with the Seller's |
| Settlement.SettledOnChainIsTheAgreement | packages/buyer-runtime/src/index.ts:365-394 | a settled ledger commits to the Buyer's published amount, which is the Seller's agreed price, within both committed limits and the corridor of the ladder |
| Settlement.OpeningsAlwaysMatch | packages/seller-runtime/src/index.ts:478-495 | an opening always names the agreed price, so the mismatch branch is never taken |
| Settlement.HonestAuthorizationPasses | packages/negotiation-contract/src/negotiation.compact:62-79 | the Buyer's authorisation is not rejected while the deal is open |
| Settlement.HonestSettlementPasses | packages/negotiation-contract/src/negotiation.compact:81-102 | the Seller's settlement is not rejected while the deal is authorised |
| Settlement.FailedNegotiationsNeverSettle | packages/buyer-runtime/src/index.ts:578-589 | after a cancelled negotiation the deal is open or cancelled, never authorised |
| Settlement.FailuresCanCancel | packages/buyer-runtime/src/index.ts:396-407 | after a failed negotiation the Buyer's own cancellation takes an open deal to CANCELLED |
| Settlement.LostCancellationsLeaveItOpen | packages/buyer-runtime/src/index.ts:578-589 | there is no second attempt: if the Buyer broke off or its cancellation was lost, the deal stays open whatever follows |
| Settlement.BrokenSettlementsCanCancel | packages/seller-runtime/src/index.ts:417-424 | after a failed settlement the Seller's own cancellation takes the deal to CANCELLED |
| Settlement.BothHoldTheOpening | packages/seller-runtime/src/index.ts:343-365 | once settled, the stores of both parties hold the opening, and it fits the chain |
| Settlement.AgreementsCanSettle | packages/buyer-runtime/src/index.ts:365-394 | while no chain step has been lost, every agreement can be continued to a settled ledger |
| Vault.ContractMovesForward | packages/negotiation-contract/src/negotiation.compact:47-114 | between two reads a public deal keeps its identity, and a final one does not change |
| Vault.EvidenceShowsTheSettlement | packages/evidence/src/finalize.ts:44-78 | evidence that verifies against a deployed contract, after any calls by anyone, shows the one price and randomness the deal settled with, within both committed limits |
| Vault.BuiltEvidenceVerifies | packages/evidence/src/finalize.ts:236-256 | evidence built from a store verifies exactly when the recorded deal is the one on chain, settled, with this opening |
| Vault.EvidenceIsSealed | packages/evidence/src/evidence.ts:127-165 | encrypted evidence is read back exactly under its own key, and under no other header |
| Vault.SafeTransitive | packages/evidence/src/finalize.ts:171-303 | what every step owes to files, stores and records adds up over any number of steps |
| Vault.UndecidedSessionsKeepEverything | packages/evidence/src/finalize.ts:182-217 | over any run, a session whose deal is not final, not identified, unnamed or on another network keeps its record, opening and signing key, and the evidence of a deal that is not final stays as it is |
| Convergence.LeftIfPassedOver | packages/evidence/src/finalize.ts:293-302 | after a calm run a session is left to do exactly if it was passed over |
| Convergence.OneContractEachNeedsOneRun | packages/evidence/src/finalize.ts:293-302 | with one session per contract no session is passed over |
| Recovery.Host.ReadDealState | packages/evidence/src/finalize.ts:196-200 | a read gives the current deal or nothing |
| Recovery.Host.LoadEvidence | packages/evidence/src/evidence.ts:127-165 | evidence is returned only from a file that opens under the party's key and whose header matches |
| Recovery.Host.Check | packages/evidence/src/finalize.ts:44-78 | evidence is confirmed only if it verifies against the chain, and always if it does and the chain is reachable |
| Recovery.Host.WriteEvidence | packages/evidence/src/evidence.ts:177-203 | a stop leaves the old file or the new one |
| Recovery.Host.WriteRecord | packages/evidence/src/finalize.ts:99-110 | a record is replaced as a whole or not at all |
| Recovery.Host.SaveEvidence | packages/evidence/src/evidence.ts:216-236 | reported as saved only when the file at the path opens, names this session and verifies |
| Recovery.Host.FindEvidence | packages/evidence/src/finalize.ts:226-234 | existing evidence counts only if it names this role, network, contract and deal and verifies |
| Recovery.Host.Erase | packages/midnight-adapter/src/index.ts:573-576 | private state, then signing key; a stop in between loses no price |
| Recovery.Host.MarkCleaned | packages/evidence/src/finalize.ts:203-210 | erased first, then marked |
| Recovery.Host.FinishSettled | packages/evidence/src/finalize.ts:220-270 | evidence first, then the mark, and only then the erasure; when evidence cannot be had nothing is erased |
| Recovery.Host.FinalizeSession | packages/evidence/src/finalize.ts:171-270 | safe at every point where it may stop; a deal that is not final keeps everything; no other session is touched; without faults it finishes exactly what can be finished; a session is kept for the reason it reports |
| Recovery.Host.ReadSessionRecords | packages/evidence/src/finalize.ts:112-133 | all records of the role, each once, in the order of their file names |
| Recovery.Host.RemoveTemporaries | packages/evidence/src/finalize.ts:285-293 | only this role's partial writes go |
| Recovery.Host.RecoverList | packages/evidence/src/finalize.ts:293-302 | record by record: each session is finished if it could be at its turn and stays as it was otherwise |
| Recovery.Host.RecoverSessions | packages/evidence/src/finalize.ts:275-303 | safe at every point, which includes that undecided sessions keep everything; the other role is untouched; without faults all that can be finished is, and nothing is left exactly if no session was passed over |
| Recovery.QuietUnlessPassedOver | packages/evidence/src/finalize.ts:293-302 | after a calm run there is nothing left to do exactly if no session was passed over |
| Recovery.SecondRunPassesNoneOver | packages/evidence/src/finalize.ts:226-234 | a calm run that follows another one passes no session over: what the first made finishable it did by evidence, which serves all sessions of the deal |
| Recovery.PassedOverIsFinished | packages/evidence/src/finalize.ts:293-302 | a second calm run finishes every session that the first one passed over |
| Recovery.SecondRun | packages/evidence/src/finalize.ts:275-303 | a second calm run touches nothing exactly if the first one passed nothing over, and leaves nothing to do |
| Recovery.Host.CrashThenRecover | packages/evidence/src/finalize.ts:161-303 | after any crashes, one recovery without faults closes every session whose deal is cancelled, with or without an opening, or is settled and can be shown: marked, erased, with good evidence if settled and none written if cancelled; a second one finishes what was passed over and otherwise changes nothing; further ones change nothing |
| Recovery.Host.RecoverRepeatedly | packages/evidence/src/finalize.ts:275-303 | once there is nothing to do, any number of calm recoveries change nothing |
| Recovery.Host.LiveThrough | packages/evidence/src/finalize.ts:171-303 | any number of processes of both parties, each stopping anywhere, keep all guarantees |
| Recovery.Host.HonestPartyRecovers | packages/evidence/src/finalize.ts:220-270 | a party of a deal that settled, after any crashes and one recovery, has erased its secrets and holds evidence of exactly the agreed price |
| Recovery.HonestSettlementsAreDecided | packages/evidence/src/finalize.ts:220-256 | with the store a party has after settling, its session is one that recovery closes |
| Recovery.SharedContractsNeedTwoRuns | packages/evidence/src/finalize.ts:236-238 | two recoveries of a Seller with two records of one settled deal: the first leaves the record without an opening, the second finishes it |
| Relay.ServingKeeps | packages/room-relay/src/server.ts:79-208 | over every sequence of frames and closings, rooms and clients describe the same authenticated registrations, one per role and room, with no empty room |
| Relay.OnlyProperPacketsReachTheWire | packages/room-relay/src/server.ts:137-166 | every forwarded packet goes to the opposite role of the same session, and per registration sequences increase strictly and nonces differ |
| Relay.ForwardedExactlyWhen | packages/room-relay/src/server.ts:137-166 | a packet is forwarded exactly when its sender is registered for it, it is newer and its nonce fresh, and the peer is registered |
| Relay.PartiesGetEachOthersKey | packages/room-relay/src/server.ts:117-134 | the second registration of a session sends each party exactly the key the other registered |
| Relay.AdmittedExactlyWhen | packages/room-relay/src/server.ts:71-115 | in every reachable state a registration is admitted exactly if its socket is new, its token is the one of its role, every client of the session has its product code, and its role is free |
| Relay.RefusedRegistrationsAreToldWhy | packages/room-relay/src/server.ts:79-115 | a refused registration is answered with one error, by the first of those conditions that fails, and only its own socket is ended |
| Relay.RefusedPacketsAreToldWhy | packages/room-relay/src/server.ts:137-166 | a refused packet is answered with one error, by the first condition that fails, and changes nothing |
| Relay.HonestPairIsJoined | packages/room-relay/src/server.ts:79-135 | on an idle server two registrations of one room with the right tokens, in either order, deliver both keys, and the first packet then goes through |
| Relay.RelayServer.AcceptRegistration | packages/room-relay/src/server.ts:79-135 | token, product code and free role are required, in this order; a full room exchanges keys |
| Relay.RelayServer.AcceptPacket | packages/room-relay/src/server.ts:137-166 | the errors in their order; a forwarded packet updates the one client object that room and client map share |
| Relay.RelayServer.AcceptClose | packages/room-relay/src/server.ts:197-208 | the client leaves its room, and an empty room goes |
| Relay.RelayServer.Accept | packages/room-relay/src/server.ts:174-208 | the server does what the model of its events says |
| Relay.ServeAll | packages/room-relay/src/server.ts:79-208 | the server object driven by any events is in the state of that run, so only proper packets reach its wire |
| Framing.Connection.AcceptChunk | packages/room-relay/src/index.ts:375-405 | the loop delivers exactly the non-empty newline-ended pieces and keeps the rest; a buffer over the limit ends the connection unread |
| Framing.Connection.AcceptAll | packages/room-relay/src/index.ts:375-405 | over a whole stream, however split, only its frames are delivered, and within the limit all of them |
| Framing.ReadingResumes | packages/room-relay/src/server.ts:181-195 | reading may stop anywhere, only the remainder matters |
| Framing.ChunkingDoesNotMatter | packages/room-relay/src/server.ts:174-196 | two splits of one stream that stay within the limit read the same |
| Framing.MessagesArrive | packages/room-relay/src/index.ts:350-366 | messages written with a newline each arrive whole, in order and once |
| Framing.NothingIsInvented | packages/room-relay/src/index.ts:375-381 | also when the limit is hit, what was read is a prefix of the stream's frames |
| Framing.SinglySurvivesIffLinesFit | packages/room-relay/src/index.ts:375-381 | read character by character, a stream stays within the limit exactly when its lines do |
| Framing.SurvivorsHaveShortLines | packages/room-relay/src/index.ts:375-381 | a stream that survives any split has lines within the limit |
| Framing.LengthIsThatOfTheBytes | packages/room-relay/src/index.ts:377 | the length that is limited is the number of bytes of an encoding from which the text is read back |
| Controller.StartsAreJustified | packages/demo-controller/src/orchestrator.ts:852-874 | a session is started at most once, and only after both commitments, both relay channels and on chain the observed opening |
| Controller.NoStartIsLost | packages/demo-controller/src/orchestrator.ts:737-874 | once both commitments, both channels and on chain the opening are reported, and while both parties run, the session has been started exactly once on each side or is announced and waits for its display timer; when that has fired nothing else is waited for |
| Controller.ControlAnnounces | packages/demo-controller/src/orchestrator.ts:737-850 | while both parties run, two commitments make a session ready, and a ready session is announced as soon as it is open |
| Controller.AgreementIsShownRightly | packages/demo-controller/src/orchestrator.ts:587-1009 | each panel shows an agreed amount at most once, both the same, and it is that of the accepted settlement; none after a cancelled negotiation; and it is shown or still due unless the chain cancelled the deal |
| Controller.RuntimeController.AcceptJoinEvent | packages/demo-controller/src/orchestrator.ts:511-537 | a join forgets the commitment of the role and may match a room |
| Controller.RuntimeController.TryReadySession | packages/demo-controller/src/orchestrator.ts:737-780 | both commitments make a session ready once |
| Controller.RuntimeController.AnnounceNegotiation | packages/demo-controller/src/orchestrator.ts:816-850 | announced once, never after the end, on chain only when open |
| Controller.RuntimeController.TryStartNegotiation | packages/demo-controller/src/orchestrator.ts:852-874 | starts when everything is there, once |
| Controller.RuntimeController.AcceptOutcomeMessage | packages/demo-controller/src/orchestrator.ts:876-1009 | only the first outcome of a started session is taken |
| Controller.RuntimeController.AcceptObserverEvent | packages/demo-controller/src/orchestrator.ts:587-659 | what each public state triggers; a settlement without an amount is an error |
| Controller.RuntimeController.Fire | packages/demo-controller/src/orchestrator.ts:833-849 | what a timer does when it fires |
| Controller.RuntimeController.Accept | packages/demo-controller/src/orchestrator.ts:231-325 | the controller does what the model of its events says, also when a send fails half-way |
| Controller.ControlAll | packages/demo-controller/src/orchestrator.ts:231-325 | the controller object driven by any events is in the state of that run, with justified starts and at most one amount on each panel |
| Panels.HandleAdds | packages/demo-controller/src/orchestrator.ts:511-1009 | what each event adds to a panel and to the commands of a process, in full |
| Panels.OffChainStory | packages/demo-controller/src/orchestrator.ts:816-1009 | without a chain, over all runs: a panel shows a session as started, negotiating and complete, then the ending of its accepted outcome in order and as far as its timers have fired, and nothing else |
| Panels.SessionsStandFine | packages/demo-controller/src/orchestrator.ts:816-1009 | over all runs: shown before started, started before ended, and the timers left of a session are exactly those still to fire |
| Panels.FinalizedAsOftenAsEnded | packages/demo-controller/src/orchestrator.ts:606-656 | over all runs: each party is told to finalise a session as often as the chain has cancelled it, or settled it while an amount was awaited, and never without a chain |
| Panels.CancelledAsOftenAsReported | packages/demo-controller/src/orchestrator.ts:606-622 | on chain, over all runs: a panel shows a cancellation as often as the chain reports one |
| Panels.SettledAfterAgreed | packages/demo-controller/src/orchestrator.ts:623-656 | on chain, over all runs: a settlement is shown right after an agreed amount of the session, and no amount without it |
| Panels.ToldOnce | packages/demo-controller/src/orchestrator.ts:737-874 | over all runs: each party is told once that its peer is ready and once to start, exactly if the session is ready or started |
| Panels.PublishedIfShown | packages/demo-controller/src/orchestrator.ts:921-1009 | without a chain the observer is never told to publish a state more often than a panel has shown it |
| Panels.PublishedAsShown | packages/demo-controller/src/orchestrator.ts:770-1009 | from the moment the observer is configured, and while it runs, it is told to publish each state as often as it is shown |

## Left out

- Provider requests over HTTP, prompts and response extraction: a provider is an arbitrary function of context and request number that fails or returns a list.
- Cryptography: hashes are injective terms, key derivation is an arbitrary function, sealed evidence opens only under the same key and header. That the off-chain commitment code agrees with the circuits is built in by using one definition for both.
- Wallets, deployment, the exchange of the contract address and the Seller's key, and process start-up: `Settlement` starts from a deal that the Buyer deployed and the Seller joined with their real limits.
- Product codes and session identifiers as text, JSON and key checks of messages: typed values stand for parsed messages. Prices are integers, an unparsable price one that is out of range.
- Joining another room while a reply or a timer of the last one is still under way; sessions follow one another. Both ends of `Bargain` are honest and share one offset; `Alone` makes no such assumption about the other end.
- A second peer key while a reply is being computed: the model takes the limit and the offset of a reply when it is finished, the runtimes when it is begun. A locked limit is the same at both times.
- Wall-clock time: asynchronous replies are later steps in any order, and so are timers, except that the timers of one session fire in the order of their delays.
- Closing.FallbackOutcome: does not cover reference prices so high that a shifted rung is no uint64 amount, where the ladder has gaps; the results about all runs do.
- Privacy.StricterRunsArePrefixes: is about the Buyer's limit; a stricter Seller may decline where it would have accepted, so whole transcripts are no prefixes, and only the single reply is compared in Fallback.LimitsNeverShapeAPrice.
- Offset.DeriveSessionPriceOffset: assumes that some attempt is accepted at some point; for an arbitrary derivation the loop need not end.
- Recovery.Host.ReadSessionRecords: sessions are numbers in the order of their file names; names that are no session record, and unreadable records, are not modelled.
- Recovery.Host.SaveEvidence: leaves out the time stamp of evidence and records, file modes and directory syncing.
- Controller.RuntimeController.Accept: leaves out message codes, replacement keys, the funding process, passed-on progress events of the runtimes, and shutdown.
- Relay.RelayServer.Accept: leaves out how a frame is parsed; a frame arrives as a registration, a packet or unreadable.
- Witness functions and the observer process, key stores, launch scripts and the browser interface: each is settled by reading one branch or outside the protocol.
