# A Dafny model of Netrix's protocols under test

The repository holds the Netrix test harness and the systems it is run against: a Tendermint node and a
Raft key-value store. This project models their stateful cores and proves what they are for, over every
input and every run.

- **Consensus.** `Quorum` and `VoteSet` count votes by power. `Consensus` is the state machine of one node
  as functions; `ConsensusState` is the same machine as an object updated in place, proved equal to them
  step by step; `Ticker` is its timer. `Discipline`, `NodeInvariant`, `Progress`, `LockHistory` and
  `Network` lead to agreement, single voting and the persistence of locks in every run of any number of nodes
  with faulty validators; `Ballots`, `Validity` and `Transitions` say what every step votes, that only valid
  blocks are voted for and finalised, and what each transition does. `CommitStep` and `RelockRound` are about
  two things a node may do against expectation.
- **Light client.** `LightVerifier` checks headers; `LightClient` is the client around it (bisection,
  sequential verification, replacement of the primary, the store) and the search for the point where a
  witness departs from a trace.
- **Event graph.** `EventDag` shows that the order of the vector clocks is happened-before between the events
  added, and reachability in the graph.
- **Recovery.** `Recovery` puts a crash between any two durable writes and recovers from it; `WalMessages`
  and `Wal` are the log of consensus messages, its repair and its search.
- **Peers.** `PeerStore` keeps a ranking cached over heap objects; `PeerManager` is the life of a connection.
- **Pools.** `Evidence` commits misbehaviour at most once; `Mempool` keeps its accounts and its order.
- **Raft application.** `Raft` applies every committed entry once, across batches and snapshots.

Code that computes is modelled by functions and lemmas. Code that changes state is modelled by classes and
loops whose contracts tie the new state to a specification; run theorems are then about those classes or
about the functions they are proved equal to. Integers are unbounded unless said otherwise (64-bit indices
in `Raft`, the 32-bit counter in `Evidence` and the 32-bit words of `Wal` wrap or are bounded as in the
source). Hashes are injective, so a block, header or transaction stands for its hash.

What the source calls outside the modelled code is a parameter: signing, block execution, validity of
blocks and evidence, the answers of providers and witnesses, the application, clocks, checksums and
protobuf marshalling (an inverse pair). The Raft library's promises about its batches and snapshots, and
the trust assumption of the light client, are stated as predicates.

Where the code and its comments differ the code is followed. Two properties that one may expect do not hold,
and for each the exact condition and a run from the initial state are given: the commit step can be left by a
skip of rounds (`Network.CommitStepLeft`, `CommitStep.CommitStepIsLeft`), and the locked round can pass the
valid round by relocking (`Network.LockPassesValid`, `RelockRound.LockPassesValidInRun`).

Verify with `dafny verify dfyconfig.toml`.

## Model

| member | source | states |
|---|---|---|
| `Quorum.PowerInclusionExclusion` | tendermint/codebase/types/validator_set.go:298-321 | The power of two sets of validators and of their union and intersection balance, for every validator set. |
| `Quorum.PowerOfList` | tendermint/codebase/types/validator_set.go:298-321 | Power adds up along the list of validators, one at a time, and all of it is the total. |
| `Quorum.QuorumSizeIsTwoThirds` | tendermint/codebase/types/vote_set.go:278-300 | Reaching `TotalVotingPower*2/3 + 1` in integer arithmetic is the same as more than two thirds of the power. |
| `Quorum.QuorumIntersection` | tendermint/codebase/types/vote_set.go:278-300 | With faulty power below a third, any two quorums share a correct validator. |
| `Quorum.ThirdHasCorrect` | tendermint/codebase/light/verifier.go:171-178 | With faulty power below a third, more than a third of the power contains a correct validator. |
| `VoteSets.AddVerifiedVoteValid` | tendermint/codebase/types/vote_set.go:231-302 | Counting a vote keeps the sums equal to the power of the votes behind them, keeps the majority backed by its votes, and invents no vote. |
| `VoteSets.AddVoteValid` | tendermint/codebase/types/vote_set.go:143-227 | Adding a vote keeps the vote set valid, whether the vote is new, repeated or conflicting. |
| `VoteSets.AddVoteCounts` | tendermint/codebase/types/vote_set.go:143-259 | When a vote counts: it fits, is new and signed, and is its validator's first or for a block that a peer claims; one that does not count changes at most the primary vote, to the majority block. |
| `VoteSets.AddVoteTallies` | tendermint/codebase/types/vote_set.go:231-302 | A counted vote joins the votes for its block and no other, and the first block with a quorum becomes the majority. |
| `VoteSets.SetPeerMaj23Valid` | tendermint/codebase/types/vote_set.go:309-342 | A peer's claim of a majority changes which conflicting votes are tracked and nothing about who voted what. |
| `VoteSets.SetPeerMaj23Claims` | tendermint/codebase/types/vote_set.go:309-342 | The first claim of a peer is kept and its block tracked; votes and majority stay. |
| `VoteSets.AnyAndAll` | tendermint/codebase/types/vote_set.go:413-426 | The two thresholds on the sum are more than two thirds, and all, of the power that voted. |
| `VoteSets.AddHeightVoteGood` | tendermint/codebase/consensus/types/height_vote_set.go:117-137 | All rounds of a height stay valid when a vote arrives, including one that opens a catch-up round. |
| `VoteSets.AddHeightVoteGoes` | tendermint/codebase/consensus/types/height_vote_set.go:117-137 | A vote goes to the set of its round and type only; an unknown round is opened for a peer at most twice. |
| `VoteSets.HeightClaimGoes` | tendermint/codebase/consensus/types/height_vote_set.go:185-202 | A claim goes to the set of its round and type, if the round is tracked. |
| `VoteSets.SetRoundGood` | tendermint/codebase/consensus/types/height_vote_set.go:86-113 | Opening the rounds up to a new one keeps every vote set valid. |
| `VoteSets.SetRoundTracks` | tendermint/codebase/consensus/types/height_vote_set.go:86-113 | Which rounds are tracked after opening rounds up to a new one: those before, and all from one before the current to the new. |
| `VoteSets.PolRoundIsHighest` | tendermint/codebase/consensus/types/height_vote_set.go:153-164 | The polka round found by scanning down is the highest round with a prevote majority. |
| `VoteSets.PolRoundIsNone` | tendermint/codebase/consensus/types/height_vote_set.go:153-164 | It is -1 exactly if no round has a prevote majority. |
| `Discipline.NoOtherPolka` | tendermint/codebase/consensus/state.go:1280-1311 | After a precommit quorum for a block, no prevote quorum for anything else can be signed in a later round: the induction is over the order of signing. |
| `Discipline.PrecommitQuorumsAgree` | tendermint/codebase/consensus/state.go:1350-1469 | Two precommit quorums for blocks at one height are for the same block, in the same or different rounds. |
| `Discipline.DisciplinedOwn` | tendermint/codebase/consensus/state.go:2206-2240 | A vote that keeps the rules (one per step, precommit after a polka, prevote the lock unless a newer polka released it) extends a disciplined history. |
| `NodeInvariant.SignStep` | tendermint/codebase/consensus/state.go:2206-2293 | Signing a vote at the step being entered keeps the node invariant: the vote is the only one of its kind for the round and respects the lock. |
| `NodeInvariant.MajorityIsQuorum` | tendermint/codebase/types/vote_set.go:430-440 | A majority reported by a vote set is a quorum of votes that were really signed. |
| `NodeInvariant.EnterNewRoundInv` | tendermint/codebase/consensus/state.go:988-1058 | Entering a round keeps the node invariant. |
| `NodeInvariant.EnterProposeInv` | tendermint/codebase/consensus/state.go:1079-1144 | Entering the propose step keeps the node invariant. |
| `NodeInvariant.EnterPrevoteInv` | tendermint/codebase/consensus/state.go:1254-1311 | The prevote follows the lock, and the node invariant is kept. |
| `NodeInvariant.EnterPrecommitInv` | tendermint/codebase/consensus/state.go:1350-1469 | Each of the six branches (no polka, nil polka, relock, lock, invalid block, unlock) keeps the node invariant. |
| `NodeInvariant.LockAfterPolka` | tendermint/codebase/consensus/state.go:1369-1469 | Changing the lock after a newer polka leaves every earlier precommit backed by the lock or by that polka. |
| `NodeInvariant.EnterCommitInv` | tendermint/codebase/consensus/state.go:1504-1564 | Entering the commit step keeps the node invariant. |
| `NodeInvariant.FinalizeCommitInv` | tendermint/codebase/consensus/state.go:1595-1736 | A finalised block has a precommit quorum, and the invariant holds at the next height. |
| `NodeInvariant.UpdateToStateInv` | tendermint/codebase/consensus/state.go:594-699 | Moving to the next height starts without lock, valid block or votes, and keeps the node invariant. |
| `NodeInvariant.SeePolkaInv` | tendermint/codebase/consensus/state.go:2101-2152 | Unlocking on a newer polka and updating the valid block keep the node invariant. |
| `NodeInvariant.AfterPrevoteInv` | tendermint/codebase/consensus/state.go:2096-2173 | Everything an added prevote can trigger keeps the node invariant. |
| `NodeInvariant.AfterPrecommitInv` | tendermint/codebase/consensus/state.go:2175-2196 | Everything an added precommit can trigger keeps the node invariant. |
| `NodeInvariant.AddVoteMsgInv` | tendermint/codebase/consensus/state.go:2034-2203 | Receiving any vote, of this height or late for the last one, keeps the node invariant. |
| `NodeInvariant.CompleteProposalBlockInv` | tendermint/codebase/consensus/state.go:1937-1983 | A completed proposal block updates the valid block only on a polka for it, and keeps the node invariant. |
| `NodeInvariant.HandleTimeoutInv` | tendermint/codebase/consensus/state.go:903-951 | Any timeout that was scheduled, however late it fires, keeps the node invariant. |
| `NodeInvariant.HandleEventInv` | tendermint/codebase/consensus/state.go:829-976 | Every event keeps the node invariant. |
| `Progress.HandleEventLater` | tendermint/codebase/consensus/state.go:2338-2355 | No event lowers (Height, Round, Step); within a height the valid round does not decrease either. |
| `LockHistory.HandleEventMoves` | tendermint/codebase/consensus/state.go:829-976 | No event drops a lock of its height except to a prevote majority for something else in a later round it has entered, and every vote it signs is for a step taken during it. |
| `LockHistory.AddHeightVoteMajority` | tendermint/codebase/consensus/types/height_vote_set.go:117-137 | A vote brings a majority to no round and type but its own, only by being added, and takes none away. |
| `CommitStep.CommitStepLeft` | tendermint/codebase/consensus/state.go:988-1058 | An event takes a waiting node out of the commit step at its height exactly when it is a counted vote that completes a skip to a later round; a block majority in the later round returns to the commit step in that round or finalises. |
| `CommitStep.CommitStepIsLeft` | tendermint/codebase/consensus/state.go:2034-2203 | From the initial state: a precommit of round 0 puts the node into the commit step without its block, and a prevote of round 1 takes it out. |
| `RelockRound.PrecommitOutruns` | tendermint/codebase/consensus/state.go:1350-1469 | A precommit that does not halt puts the locked round above the valid round exactly when the round is above the valid one and its prevote majority is for the locked or the proposal block. |
| `RelockRound.OnlyRelockOutruns` | tendermint/codebase/consensus/state.go:1350-1469 | In states of a run the case of the proposal block cannot occur: only relocking does it. |
| `RelockRound.LockPassesValid` | tendermint/codebase/consensus/state.go:1417-1427 | An event lets the locked round pass the valid round exactly when it makes the node relock in a round above the valid one; no other event does, of any kind. |
| `RelockRound.LockPassesValidInRun` | tendermint/codebase/consensus/state.go:1417-1427 | Seven events from the initial state after which the locked round is above the valid round; every timeout among them was scheduled before. |
| `Ballots.PrevoteVotes` | tendermint/codebase/consensus/state.go:1280-1311 | Entering the prevote step signs, with a key, exactly one prevote of the height and round: for the lock, else for the proposal block exactly if there is one and it is valid, else for nil; nothing else changes. |
| `Ballots.NoPolkaKeepsLock` | tendermint/codebase/consensus/state.go:1370-1382 | Without a prevote majority the precommit step changes nothing but the step and the vote. |
| `Ballots.PolkaLocks` | tendermint/codebase/consensus/state.go:1417-1451 | A majority for the locked block, or for a valid proposal block, is locked in this round. |
| `Ballots.PolkaUnlocks` | tendermint/codebase/consensus/state.go:1395-1469 | A majority for anything else drops the lock and starts to collect its block. |
| `Ballots.PrecommitPanics` | tendermint/codebase/consensus/state.go:1428-1437 | The precommit step panics exactly on a majority for a proposal block that is invalid and not locked. |
| `Ballots.PrecommitVotes` | tendermint/codebase/consensus/state.go:1350-1469 | The precommit step signs exactly one precommit: for a block exactly if it is locked in this round and has its prevote majority. |
| `Ballots.VotesOnEvent` | tendermint/codebase/consensus/state.go:829-976 | Whatever event takes a node to the prevote or the precommit step, the vote of that step is in its outbox and is the one its state then demands. |
| `Validity.HandleEventSound` | tendermint/codebase/consensus/state.go:829-976 | Every event keeps chain, lock, saved block and signed votes valid: blocks are valid on the chain below their height, and those on the chain were executed. |
| `Transitions.OrderIsLexicographic` | tendermint/codebase/consensus/state.go:2338-2355 | Heights, rounds and steps are compared lexicographically. |
| `Transitions.NewRoundEntered` | tendermint/codebase/consensus/state.go:988-1034 | When a round is entered, what is reset and what is kept; it panics exactly when it would lose track of votes. |
| `Transitions.NewRoundWaits` | tendermint/codebase/consensus/state.go:1036-1058 | Round 0 may wait for transactions, with or without a timeout; any other round proposes at once, and prevotes at once if the proposal is complete. |
| `Transitions.ProposeEntered` | tendermint/codebase/consensus/state.go:1079-1144 | Proposing schedules its timeout, and prevotes exactly if the proposal is complete. |
| `Transitions.PrevoteWaitEntered` | tendermint/codebase/consensus/state.go:1314-1342 | The wait for prevotes is entered once in a round, and only with two thirds of any. |
| `Transitions.PrecommitWaitEntered` | tendermint/codebase/consensus/state.go:1472-1501 | The wait for precommits is scheduled once in a round, and only with two thirds of any. |
| `Transitions.CommitEntered` | tendermint/codebase/consensus/state.go:1504-1564 | The commit step is entered once in a height, and only with a precommit majority. |
| `Transitions.CommitCollects` | tendermint/codebase/consensus/state.go:1532-1563 | The commit step takes the locked block as the proposal if it was decided, keeps the decided proposal, and else starts to collect it. |
| `Transitions.CommitFinalises` | tendermint/codebase/consensus/state.go:1567-1736 | A waiting node moves to the next height exactly if it has the decided block and its parts, and the block is valid and executes; a valid block that does not is saved. |
| `Transitions.CommitWaitsOrPanics` | tendermint/codebase/consensus/state.go:1567-1632 | Without the decided block nothing happens; with it, it panics exactly over wrong parts or an invalid block. |
| `Transitions.NextHeightStarts` | tendermint/codebase/consensus/state.go:594-699 | How the next height starts. |
| `Transitions.ProposalCounts` | tendermint/codebase/consensus/state.go:1845-1883 | A proposal counts exactly if it is the first, of this height and round, with an earlier proof of lock and a right signature. |
| `Transitions.PartsCount` | tendermint/codebase/consensus/state.go:1888-1936 | Parts count for this height while some are missing. |
| `Transitions.BlockBecomesValid` | tendermint/codebase/consensus/state.go:1937-1962 | A complete block becomes the valid block exactly if this round's prevotes have a majority for it and none was valid in this round yet. |
| `Transitions.BlockMovesOn` | tendermint/codebase/consensus/state.go:1964-1983 | A complete block leads to the prevote, with a majority also to the precommit, or to finalising. |
| `Transitions.PolkaDropsLock` | tendermint/codebase/consensus/state.go:2100-2122 | A prevote majority drops the lock exactly if the lock is older, on another block, and the round was reached. |
| `Transitions.PolkaMakesValid` | tendermint/codebase/consensus/state.go:2124-2152 | A majority for a block in this round makes it the valid block if it is there, and else collects it. |
| `Transitions.PrevoteMovesOn` | tendermint/codebase/consensus/state.go:2155-2173 | What follows an added prevote: a skip, a precommit, a wait, a prevote, or nothing. |
| `Transitions.PrecommitMovesOn` | tendermint/codebase/consensus/state.go:2175-2196 | What follows an added precommit: a commit, a wait, a skip, or nothing. |
| `Transitions.VoteMovesOn` | tendermint/codebase/consensus/state.go:2034-2094 | Late precommits go to the last commit, votes of this height to their round, others nowhere. |
| `Transitions.TimeoutMovesOn` | tendermint/codebase/consensus/state.go:903-951 | Which timeouts count, and what each does. |
| `Transitions.TransactionsMoveOn` | tendermint/codebase/consensus/state.go:953-976 | Transactions end the wait of round 0. |
| `Network.NextInv` | tendermint/codebase/consensus/state.go:737-901 | Every step of a network of nodes and faulty validators keeps the invariant of all nodes. |
| `Network.RunInv` | tendermint/codebase/consensus/state.go:737-901 | The invariant holds in every state of every run. |
| `Network.RunProgress` | tendermint/codebase/consensus/state.go:2338-2355 | Along every run (Height, Round, Step) of a node never goes back and its chain only grows. |
| `Network.ChainsAgree` | tendermint/codebase/consensus/state.go:1567-1592 | In every reachable state the chains of any two correct nodes agree on their common length. |
| `Network.Agreement` | tendermint/codebase/consensus/state.go:1595-1736 | In every run with faulty power below a third no two different blocks are finalised at one height, by whichever correct nodes, rounds and times. |
| `Network.NoDoubleVote` | tendermint/codebase/consensus/state.go:2206-2293 | In every run a correct node signs at most one prevote and one precommit per height and round. |
| `Network.RunPlaced` | tendermint/codebase/consensus/state.go:737-901 | In every state of every run a lock is from no later round than the node's, and from an earlier one before the precommit; a proposal block with a majority of its round's prevotes is the valid block before the precommit. |
| `Network.LockPersists` | tendermint/codebase/consensus/state.go:1369-1469 | Between any two points of a run at one height a lock is kept, in its round or a later one, unless a quorum prevoted something else in a later round the node has reached; signing or not makes no difference. |
| `Network.LocksHavePolkas` | tendermint/codebase/consensus/state.go:1428-1451 | At every point of a run the locked and the valid block have prevote quorums in their rounds, which are not in the future. |
| `Network.LockDiscipline` | tendermint/codebase/consensus/state.go:1369-1469 | The same from the votes: a block precommitted at the current height is still locked, in its round or a later one, unless a quorum prevoted something else in a later round reached. |
| `Network.VotesInStep` | tendermint/codebase/consensus/state.go:2206-2293 | Every vote a step of a run signs is for the node's height and for a round and step that the node takes in that step. |
| `Network.TimeoutsBehind` | tendermint/codebase/consensus/state.go:903-951 | A pending timeout of the current height never has a round above the node's. |
| `Network.RunValid` | tendermint/codebase/consensus/state.go:1280-1469 | In every run every vote a correct node signed for a block is for a block valid on its chain at that height; its lock and saved block are valid, and its chain holds only blocks valid and executed on the chain before them. |
| `Network.FinalisedIsValid` | tendermint/codebase/consensus/state.go:1630-1636 | Every block finalised in a run is valid on the chain before it. |
| `Network.RunVotes` | tendermint/codebase/consensus/state.go:1254-1469 | In every run a step that takes a node to the prevote or precommit step makes it cast the vote its state then demands. |
| `Network.CommitStepLeft` | tendermint/codebase/consensus/state.go:2034-2203 | In every run a node leaves the commit step at its height exactly by completing a skip to a later round. |
| `Network.LockPassesValid` | tendermint/codebase/consensus/state.go:1393-1427 | In every run the locked round of a node passes its valid round exactly in a step that relocks it past the valid block. |
| `ConsensusState.State.EnterNewRoundStep` | tendermint/codebase/consensus/state.go:988-1058 | The update in place is the transition `EnterNewRound`. |
| `ConsensusState.State.EnterProposeStep` | tendermint/codebase/consensus/state.go:1079-1144 | The update in place is the transition `EnterPropose`. |
| `ConsensusState.State.EnterPrevoteStep` | tendermint/codebase/consensus/state.go:1254-1278 | The update in place is the transition `EnterPrevote`. |
| `ConsensusState.State.SignPrevote` | tendermint/codebase/consensus/state.go:1280-1311 | Signs one prevote: for the lock, else for the proposal block exactly if there is one and it is valid, else for nil. |
| `ConsensusState.State.EnterPrevoteWaitStep` | tendermint/codebase/consensus/state.go:1314-1342 | The update in place is the transition `EnterPrevoteWait`, with a panic where two thirds are missing. |
| `ConsensusState.State.EnterPrecommitStep` | tendermint/codebase/consensus/state.go:1350-1391 | The update in place is the transition `EnterPrecommit`. |
| `ConsensusState.State.SignPrecommit` | tendermint/codebase/consensus/state.go:1393-1469 | Relocks, locks, panics or unlocks as the polka demands. |
| `ConsensusState.State.FindPolRound` | tendermint/codebase/consensus/types/height_vote_set.go:153-164 | The loop over rounds finds the polka round of the specification. |
| `ConsensusState.State.EnterPrecommitWaitStep` | tendermint/codebase/consensus/state.go:1472-1501 | The update in place is the transition `EnterPrecommitWait`. |
| `ConsensusState.State.EnterCommitStep` | tendermint/codebase/consensus/state.go:1504-1564 | The update in place is the transition `EnterCommit`. |
| `ConsensusState.State.TryFinalize` | tendermint/codebase/consensus/state.go:1567-1592 | The update in place is the transition `TryFinalizeCommit`. |
| `ConsensusState.State.Finalize` | tendermint/codebase/consensus/state.go:1595-1736 | The update in place is the transition `FinalizeCommit`. |
| `ConsensusState.State.UpdateTo` | tendermint/codebase/consensus/state.go:594-699 | The update in place is the transition `UpdateToState`. |
| `ConsensusState.State.ReceiveProposal` | tendermint/codebase/consensus/state.go:1845-1883 | The update in place is the transition `SetProposal`. |
| `ConsensusState.State.ReceiveBlockPart` | tendermint/codebase/consensus/state.go:1888-1983 | The update in place is the transition `AddProposalBlockPart`. |
| `ConsensusState.State.PrevoteAdded` | tendermint/codebase/consensus/state.go:2096-2173 | The update in place is the transition `AfterPrevote`. |
| `ConsensusState.State.PrecommitAdded` | tendermint/codebase/consensus/state.go:2175-2196 | The update in place is the transition `AfterPrecommit`. |
| `ConsensusState.State.ReceiveVote` | tendermint/codebase/consensus/state.go:2034-2094 | The update in place is the transition `AddVoteMsg`. |
| `ConsensusState.State.ReceiveTimeout` | tendermint/codebase/consensus/state.go:903-951 | The update in place is the transition `HandleTimeout`. |
| `ConsensusState.State.TransactionsAvailable` | tendermint/codebase/consensus/state.go:953-976 | The update in place is the transition `HandleTxsAvailable`. |
| `ConsensusState.State.Receive` | tendermint/codebase/consensus/state.go:829-901 | Every event updates the object exactly as the network model's step does, so its theorems are about this object; on reaching the prevote or precommit step it has cast the vote its state demands. |
| `Ticker.TimeoutTicker.Schedule` | tendermint/codebase/consensus/ticker.go:99-121 | The timeout held is always the latest by (Height, Round, Step) of all requested, and a later one starts the timer. |
| `Ticker.TimeoutTicker.Expire` | tendermint/codebase/consensus/ticker.go:122-128 | Timeouts are relayed in strictly increasing order, so none is relayed twice or after a later one. |
| `LightVerifier.LightTallySound` | tendermint/codebase/types/validator_set.go:720-766 | The tally of a commit counts each signer's power once. |
| `LightVerifier.TrustingTallySound` | tendermint/codebase/types/validator_set.go:776-830 | The tally against an older set counts each known signer's power once, whatever the order of signatures. |
| `LightVerifier.CommitLightSound` | tendermint/codebase/types/validator_set.go:720-766 | An accepted commit carries more than two thirds of the set. |
| `LightVerifier.CommitTrustingSound` | tendermint/codebase/types/validator_set.go:776-830 | At every trust level that `ValidateTrustLevel` accepts, an accepted commit carries more than a third of the trusted set. |
| `LightVerifier.CommitLightExact` | tendermint/codebase/types/validator_set.go:720-766 | A commit is accepted exactly if sizes and heights agree and some front part of it has right signatures of more than two thirds. |
| `LightVerifier.CommitTrustingExact` | tendermint/codebase/types/validator_set.go:776-830 | Against an older set a commit is accepted exactly if some front part has right signatures, no two of one validator, of more than the trust level; it falls short exactly if all are right and too few. |
| `LightVerifier.VerifyExact` | tendermint/codebase/light/verifier.go:33-184 | When each verdict is given, with the inequalities written out: in particular an expired header (time plus trusting period at most now) is never verified against. |
| `LightVerifier.VerifySound` | tendermint/codebase/light/verifier.go:33-166 | Under the trust assumption a block that verifies against a trusted block has the canonical header of its height. |
| `LightVerifier.CantBeTrustedLeavesRoom` | tendermint/codebase/light/verifier.go:33-87 | Bisection is asked for only when there is a height in between. |
| `LightClient.TraceTrusted` | tendermint/codebase/light/client.go:540-569 | Every block of a verified trace from a trusted block is canonical. |
| `LightClient.TrustedTracesDoNotPart` | tendermint/codebase/light/detector.go:29-146 | While trust holds no witness can part from a trace, so no attack is reported falsely. |
| `LightClient.Pivot` | tendermint/codebase/light/client.go:715-717 | The pivot lies strictly between its bounds, at 9/16 of the way rounded down. |
| `LightClient.Client.VerifySkipping` | tendermint/codebase/light/client.go:673-730 | Bisection asks only for pivots of two blocks at hand that are too far apart, and fails to fetch exactly if the last one asked for did not come. A successful trace runs from trusted to target through blocks it asked for, every pair passing `Verify`; a failed check names a verified chain and the block that fails for good against its end. |
| `LightClient.Client.VerifySequential` | tendermint/codebase/light/client.go:573-664 | Verifying every height, replacing the primary when it sends a bad block, ends in a verified trace with every height to the target, confirmed by a witness; a refusal has its reason in what was sent. |
| `LightClient.Client.VerifySkippingAgainstPrimary` | tendermint/codebase/light/client.go:734-792 | Bisection with replacement of the primary ends in a verified trace to a block with the target's header, confirmed by a witness; a refusal has its reason in what was sent, and for a bad block on the way the primary was replaced first if it could be. |
| `LightClient.Client.SkipTo` | tendermint/codebase/light/detector.go:204-214 | Bisection towards another provider's block fails only if that provider is silent for a height in between, or a verified chain fails for good. |
| `LightClient.Client.CrossReference` | tendermint/codebase/light/client.go:781-789 | A verified trace is accepted only if a witness confirms it, and refused only for want of witnesses or of a match, or for an attack. |
| `LightClient.Client.RetryTarget` | tendermint/codebase/light/client.go:746-779 | The replacement has the target's header, or there is none to be had. |
| `LightClient.Client.ReplacePrimaryProvider` | tendermint/codebase/light/client.go:948-960 | The first witness becomes primary if another one is left. |
| `LightClient.Client.LightBlockFromPrimary` | tendermint/codebase/light/client.go:965-979 | A block is asked of the primary and its replacements in turn: the answer is that of the first that gives one, who becomes the primary, and none only if all but the last witness are silent. |
| `LightClient.Client.ExamineConflictingHeaderAgainstTrace` | tendermint/codebase/light/detector.go:188-234 | On success the returned trace starts at the last agreed block and ends at the first block whose header differs, with all hops verified. No bifurcation is reported only if the source's blocks agree all the way, or stop coming, or do not verify, or start from another block. |
| `LightClient.Client.RemoveWitness` | tendermint/codebase/light/client.go:934-944 | One witness goes, the last takes its place. |
| `LightClient.Client.RemoveWitnesses` | tendermint/codebase/light/detector.go:131-136 | Removing by index from the highest down removes exactly the witnesses complained about. |
| `LightClient.Client.DetectDivergence` | tendermint/codebase/light/detector.go:29-146 | Without an attack every conflicting witness was examined and found without a parting, exactly the witnesses with an invalid header or a conflict are removed, and the header is accepted exactly when a witness matched; an attack is reported only when a witness conflicts and blocks part from the trace, and then no witness is removed. |
| `LightClient.Client.Prune` | tendermint/codebase/light/store/db/db.go:222-279 | Keeps exactly the highest blocks, as many as asked. |
| `LightClient.Client.UpdateTrustedLightBlock` | tendermint/codebase/light/client.go:874-890 | Saving and pruning keep the store's counter right and `latest` its highest block. |
| `LightClient.Client.LightBlockBefore` | tendermint/codebase/light/store/db/db.go:184-216 | The highest stored block below a height. |
| `LightClient.Client.ClosestTrusted` | tendermint/codebase/light/client.go:536-562 | Chooses the latest block, or the closest one below, or sends the request backwards. |
| `LightClient.Client.VerifyLightBlock` | tendermint/codebase/light/client.go:518-570 | A block is verified against the closest stored one below it, saved exactly when accepted with pruning down to the size allowed, and refused only for a reason in what was sent. |
| `LightClient.Client.VerifyLightBlockAtHeight` | tendermint/codebase/light/client.go:435-455 | A stored block is returned; else the first block that a provider has for the height is verified; heights of 0 and below are refused. |
| `LightClient.Client.VerifyHeader` | tendermint/codebase/light/client.go:485-516 | A stored header decides by itself; else the block fetched for its height must have this header and be verified. While trust holds an accepted header is canonical. |
| `LightClient.Client.Update` | tendermint/codebase/light/client.go:397-423 | The primary's latest block is verified if it is above the store; otherwise nothing changes. |
| `LightClient.Client.Serve` | tendermint/codebase/light/client.go:518-570 | Every sequence of requests keeps every stored block canonical. |
| `EventDag.Lt` | netrix/types/vector_clocks.go:9-23 | The loop decides: at most in every entry and less in one. |
| `EventDag.Eq` | netrix/types/vector_clocks.go:25-35 | The loop decides equality. |
| `EventDag.NewEntry` | netrix/types/dag.go:200-221 | A positive entry of another replica is some parent's, and the event's own entry is one more than its replica's latest. |
| `EventDag.ParentsAtMost` | netrix/types/dag.go:200-221 | A new clock is at least every parent's clock. |
| `EventDag.GraphAdd` | netrix/types/dag.go:231-260 | Adding an event keeps parents and children mirrored and pasts equal to ancestry. |
| `EventDag.CausalAdd` | netrix/types/dag.go:200-221 | Adding an event keeps the clocks in step with ancestry. |
| `EventDag.AddInv` | netrix/types/dag.go:200-260 | Adding an event keeps the whole invariant. |
| `EventDag.AddEnters` | netrix/types/dag.go:231-260 | What an addition does: its parents are the given events that are in the graph and the previous event of its replica; links, strand and clock follow. |
| `EventDag.RunRecords` | netrix/types/dag.go:231-260 | In every run the parents of an event are exactly its causes among the additions, strands link consecutive events of a replica from the first to the last, and `latest` is the last. |
| `EventDag.ReachesIsPast` | netrix/types/dag.go:149-154 | Reachability by a non-empty parent path is membership in the past. |
| `EventDag.ClockOrderIsReachability` | netrix/types/vector_clocks.go:9-23 | Clock order is reachability, both ways; the graph has no cycle; different events have different clocks. |
| `EventDag.RunClocksCharacteriseCausality` | netrix/types/dag.go:200-260 | For every sequence of additions with fresh identifiers and known replicas: one event's clock is before another's exactly when a chain of additions, each naming the one before or following it on its replica, leads from one to the other; this is reachability in the graph, without cycles, and parents mirror children. |
| `EventDag.EventDAG.NextClockOf` | netrix/types/dag.go:200-221 | The nested loops compute the new clock and record it as the replica's latest. |
| `EventDag.EventDAG.AddParents` | netrix/types/dag.go:149-154 | The loop links all parents both ways and changes nothing else. |
| `EventDag.EventDAG.AddEvent` | netrix/types/dag.go:231-260 | The update in place makes exactly the given events in the graph, and the previous event of the replica, parents of the new one, links them both ways and gives it its clock; the invariant holds after it. |
| `Recovery.Node.ApplyBlock` | tendermint/codebase/state/execution.go:131-201 | Answers, application, state are written in that order: the disk after a crash is that after the writes the budget allowed; with the mock application the state is the same and the real one is not touched. |
| `Recovery.Node.ReplayBlocks` | tendermint/codebase/consensus/replay.go:438-491 | Catches the application up block by block, each once and in order, from any prefix; a crash leaves exactly the blocks the budget allowed. |
| `Recovery.Node.ReplayBlock` | tendermint/codebase/consensus/replay.go:494-512 | Applies the last block with the real or the mock application. |
| `Recovery.Node.Handshake` | tendermint/codebase/consensus/replay.go:285-436 | From every recoverable disk the handshake ends with application, store and state at the same height, and crashes exactly if the budget is below the writes needed; it refuses exactly an application behind the pruned store, and panics exactly when stuck at genesis with an initial height above 1 or on a genesis hash the application does not confirm. |
| `Recovery.Node.FinalizeCommit` | tendermint/codebase/consensus/state.go:1641-1719 | Block, mark, answers, application, state are written in that order, and blocks below the retain height are pruned last, exactly if it is above the base and not above the block; the disk after a crash is that after the writes the budget allowed, with nothing pruned. |
| `Recovery.Node.Run` | tendermint/codebase/consensus/replay.go:285-436 | Any sequence of blocks, crashes (also during recovery), restarts and setbacks of the application: whenever the node is ready, the application committed every block once, in order; a restart with enough budget makes it ready unless the handshake has to refuse. |
| `Recovery.HashAlongChain` | tendermint/codebase/consensus/replay.go:514-534 | Each block carries the application hash of the blocks before it, so the hash assertions of the replay hold. |
| `Recovery.ValidChainExact` | tendermint/codebase/state/execution.go:131-140 | A chain is valid exactly if heights count up and every block carries the application hash and the answers of those before it. |
| `WalMessages.ReceivedIsSendable` | tendermint/codebase/consensus/msgs.go:448-571 | Whatever comes off the wire has passed its basic checks and is in normal form. |
| `WalMessages.ChecksAre` | tendermint/codebase/consensus/msgs.go:38-318 | The basic checks, field by field over all kinds of message. |
| `WalMessages.ConvertsUnlessMissing` | tendermint/codebase/consensus/msgs.go:320-446 | Exactly a missing block part cannot be converted, and exactly a proof of lock without bits panics. |
| `WalMessages.MessageRoundTrip` | tendermint/codebase/consensus/msgs.go:320-571 | A message comes back from the wire exactly when it passes its checks and its bit array is well formed, and comes back the same. |
| `WalMessages.WalRoundTrip` | tendermint/codebase/consensus/msgs.go:574-685 | The same for the messages of the log. |
| `Wal.WordRoundTrip` | tendermint/codebase/consensus/wal.go:322-325 | Big-endian words are read back. |
| `Wal.FrameLayout` | tendermint/codebase/consensus/wal.go:300-333 | A message is written exactly if it converts and is short enough: checksum, length and bytes, the words big-endian. |
| `Wal.SendableIsEncoded` | tendermint/codebase/consensus/wal.go:300-333 | Every sendable message of at most 1048600 bytes is written and can be read again. |
| `Wal.FileReads` | tendermint/codebase/consensus/wal.go:365-419 | What a file reads as, for any bytes: its end exactly when nothing is left, a message exactly when the record announced, filled up with zeros, has its checksum and decodes. |
| `Wal.GroupReads` | tendermint/codebase/consensus/wal.go:365-419 | The same for a group of files, where every part has to be there in full. |
| `Wal.DecodeEncoded` | tendermint/codebase/consensus/wal.go:300-419 | Decoding one encoded message gives it back and the rest of the stream. |
| `Wal.StreamRoundTrip` | tendermint/codebase/consensus/wal.go:300-419 | Decoding any sequence of encoded messages gives them back, then goes on with the rest of the stream. |
| `Wal.RepairWalFile` | tendermint/codebase/consensus/state.go:2359-2391 | Repair writes exactly the messages before the first that cannot be read, or up to the first that cannot be written back. |
| `Wal.RepairIsCleanAndIdempotent` | tendermint/codebase/consensus/state.go:2372-2388 | A repaired file reads to a proper end with the same messages, and repairing it again changes nothing. |
| `Wal.RepairKeepsWrittenLog` | tendermint/codebase/consensus/state.go:2372-2388 | Whatever follows a written log, repair keeps the log byte for byte. |
| `Wal.CutFrame` | tendermint/codebase/consensus/wal.go:365-419 | A frame cut short is corrupt unless only zero bytes were cut off, because short reads leave the buffer zero. |
| `Wal.CutLog` | tendermint/codebase/consensus/wal.go:365-419 | A written log cut anywhere reads back as its complete frames, and the cut one exactly when only zeros are missing. |
| `Wal.EarlierMarksAreSmaller` | tendermint/codebase/consensus/wal.go:252-259 | A smaller last mark rules a height out of the whole log. |
| `Wal.SearchForEndHeight` | tendermint/codebase/consensus/wal.go:231-283 | The search reads from the newest file back and ends exactly at the mark, at damage that counts, at a smaller last mark, or with all files read; over increasing marks it finds a height exactly when it is there, unless damage comes first, and leaves the reader behind it. |
| `Peers.PeerStore.Set` | tendermint/codebase/p2p/peermanager.go:1043-1071 | A new peer or score drops the cached ranking; otherwise the object is overwritten in place and the cached ranking stays right. |
| `Peers.PeerStore.Delete` | tendermint/codebase/p2p/peermanager.go:1074-1084 | Deleting a peer drops the cached ranking. |
| `Peers.Scores` | tendermint/codebase/p2p/peermanager.go:1195-1204 | A fixed score counts alone; else a persistent peer scores 100 and any other nothing. |
| `Peers.PeerStore.Sort` | tendermint/codebase/p2p/peermanager.go:1113-1121 | The sort lists every stored object once, by non-increasing score. |
| `Peers.PeerStore.Ranked` | tendermint/codebase/p2p/peermanager.go:1109-1123 | The cached ranking is a permutation of the stored objects in the order of their present scores. |
| `Peers.PeerStore.RankedPeers` | tendermint/codebase/p2p/peermanager.go:1109-1123 | The same, in terms of the peers' values. |
| `PeerManager.Manager.FindUpgradeCandidate` | tendermint/codebase/p2p/peermanager.go:896-918 | Finds the peer claimed already, or a free connected peer of the lowest score below the given one, or there is none. |
| `PeerManager.LimitsMean` | tendermint/codebase/p2p/peermanager.go:428-640 | The limits on connections and dials, by what one more would do. |
| `PeerManager.RolesMean` | tendermint/codebase/p2p/peermanager.go:356-376 | Who can be replaced, dialled or forgotten, as sets. |
| `PeerManager.Manager.TryDialNext` | tendermint/codebase/p2p/peermanager.go:428-470 | Dials the best peer that can be dialled, when full only on claiming a lower-scored peer; otherwise there is nothing to dial. |
| `PeerManager.Manager.DialFailed` | tendermint/codebase/p2p/peermanager.go:476-521 | The peer is no longer dialled or claimed for, and the failure of its address is counted. |
| `PeerManager.UndialledFields` | tendermint/codebase/p2p/peermanager.go:480-485 | After a dial has ended nobody is dialled or claimed for it, and nothing else changes. |
| `PeerManager.AddressesKept` | tendermint/codebase/p2p/peermanager.go:380-583 | What dialling and adding do to the addresses of a peer. |
| `PeerManager.Manager.Dialed` | tendermint/codebase/p2p/peermanager.go:525-583 | Connected exactly when there is room or a claimed peer to replace, which, or one scored even lower, is then scheduled for eviction; the peer's record is updated. |
| `PeerManager.Manager.Accepted` | tendermint/codebase/p2p/peermanager.go:602-644 | Accepted exactly when there is room or a lower-scored free peer, which is then scheduled for eviction. |
| `PeerManager.Manager.Ready` | tendermint/codebase/p2p/peermanager.go:650-662 | Only a connected peer becomes ready. |
| `PeerManager.Manager.TryEvictNext` | tendermint/codebase/p2p/peermanager.go:682-714 | Orders out a scheduled peer if any can be, else the lowest-scored one while more are staying than there are slots; empty only when no more are staying than there are slots. |
| `PeerManager.Manager.DrainEvictions` | tendermint/codebase/p2p/peermanager.go:666-714 | Ordering out until empty ends, with at most `MaxConnected` peers staying. |
| `PeerManager.Manager.Disconnected` | tendermint/codebase/p2p/peermanager.go:718-739 | The peer leaves every set. |
| `PeerManager.Manager.Errored` | tendermint/codebase/p2p/peermanager.go:749-759 | A connected peer is scheduled for eviction. |
| `PeerManager.Manager.Add` | tendermint/codebase/p2p/peermanager.go:380-406 | The address is stored, then the store is pruned. |
| `PeerManager.Manager.SetHeight` | tendermint/codebase/p2p/peermanager.go:965-975 | The height is kept, for an unknown peer too. |
| `PeerManager.Manager.PrunePeers` | tendermint/codebase/p2p/peermanager.go:356-376 | Only unused peers go, lowest scores first, until few enough are left or all are in use. |
| `PeerManager.Manager.Run` | tendermint/codebase/p2p/peermanager.go:428-759 | In every run ready, evict, evicting and upgrading stay within connected, upgrading is injective into dialing, connected is known, without self and within the limit, and no peer is ordered out twice without leaving in between. |
| `PeerManager.DialOk` | tendermint/codebase/p2p/peermanager.go:428-470 | A dial keeps the invariant, and dialled and connected peers together within the limit. |
| `PeerManager.LogOut` | tendermint/codebase/p2p/peermanager.go:682-714 | An order to a peer not yet on its way keeps the history free of double orders. |
| `Evidence.Pool.AddEvidence` | tendermint/codebase/evidence/pool.go:146-178 | New valid evidence becomes pending and gossiped, known evidence is ignored, the rest refused. |
| `Evidence.Pool.CheckEvidence` | tendermint/codebase/evidence/pool.go:202-238 | A block's evidence passes exactly when no two are the same and each is verified already or neither committed nor invalid; so committed or repeated evidence never passes. What was checked becomes pending, up to the piece that stopped it. Entries are stored over others as often as the block carries attacks that are pending with other guilty validators. |
| `Evidence.Pool.CheckOne` | tendermint/codebase/evidence/pool.go:206-228 | One piece passes exactly when verified already or neither committed nor invalid; it is stored over a pending entry exactly when it passes and is an attack pending with other guilty validators. |
| `Evidence.Pool.ProcessConsensusBuffer` | tendermint/codebase/evidence/pool.go:583-652 | Exactly the evidence formed from reported votes that is neither pending nor committed becomes pending and is listed. |
| `Evidence.Pool.MarkEvidenceAsCommitted` | tendermint/codebase/evidence/pool.go:391-438 | Exactly the committed evidence moves out of the pending, the list and the counter. |
| `Evidence.Pool.RemoveExpiredPendingEvidence` | tendermint/codebase/evidence/pool.go:490-558 | Only expired evidence is dropped, oldest first, from pending and list; the oldest kept has not expired and sets the next height and time to look. |
| `Evidence.SweptIsExact` | tendermint/codebase/evidence/pool.go:522-558 | When later blocks have later times, exactly the expired evidence is dropped. |
| `Evidence.ExpiresAfter` | tendermint/codebase/evidence/pool.go:337-345 | Evidence has expired once more blocks and more time than the limits have passed since its block. |
| `Evidence.FormedIs` | tendermint/codebase/evidence/pool.go:589-626 | The evidence formed from two votes has the time of the votes' block. |
| `Evidence.Pool.Remove` | tendermint/codebase/evidence/pool.go:560-571 | The counter, which wraps around, goes down by exactly the number of keys removed. |
| `Evidence.Pool.Update` | tendermint/codebase/evidence/pool.go:112-143 | A block forms evidence from reported votes, commits its own and nothing else, and sweeps exactly when due; other pending evidence stays unless expired. |
| `Evidence.Pool.Run` | tendermint/codebase/evidence/pool.go:112-238 | In every run pending and committed stay disjoint, the list within the pending, no evidence is committed twice, and the counter equals the number pending, modulo 2^32, exactly when the number of entries stored over others is a multiple of 2^32, which without evidence of attacks on light clients is 0. |
| `Mempool.LruPushFacts` | tendermint/codebase/mempool/clist_mempool.go:727-749 | A push keeps the cache within its size and without repeats, forgets at most the least recent, and puts the new one last. |
| `Mempool.LruPushIs` | tendermint/codebase/mempool/clist_mempool.go:727-749 | A push moves a known transaction to the back, and puts a new one there, dropping the first if full. |
| `Mempool.MapTxCache.Push` | tendermint/codebase/mempool/clist_mempool.go:727-749 | Map and list together are a bounded sequence in order of use. |
| `Mempool.MapTxCache.Remove` | tendermint/codebase/mempool/clist_mempool.go:752-762 | The transaction leaves map and list. |
| `Mempool.Mempool.CheckTx` | tendermint/codebase/mempool/clist_mempool.go:235-302 | Sent to the application exactly when there is room, it is short enough, passes the filter and was not seen. |
| `Mempool.Mempool.AddTx` | tendermint/codebase/mempool/clist_mempool.go:360-365 | The byte count stays the sum of the listed sizes, within the limits. |
| `Mempool.Mempool.RemoveTx` | tendermint/codebase/mempool/clist_mempool.go:370-379 | Removing a listed element keeps count, list and index together. |
| `Mempool.Mempool.ResCbFirstTime` | tendermint/codebase/mempool/clist_mempool.go:411-460 | A good transaction is listed if there is still room. |
| `Mempool.Mempool.ResCbRecheck` | tendermint/codebase/mempool/clist_mempool.go:466-506 | A transaction no longer good goes, also from the cache unless invalid ones are kept, and the cursor moves on. |
| `Mempool.Mempool.RecheckAll` | tendermint/codebase/mempool/clist_mempool.go:466-506 | After all answers exactly the transactions still good are left, in order. |
| `Mempool.Mempool.Update` | tendermint/codebase/mempool/clist_mempool.go:579-639 | A block's transactions leave the pool one by one through the index, and the cache remembers good ones and forgets invalid ones; when none was listed twice, exactly those leave. |
| `Mempool.Mempool.ReapMaxBytesMaxGas` | tendermint/codebase/mempool/clist_mempool.go:528-559 | Returns the longest prefix all of whose prefixes meet both caps. |
| `Mempool.Mempool.Run` | tendermint/codebase/mempool/clist_mempool.go:235-639 | In every run the byte count is exact and both limits hold. |
| `Mempool.LongestFitUnique` | tendermint/codebase/mempool/clist_mempool.go:528-559 | There is only one such prefix. |
| `Mempool.SizesSplit` | tendermint/codebase/types/tx.go:143-147 | Gas and wire size add up over the list. |
| `Mempool.VarintDigits` | tendermint/codebase/types/tx.go:143-147 | A length takes as many bytes as it has digits to the base of 128. |
| `Mempool.BlockRemembered` | tendermint/codebase/mempool/clist_mempool.go:590-602 | After a block the cache knows its last transaction exactly by its result, and nothing new but its good ones. |
| `Raft.OffsetInRange` | raft/raft/node.go:358-369 | The wrapping offset into a batch is the number of entries already applied, and in range exactly when the batch does not end before the commit index. |
| `Raft.LastWriteWins` | raft/raft/kv.go:34-43 | The map holds, for every key, the value of the last entry of the log up to the commit index that gives it one. |
| `Raft.Node.ApplyEntries` | raft/raft/node.go:358-398 | Every entry is applied once: the map is the fold of the log up to the commit index, which is the end of the batch or the first entry that removes this node; a bad batch changes nothing. |
| `Raft.Node.Set` | raft/raft/kv.go:34-43 | One key is set; data that does not decode changes nothing. |
| `Raft.Node.ApplySnapshot` | raft/raft/node.go:122-139 | The storage takes over a snapshot exactly when it is newer than the one it holds; the error it answers otherwise is ignored. |
| `Raft.Node.RestoreSnapshot` | raft/raft/node.go:122-139 | A snapshot not behind replaces map and indices, and the storage's indices only where the storage takes it over; one behind is refused. |
| `Raft.Node.TakeSnapshot` | raft/raft/node.go:323-347 | A snapshot is the map at the commit index, taken exactly when more than 100 entries were applied since the last; the storage can always make it, keeps 100 entries, and compaction indices strictly increase. |
| `Raft.Node.Handle` | raft/raft/node.go:302-317 | One round of the loop restores the snapshot, applies the whole batch unless this node is removed, and takes a snapshot when due. |
| `Raft.Node.Run` | raft/raft/node.go:281-321 | In every run the map is the fold of entries 1 to the commit index, which never goes back; it stops only at a batch against the library's promises. |

## Left out

- Proposals of one's own: choosing the proposer, building the block and its parts, and signing the proposal; a proposal arrives as a message.
- Signing after a restart: the double-sign check and the replay of the node's own messages from the log; a node of the network model does not crash.
- Liveness: nothing is said about when rounds end or commits happen.
- Fixed-width heights and rounds in consensus, the light client and the evidence pool; overflow of total power.
- Block parts: a part set is a header and whether it is complete; Merkle proofs and decoding are an outcome of the event.
- Network.TimeoutsBehind: the network model lets any timeout that was scheduled fire at any later time, which includes every order the timer allows.
- Backwards verification in the light client: its last header is not compared with the target, so its result is outside the theorem about stored blocks; such requests are answered `Backwards`. Also left out: starting a client from trust options and rolling its store back.
- Scheduling of the goroutines that ask witnesses: their replies are any sequence with at most one complaint per witness. Evidence sent to providers is not modelled.
- Store sizes of the light client beyond 16 bits.
- Event nodes are values in the graph's map; sharing of node objects outside the graph and their JSON form are not modelled. Clock entries are integers where the source has floats.
- Recovery: pruning of old saved states, changes of validators and consensus parameters, events fired, and the messages of the round in progress.
- The log of consensus messages: rotation that would split a frame between two files, file locks and flushing.
- Wal.SearchForEndHeight: a damaged record is one isolated entry; when damage is ignored, reads that are misaligned after it are not modelled.
- Wal.CutLog: assumes that the checksum tells a message from itself cut short and filled with zeros; a checksum of 32 bits cannot promise this for all messages.
- Peer manager: retry delays, wake-ups, subscriptions and the database behind the store; sharing of address maps between copies of a peer.
- Evidence: loading from disk at start, `PendingEvidence`, and the checks inside verification.
- Mempool: `ReapMaxTxs`, senders of a transaction, its own log, notification channels, `Flush` and removal by key; when the cache has forgotten a listed transaction it may be listed twice, and nothing is claimed about duplicates then.
- Raft: the library itself, `Restart` and `Stop`, configuration changes other than removal of the node itself, terms and network transport.
- Netrix: dispatching, dashboards, event collection and the unfinished graph queries.
- Servers, command lines, configuration, logging, metrics, the router and the reactors: plumbing around the cores.
