# plexo: address consensus, leases and message flooding

A Dafny model of the parts of plexo that decide which multicast address belongs to which type name, that
keep the resulting bookkeeping consistent, and that pass messages from ganglion to ganglion.

**Consensus.** Nodes exchange preparations, promises, rejections, proposals and approvals over channels that
may lose, delay, reorder and duplicate. `ConsensusNode` holds one node's reactions, as functions of its state
and as a class whose methods are proved against them. `ConsensusNetwork` lets any number of nodes take such
steps in any order. The hypotheses under which a property holds are written out in `Permits`.

Nothing is assumed of a run but that its messages were sent: such runs are free (`FreeRuns`). Where agreement needs
more, `Basic` assumes of the events about one type three things that the code does not guarantee, the second of which
has three parts:

- a node never counts fewer peers than there are nodes (the count starts at zero and comes from heartbeats,
  `src/plexo/ganglion/plexo_multicast.py:148` and `199-223`);
- a node counts every answer once and for what it answers: a promise only toward the ballot it answered and only
  once (promises are collected by type name alone, lines 337-348), an approval only once (approvals name no approver,
  and a node counts its own at once, lines 458-459 and 476-486, although the one it sends may come back to it);
- a proposer's own write does not lower its record (it overwrites whatever is there, lines 610-611).

That a ballot belongs to one attempt is built into the model instead: an attempt is identified by its ballot, whose
first part is a clock reading (line 586).

Two stronger hypotheses add what promises report. `Honest`: a promise whose address an attempt picks names a
ballot that proposed that very address. `NoDangling`: a node holding an address promises only after it accepted
the ballot its record names; this entails `Honest`. The protocol runs per type, and `Locality.Projection` proves it:
the events about other types can be left out of any run. So all of this is assumed only of the events about the type a
statement is about; contention on other types, for instance, is free. What is proved, for every number of nodes:

| assumed of the type's events | one address chosen in every run | all returned and committed addresses agree in every run |
|---|---|---|
| `Basic` and `NoDangling` | always | if and only if the number of nodes is odd or zero |
| `Basic` alone | if and only if there are at most three nodes | if and only if there are none, one or three nodes |
| all but that own writes do not lower records (`Contended`) | if and only if there is at most one node | the same |
| all but that promises count only toward their ballot (`Miscounted`) | if and only if there is at most one node | the same |
| all but that a promise counts once (`Repeated`) | if and only if there are at most two nodes | if and only if there is at most one node |
| all but that an approval counts once (`Recounted`) | always | if and only if there is at most one node |
| all but that peers are known (`Undercounted`) | if and only if there is no node | the same |

Each "only if" is a run constructed for every other number of nodes. The even numbers in the first line fail because
the proposer's tests are `>=` half the peers, so half may promise while the other half approves; `Basic` alone fails
because the code keeps one record per type, so a promise can report an old address under a newer ballot. Without any
assumption each ballot carries one address (`Provenance.OneAddressPerBallot`), and each node answers as a Paxos acceptor
if and only if it never promises while its record dangles and never overwrites its record with an older proposal of its
own (`AcceptorRefinement.RefinesPaxosIff` for any history of inputs, `AcceptorRuns.NodeIsPaxosIff` for the nodes of any
run). That a node commits a ballot at most once needs of the assumptions only that this node knows its peers and counts
approvals once when it counts those of that ballot (`Commits.CommitsAtMostOnce`).

What single steps answer is stated by `Answers` in terms of records and of what is sent, and how the two waits of an
attempt end by `Waits` in terms of the events of the run alone: which promises, rejections and approvals arrived.

README.md:44 of the repository promises that the network agrees on the address of each type. What is
proved is that the code keeps that promise in the runs described above, and for which numbers of nodes it can
break it once any one assumption is dropped. README.md:42 there names the block
`239.255.0.0/16`, the code's default is `239.0.0.0/16`; here the network is a parameter. The code transmits a
promise on the proposal channel (`src/plexo/ganglion/plexo_multicast.py:303`) although its reaction is wired to
the promise channel (line 547); the model uses the promise channel.

**Addresses.** `IpLease` is the lease manager, `Acquisition` the loop that repeats attempts, `AddressBook` the
name and address indexes over mutable synapses, with the transmitters that alias those synapses.

**Flooding.** `Flooding` and `FloodingBounds` follow the copies of a message through a plexus under every
interleaving; the bound on the number of copies is exact, for a message from inside and for one from outside.
`PlexusReactions` is the plexus object, whose reactions are steps of that model; `Adaptations` follows which pairs
of neuron and ganglion get adapted.

**Names.** `Names` says what a neuron's name can be read back as.

## Model

| member | source | states |
|---|---|---|
| Ballots.WithDataContents | src/plexo/ganglion/plexo_multicast.py:680-682 | Exactly the promises that carry an address are considered. |
| Ballots.NewestOfIsLastMaximum | src/plexo/ganglion/plexo_multicast.py:102-108 | The fold yields the last of the promises whose accepted ballot is greatest. |
| Ballots.PickIgnoresArrivalOrder | src/plexo/ganglion/plexo_multicast.py:683-689 | Every arrival order of the same promises picks the same address and ballot, if equal accepted ballots carry equal addresses. |
| Ballots.TieBreakDependsOnOrder | src/plexo/ganglion/plexo_multicast.py:102-108 | That condition is needed: two promises of one ballot with different addresses are picked by position. |
| Ballots.BallotsOrdered | src/plexo/ganglion/plexo_multicast.py:88-99 | Ballots are totally ordered: the later clock reading wins, and among equal ones the greater instance. |
| ConsensusNode.GanglionConsensus.PreparationReaction | src/plexo/ganglion/plexo_multicast.py:239-316 | Own preparations are ignored; another is answered by a promise of what was held, and recorded, exactly when no record or an older one is kept, and else by a rejection that changes nothing. |
| ConsensusNode.GanglionConsensus.PromiseReaction | src/plexo/ganglion/plexo_multicast.py:318-368 | A promise to this node joins those of its type, whatever its ballot, and cuts the wait short once there are as many as peers; others are ignored. |
| ConsensusNode.GanglionConsensus.RejectionReaction | src/plexo/ganglion/plexo_multicast.py:370-419 | Counts a rejection of this node's preparation and cuts the wait short above half the peers. |
| ConsensusNode.GanglionConsensus.ProposalReaction | src/plexo/ganglion/plexo_multicast.py:421-459 | A proposal of the promised ballot is recorded and approved, and the own approval is counted at once; without a promise, or for another ballot, it fails and changes nothing. |
| ConsensusNetwork.ProposalReactionIsTwoEvents | src/plexo/ganglion/plexo_multicast.py:452-459 | In the network that reaction is the receipt of the proposal followed by the receipt of the own approval. |
| ConsensusNode.GanglionConsensus.ApprovalReaction | src/plexo/ganglion/plexo_multicast.py:461-522 | Counts the approval; exactly above half the peers the own wait ends, which would now be agreed, or another's address is committed, and the count restarts only after a commit that succeeded. |
| ConsensusNode.GanglionConsensus.ClosePromises | src/plexo/ganglion/plexo_multicast.py:647-691 | Ending the wait empties the type's promises and rejections and decides: rejected exactly for too few promises or too many rejections, else the newest address held, or a fresh draw. |
| ConsensusNode.GanglionConsensus.SendProposal | src/plexo/ganglion/plexo_multicast.py:598-618 | Overwrites the own record with the proposal, unconditionally. |
| ConsensusNode.GanglionConsensus.CloseApprovals | src/plexo/ganglion/plexo_multicast.py:711-736 | The attempt succeeds when at least half the peers approved. |
| Answers.PreparationAnswered | src/plexo/ganglion/plexo_multicast.py:239-316 | In the network another node's preparation gets exactly one answer to its ballot: a promise if and only if no record or an older one is kept, else a rejection, and then nothing else changes. |
| Answers.ProposalAnswered | src/plexo/ganglion/plexo_multicast.py:421-459 | A proposal is recorded and approved if and only if the record names its very ballot; else it fails for the one reason or the other and nothing changes. |
| Answers.AllPeersAnswer | src/plexo/ganglion/plexo_multicast.py:239-419 | A preparation can reach all peers and all answers its proposer, which then heard a promise for each peer behind its ballot and a rejection for each other one. |
| Answers.AnswersDecide | src/plexo/ganglion/plexo_multicast.py:647-691 | Such an attempt decides if and only if enough peers were behind it, not too many were not, and there is an address to propose. |
| Answers.OutdatedIsRejected | src/plexo/ganglion/plexo_multicast.py:304-316 | An attempt older than the records of all peers is rejected by each, draws nothing, and is never decided, proposed or returned. |
| Waits.WaitingMeansHeard | src/plexo/ganglion/plexo_multicast.py:318-419 | In any run what waits at a node is what it was sent since its last wait for the type ended, each promise in order and each rejection once. |
| Waits.DecidedIff | src/plexo/ganglion/plexo_multicast.py:647-693 | In any run a promise wait decides if and only if, of what was heard since the last one ended, promises reach half the peers and rejections do not exceed it, and an address is reported or drawn; it decides on the newest reported one, else on the draw, and else draws nothing. |
| Waits.RejectedForGood | src/plexo/ganglion/plexo_multicast.py:675-678 | More rejections than half of the peers, stale ones included, end an attempt for good, however many promises there are. |
| Waits.ReturnedIff | src/plexo/ganglion/plexo_multicast.py:711-736 | In any run the attempt returns its address if and only if the approvals of its ballot that its proposer received reach half of its peers. |
| Waits.CountingEffect | src/plexo/ganglion/plexo_multicast.py:476-522 | Counting stops the own wait exactly when more than half of the peers are now counted for an own ballot, and commits exactly when they are for another's. |
| Waits.AgreedAtOnce | src/plexo/ganglion/plexo_multicast.py:491-505 | An own wait ended at once is agreed exactly if it was cut short or exactly half of the peers are counted. |
| Waits.CutShortReturns | src/plexo/ganglion/plexo_multicast.py:491-732 | A wait that was cut short returns its address, whatever happens before it ends, unless peers join. |
| Waits.CommittedIff | src/plexo/ganglion/plexo_multicast.py:476-522 | In any run a node commits another's ballot for the first time exactly when the approvals of it that it received exceed half of its peers and the commit goes through, and commits the address approved. |
| ConsensusInvariants.InvStart | src/plexo/ganglion/plexo_multicast.py:112-168 | Nodes that know nothing satisfy the invariant. |
| ConsensusInvariants.InvStep | src/plexo/ganglion/plexo_multicast.py:239-736 | Every permitted step of any node keeps the invariant on records, messages, reports, waiting promises and decisions. |
| ConsensusCounting.BooksStep | src/plexo/ganglion/plexo_multicast.py:461-522 | Every step with peers known and no approval counted again, whatever else goes wrong, keeps each approval counter in step with the acceptors really counted, also across restarts. |
| ConsensusCounting.CountedApproved | src/plexo/ganglion/plexo_multicast.py:421-522 | Whoever was counted did approve that ballot. |
| Agreement.NoDanglingPermitsHonest | src/plexo/ganglion/plexo_multicast.py:277-297 | If no promise dangles, every picked report is honest. |
| Agreement.QuorumsMeet | src/plexo/ganglion/plexo_multicast.py:675-731 | Half the nodes promising and more than half approving leaves a node that did both. |
| Agreement.NoFreshDrawAfterChoice | src/plexo/ganglion/plexo_multicast.py:680-693 | After a majority approved a ballot, a newer attempt re-proposes an address reported at that ballot or above. |
| Conditions.NoFreshDrawPerType | src/plexo/ganglion/plexo_multicast.py:680-693 | The same in every reachable state, whatever happens about other types, without honest reports and however approvals are counted. |
| Agreement.ChosenPersists | src/plexo/ganglion/plexo_multicast.py:620-736 | With honest picks every decision at or above a chosen ballot carries the chosen address. |
| Conditions.AgreementPerType | src/plexo/ganglion/plexo_multicast.py:620-736 | In every run that keeps Basic and has honest picks where the type is concerned, one address of it is chosen, also if approvals are counted again; if not, all commits agree, and with an odd number of nodes so do all returned addresses. |
| Commits.CommitsAtMostOnce | src/plexo/ganglion/plexo_multicast.py:471-522 | A node commits a ballot at most once, only of another proposer, only its one address and only after a counted majority, and the restarted count stays below the threshold; only its own counting of that ballot is assumed right. |
| Provenance.OneAddressPerBallot | src/plexo/ganglion/plexo_multicast.py:421-459 | In any run whatsoever all proposals and approvals of a ballot carry one address, each approval answers a proposal sent, and every address anywhere was drawn for its type. |
| Provenance.RecordNotLowered | src/plexo/ganglion/plexo_multicast.py:239-459 | No step but the node's own proposal lowers a record's ballot or erases its address. |
| Provenance.PromisesAreKept | src/plexo/ganglion/plexo_multicast.py:259-316 | Over any run whatsoever, a node that promised and does not itself propose approves no older ballot, not even again, promises only newer ones, and never forgets an address. |
| SmallNetworks.SmallStep | src/plexo/ganglion/plexo_multicast.py:239-736 | On at most three nodes every step keeps the newest proposal's address the only one held. |
| Conditions.SmallPerType | src/plexo/ganglion/plexo_multicast.py:620-736 | On at most three nodes Basic is enough for agreement, without honest reports. |
| Conditions.LonePerType | src/plexo/ganglion/plexo_multicast.py:675-678 | A single node that knows of itself never decides anything, whatever is assumed. |
| Attempts.AttemptRun | src/plexo/ganglion/plexo_multicast.py:620-736 | Any feasible plan of who promises, is heard, accepts and is counted can be run, with this outcome for every node. |
| Register.AttemptSettles | src/plexo/ganglion/plexo_multicast.py:620-736 | However its messages travel and repeat, whatever happens about other types, and also if late answers and rejections arrive, an attempt that is alone for its type and answered by all returns what everybody holds, or its own draw, and leaves everybody holding it. |
| Register.WriteOnce | src/plexo/ganglion/plexo_multicast.py:620-736 | Over any sequence of such attempts on two nodes or more, all succeed and return what the first drew, and every record holds it. |
| Register.SerialProgress | src/plexo/ganglion/plexo_multicast.py:620-736 | Such an attempt can always be carried out, in any order of who answers, whenever its ballot is newer than all records and nothing is waiting, and then nothing is waiting again. |
| Beginnings.MetSettled | src/plexo/ganglion/plexo_multicast.py:199-223 | Such sequences have a start: all nodes can come to know their number with nothing decided. |
| Limits.EvenDisagree | src/plexo/ganglion/plexo_multicast.py:675-736 | On every even number of nodes a run returns two addresses for one type. |
| Limits.StaleDisagree | src/plexo/ganglion/plexo_multicast.py:277-297 | On any four nodes or more a run chooses and returns two addresses, because of an old address reported under a newer ballot. |
| Conditions.AgreementIffOdd | src/plexo/ganglion/plexo_multicast.py:620-736 | Given Basic and no dangling promises about the type, all outcomes agree in every run if and only if the number of nodes is odd or zero. |
| Conditions.SingleRecordSafeIffSmall | src/plexo/ganglion/plexo_multicast.py:277-297 | Given Basic alone, one address of the type is chosen in every run if and only if there are at most three nodes, and all outcomes agree if and only if there are moreover not two. |
| Necessity.ContentionDisagrees | src/plexo/ganglion/plexo_multicast.py:598-618 | On any two nodes or more a run chooses and returns two addresses because a proposer overwrites a newer record; nothing else goes wrong in it. |
| Conditions.ContendedAgreeIffAlone | src/plexo/ganglion/plexo_multicast.py:610-611 | If own writes may lower records and all else is assumed, chosen and returned addresses agree in every run if and only if there is at most one node. |
| Necessity.MiscountDisagrees | src/plexo/ganglion/plexo_multicast.py:337-348 | On any two nodes or more a run chooses and returns two addresses because promises to a timed-out attempt count toward the next. |
| Conditions.MiscountedAgreeIffAlone | src/plexo/ganglion/plexo_multicast.py:337-348 | If promises may count toward a later ballot and all else is assumed, agreement holds in every run if and only if there is at most one node. |
| Miscounts.RepeatDisagrees | src/plexo/ganglion/plexo_multicast.py:337-348 | On any three nodes or more a run chooses and returns two addresses because one promise counts again and again. |
| Conditions.RepeatedAgreeIffTwo | src/plexo/ganglion/plexo_multicast.py:337-348 | If a promise may be counted again and all else is assumed, one address is chosen in every run if and only if there are at most two nodes, and all outcomes agree if and only if there is at most one. |
| Miscounts.RecountDisagrees | src/plexo/ganglion/plexo_multicast.py:458-486 | On any two nodes or more one proposer is returned two addresses because its own approval counts again and again. |
| Conditions.RecountedAgreeIffAlone | src/plexo/ganglion/plexo_multicast.py:458-486 | If an approval may be counted again and all else is assumed, one address is chosen all the same, but returned addresses agree in every run if and only if there is at most one node. |
| Miscounts.UndercountDisagrees | src/plexo/ganglion/plexo_multicast.py:148 | On any nodes that have not heard of each other one proposer has two addresses chosen and returned, as it takes no answer for half of its peers. |
| Conditions.UndercountedAgreeIffNobody | src/plexo/ganglion/plexo_multicast.py:199-223 | If a node may know of too few peers and all else is assumed, agreement holds in every run if and only if there is no node. |
| Locality.Projection | src/plexo/ganglion/plexo_multicast.py:239-736 | Leaving the events about other types out of a run gives a run again, with the same outcome for the type. |
| AcceptorRefinement.RefinesPaxosIff | src/plexo/ganglion/plexo_multicast.py:239-618 | For every history of inputs, own proposals included, the replies are those of a Paxos acceptor with two fields if and only if no promise dangles and no own proposal is older than the record it overwrites. |
| AcceptorRefinement.FreshRefinesPaxosIff | src/plexo/ganglion/plexo_multicast.py:239-618 | The same from a node without a record. |
| AcceptorRuns.AnswersAreReplies | src/plexo/ganglion/plexo_multicast.py:239-618 | In any run of the network what a node sends about a type is what its single record replies to the inputs that reached it. |
| AcceptorRuns.NodeIsPaxosIff | src/plexo/ganglion/plexo_multicast.py:239-618 | In any run those answers are those of a Paxos acceptor if and only if the node never promises while its record dangles and never lowers its record by an own proposal. |
| AcceptorRuns.AllArePaxos | src/plexo/ganglion/plexo_multicast.py:239-618 | Where the NoDangling hypothesis holds of the type, every node is a Paxos acceptor for it. |
| IpLease.IpLeaseManager.constructor | src/plexo/ip_lease.py:24-26 | All addresses of the network start out free. |
| IpLease.IpLeaseManager.LeaseAddress | src/plexo/ip_lease.py:28-38 | Leases an address, or fails for an unknown or leased one; free and leased stay complementary. |
| IpLease.IpLeaseManager.ReleaseAddress | src/plexo/ip_lease.py:40-50 | Frees a leased address, or fails for an unknown or free one. |
| IpLease.IpLeaseManager.AddressIsLeased | src/plexo/ip_lease.py:52-56 | Tells whether a known address is leased. |
| IpLease.IpLeaseManager.GetAddress | src/plexo/ip_lease.py:58-64 | Leases some free address; fails exactly when every address is leased. |
| IpLease.IpLeaseManager.DrawnAgainOnlyReleased | src/plexo/ip_lease.py:28-64 | In whatever the methods have done so far, an address leased or drawn is drawn again only after its release. |
| IpLease.IpLeaseManager.Conserved | src/plexo/ip_lease.py:28-64 | The leases number the addresses taken less those released, and with the free ones make up the network. |
| IpLease.LeasedUntilReleased | src/plexo/ip_lease.py:28-64 | Over any history a leased address is drawn again only after its release. |
| IpLease.LeasesConserved | src/plexo/ip_lease.py:28-64 | Over any history the leases stay in the network and number the addresses taken less those released. |
| Acquisition.BoundedWaste | src/plexo/ganglion/plexo_multicast.py:738-755 | Failing attempts draw at most the free addresses, one for each that asks for one, and end the loop if they ask for more, also while other tasks lease addresses in between. |
| Acquisition.LoopEndsFirst | src/plexo/ganglion/plexo_multicast.py:738-755 | The loop ends with the first attempt that is approved, finds a synapse, or asks for a draw when draws and leases have used up what was free, and as that one says; how much it drew and what is left follow from the attempts before. |
| Acquisition.LoopResultIsLoops | src/plexo/ganglion/plexo_multicast.py:738-755 | The loop as it runs ends as that, so the bounds on what it wastes are about it. |
| Acquisition.ApprovedAfterFailures | src/plexo/ganglion/plexo_multicast.py:731-755 | After attempts that fail, one approved ends the loop: with the address it proposed again, or with its own draw, one more than those that failed. |
| Acquisition.AcquireLoop | src/plexo/ganglion/plexo_multicast.py:738-755 | The loop ends at the first attempt that ends it and as that one says, returning its address, or is still trying; an address it drew is newly leased. |
| AddressBook.ApplyKeeps | src/plexo/ganglion/plexo_multicast.py:757-873 | Every operation keeps the book sound, unbinds no name and releases only what it moves. |
| AddressBook.DedicatedAddresses | src/plexo/ganglion/plexo_multicast.py:757-873 | After any sequence of operations no two names share an address, every bound address is leased, and a lease lasts until its name moves. |
| AddressBook.CreateIff | src/plexo/ganglion/plexo_multicast.py:757-792 | A synapse is created if and only if the name has none and the address is in the network, multicast and bound to no name, leased or not; else each refusal has its one reason. |
| AddressBook.UpdateIff | src/plexo/ganglion/plexo_multicast.py:794-834 | A synapse moves under the same condition on the address, and gives up exactly the address it had. |
| AddressBook.CommitIff | src/plexo/ganglion/plexo_multicast.py:859-873 | A commit goes through if and only if the address is usable or the name has it already. |
| AddressBook.DrawnCanBeBound | src/plexo/ganglion/plexo_multicast.py:757-792 | An address drawn can be bound to any name without a synapse whatever happens in between, as long as it is multicast and nobody was bound to it. |
| AddressBook.MulticastByLeadingBits | src/plexo/synapse/zeromq_plexopubsub_epgm.py:60 | Multicast addresses are those whose leading bits are 1110. |
| AddressBook.Synapse.Reopen | src/plexo/synapse/zeromq_plexopubsub_epgm.py:57-92 | A synapse moves to a multicast address and refuses any other. |
| AddressBook.GanglionAddresses.constructor | src/plexo/ganglion/plexo_multicast.py:131-140 | The first 32 addresses are leased from the start and nothing is bound. |
| AddressBook.GanglionAddresses.IndexesInverse | src/plexo/ganglion/plexo_multicast.py:785-832 | The two indexes are inverse to each other. |
| AddressBook.GanglionAddresses.TryLeaseAddress | src/plexo/ganglion/plexo_multicast.py:757-765 | An address of the network is leased or was already, and is refused exactly when it was and a synapse has it. |
| AddressBook.GanglionAddresses.CreateSynapseWithAddress | src/plexo/ganglion/plexo_multicast.py:767-792 | Binds the name to a new synapse at the address, or says why not; all five structures stay consistent. |
| AddressBook.GanglionAddresses.UpdateSynapseWithAddress | src/plexo/ganglion/plexo_multicast.py:794-834 | Moves the existing synapse in place and swaps the leases, or says why not; all five structures stay consistent. |
| AddressBook.GanglionAddresses.CreateOrUpdateSynapseWithAddress | src/plexo/ganglion/plexo_multicast.py:859-873 | Does the one that applies. |
| AddressBook.GanglionAddresses.GetSynapse | src/plexo/ganglion/external.py:117-132 | Returns the synapse registered under the name, also if another task registered it during the wait. |
| AddressBook.GanglionAddresses.CreateTransmitter | src/plexo/ganglion/external.py:161-172 | Caches a transmitter unless one is cached. |
| AddressBook.GanglionAddresses.CreateExternalTransmitter | src/plexo/ganglion/external.py:139-150 | Caches an external transmitter unless one is cached. |
| AddressBook.GanglionAddresses.UpdateTransmitter | src/plexo/ganglion/external.py:197-202 | Succeeds exactly when getting the synapse does, and afterwards both caches hold the synapse registered under the name. |
| AddressBook.GanglionAddresses.TransmittersRight | src/plexo/ganglion/external.py:139-202 | In every valid state a cached transmitter reaches the synapse registered under its name, indexed under its current address. |
| AddressBook.GanglionAddresses.AcquireAddressForType | src/plexo/ganglion/plexo_multicast.py:738-755 | A name with a synapse is refused; else the loop ends as above, and an address drawn is leased and bound to nobody. |
| AddressBook.GanglionAddresses.CreateSynapseByName | src/plexo/ganglion/plexo_multicast.py:852-854 | A drawn multicast address is always bound to the new synapse, one proposed again exactly if it is usable. |
| Flooding.ReactedKeeps | src/plexo/plexus.py:93-121 | Every reaction keeps: each unmarked internal ganglion is owed one copy per reaction so far, and each other external one was sent equally many. |
| FloodingBounds.ReactionSpends | src/plexo/plexus.py:93-121 | Every reaction lowers the measure over the pending copies, by exactly one when a copy for a marked ganglion is handled first. |
| FloodingBounds.RunSpends | src/plexo/plexus.py:93-184 | Over any run of interleaved reaction ids, the reactions of one id use up its measure. |
| FloodingBounds.FloodingStops | src/plexo/plexus.py:93-184 | From every reachable state a flood causes at most as many further reactions as its measure, however they interleave with other floods. |
| FloodingBounds.SendsBounded | src/plexo/plexus.py:93-173 | With k other internal and x other external ganglia, one reaction id causes at most (1 + x) * 2^k - 1 sends, which is at most the recursive count k + x + k * Sends(k - 1). |
| FloodingBounds.ArrivalSendsBounded | src/plexo/plexus.py:123-173 | The two reaction ids of a message from outside cause at most that many sends together. |
| FloodingBounds.BoundAttained | src/plexo/plexus.py:93-121 | For a message from inside some interleaving meets the bound exactly. |
| FloodingBounds.ArrivalBoundAttained | src/plexo/plexus.py:93-173 | So does one for a message from outside. |
| FloodingBounds.NoEcho | src/plexo/plexus.py:123-173 | In every reachable state nothing was sent back to where the message came from. |
| FloodingBounds.FullCoverage | src/plexo/plexus.py:93-173 | With nothing pending every internal ganglion has reacted and every other ganglion was sent a copy. |
| Adaptations.EachPairAdaptedOnce | src/plexo/plexus.py:186-235 | Over any sequence of infusions and new neurons, exactly the pairs of the product were adapted, each once. |
| Adaptations.OrderOfGrowthIrrelevant | src/plexo/plexus.py:186-235 | The order of infusions and new neurons does not matter. |
| PlexusReactions.PlexusObject.constructor | src/plexo/plexus.py:38-76 | A new plexus has no reactions and nothing adapted; its own in-process ganglion is among the internal ones. |
| PlexusReactions.PlexusObject.InternalReaction | src/plexo/plexus.py:93-121 | Is one step of the flooding model, sending exactly the copies the model counts. |
| PlexusReactions.PlexusObject.ExternalInternalReaction | src/plexo/plexus.py:123-147 | Is the arrival step toward the internal ganglia. |
| PlexusReactions.PlexusObject.ExternalExternalReaction | src/plexo/plexus.py:149-173 | Is the arrival step toward the other external ganglia. |
| PlexusReactions.PlexusObject.UpdateNeuronGanglia | src/plexo/plexus.py:202-235 | Adapts exactly the unrecorded pairs, internal and external ones apart, and records the whole product. |
| PlexusReactions.PlexusObject.InfuseGanglion | src/plexo/plexus.py:186-194 | Joins the ganglion to its kind and adapts what is new. |
| PlexusReactions.PlexusObject.UpdateNeurons | src/plexo/plexus.py:196-200 | Adds the neuron and adapts what is new. |
| Names.WithSuffixIsOneJoin | src/plexo/namespace/namespace.py:20-34 | A suffix gives one join of all parts if and only if the namespace has parts (or there is no suffix, or an empty delimiter). |
| Names.SplitJoin | src/plexo/namespace/namespace.py:25 | Splitting a joined name yields the pieces of its parts. |
| Names.JoinReadsBack | src/plexo/namespace/namespace.py:25 | Splitting undoes joining if and only if no part contains the delimiter. |
| Names.NamesEqualIff | src/plexo/neuron/neuron.py:37-54 | For all neurons with one single-character delimiter: equal names if and only if their parts read back the same. |
| Names.NamesIdentify | src/plexo/neuron/neuron.py:37-54 | With clean parts and non-empty namespaces, equal names if and only if equal parts, alias and codec name. |
| Names.NameShows | src/plexo/neuron/neuron.py:35-54 | What is read back is the namespace, the alias or for an absent or empty one the name of the type, and the codec. |
| Names.CodecIsAppended | src/plexo/neuron/neuron.py:52-58 | The name is the name without the codec, a delimiter and the codec. |
| Names.NamesCollide | src/plexo/neuron/neuron.py:37-54 | Different neurons that compare equal: a delimiter inside a part, or an empty namespace. |

## Left out

- ConsensusNode.GanglionConsensus.ApprovalReaction: whether the commit raises is a parameter. In the code the lookup at `src/plexo/ganglion/plexo_multicast.py:515` finds only names entered by create_external_transmitter, which update_transmitter does not call; when it raises, the count is not restarted.
- Conditions.AgreementPerType: excludes the runs in which, about the type, peers are under-counted, an answer is counted twice or toward another ballot, or a proposer overwrites a newer record; the code does not rule these out, and for each of them Conditions proves for which numbers of nodes agreement then fails.
- Conditions.SmallPerType: excludes the same runs.
- Conditions.NoFreshDrawPerType: excludes them too, except that approvals may be counted in any way and peers need to be known only when a promise wait ends.
- Commits.CommitsAtMostOnce: excludes the runs in which the node itself does not know its peers, or counts an approver twice, while it counts that ballot.
- Register.AttemptSettles: excludes the runs of Conditions.AgreementPerType as far as the type is concerned, and those in which more than half of the peers' rejections are in when the promise wait ends; the peer count is the number of nodes.
- Register.WriteOnce: excludes the same runs.
- Two attempts that read the same clock value: an attempt is identified by its ballot, so a ballot cannot be used again.
- Acquisition.AcquireLoop: runs over a finite list of attempts; that attempts eventually succeed depends on timing, and no task releases an address in between.
- Acquisition.BoundedWaste: releases in between are not covered.
- AddressBook.GanglionAddresses.AcquireAddressForType: looks for a synapse of the name at the start; that one appears later, and that other tasks lease addresses, is given by the list of attempts.
- AddressBook.GanglionAddresses.GetSynapse: whether the lookup hits, and what the wait for an address comes to, is a parameter, because other tasks run during the wait.
- FloodingBounds.SendsBounded: the ganglia stay the same while a message floods; a ganglion infused meanwhile is not counted.
- PlexusReactions.PlexusObject.ExternalInternalReaction: the message comes without a reaction id, as every receive loop passes it on; the branch that adds a mark to a known id is not reachable from there.
- PlexusReactions.PlexusObject.ExternalExternalReaction: likewise.
- Names.NamesIdentify: the namespaces share one delimiter of one character.
- An attempt in the network starts at any time; the test for an existing synapse belongs to the loop around it.
- ZeroMQ and EPGM sockets, receive loops, connection strings and closing; a synapse is a topic and an address.
- Codecs and wire formats: messages are datatypes, and an address is a number.
- Timers, sleeps, heartbeats and startup: the end of a wait is a step that may happen at any time.
- The lock a reaction id gets: two tasks may create different locks for one id, but no reaction suspends while marking and choosing the receivers, so each is one step.
- The lifetime of reaction ids kept through weak references: an id lives as long as a step uses it.
- A synapse address leased for a creation or update that is then refused as not multicast stays leased, as in the code; nothing ever releases it.
- create_transmitter in the external ganglion returns an un-awaited coroutine; the model follows update_transmitter, which does not use it.
- User reactants and their exceptions, logging, task cancellation, the remaining ganglia, axons and capability filters.
- Uniqueness of addresses across different types on different nodes: the protocol runs per type and does not promise it.
