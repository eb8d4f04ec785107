/**
 * One node's consensus state and its reactions: each reaction as a function of the state, and the
 * class whose methods carry the reactions out on its fields.
 */
module ConsensusNode {
  import opened Wrappers
  import opened Ballots

  /** The single record a node keeps for a type: a ballot plus the address it holds, if any. */
  datatype Record = Record(ballot: Ballot, multicastIp: Option<Address>)

  datatype Node = Node(
    id: InstanceId,
    numPeers: nat,
    proposals: map<TypeName, Record>,
    promises: map<TypeName, seq<PromiseMessage>>,
    rejections: map<TypeName, nat>,
    approvals: map<Key, nat>)

  datatype ProposalError = ProposalPromiseNotMade | ProposalNotLatest

  /** What a counted approval makes the node do. */
  datatype ApprovalEffect = KeepCounting | StopWaiting | Commit(address: Address)

  /** How the end of the promise wait turns out. */
  datatype Verdict = PreparationRejected | Repropose(address: Address) | DrawFresh

  function PromisesFor(n: Node, t: TypeName): seq<PromiseMessage> {
    if t in n.promises then n.promises[t] else []
  }

  function RejectionsFor(n: Node, t: TypeName): nat {
    if t in n.rejections then n.rejections[t] else 0
  }

  function ApprovalsFor(n: Node, key: Key): nat {
    if key in n.approvals then n.approvals[key] else 0
  }

  /** The ballot and address a promise reports: zeros and nothing when no record exists. */
  function Reported(n: Node, t: TypeName): Record {
    if t in n.proposals then n.proposals[t] else Record(Ballot(0, 0), None)
  }

  predicate MayPromise(n: Node, key: Key) {
    key.typeName !in n.proposals || ProposalIsNewer(n.proposals[key.typeName].ballot, key.ballot)
  }

  function OnPreparation(n: Node, key: Key): (Node, Option<Message>) {
    if key.ballot.instanceId == n.id then (n, None)
    else if MayPromise(n, key) then
      var current := Reported(n, key.typeName);
      (n.(proposals := n.proposals[key.typeName := Record(key.ballot, current.multicastIp)]),
       Some(Promise(key, current.ballot, current.multicastIp)))
    else (n, Some(Rejection(key)))
  }

  function OnPromise(n: Node, m: PromiseMessage): Node {
    if m.key.ballot.instanceId != n.id then n
    else n.(promises := n.promises[m.key.typeName := PromisesFor(n, m.key.typeName) + [m]])
  }

  function OnRejection(n: Node, key: Key): Node {
    if key.ballot.instanceId != n.id then n
    else n.(rejections := n.rejections[key.typeName := RejectionsFor(n, key.typeName) + 1])
  }

  function OnProposal(n: Node, key: Key, address: Address): Result<Node, ProposalError> {
    if key.typeName !in n.proposals then Err(ProposalPromiseNotMade)
    else if !ProposalIsEqual(n.proposals[key.typeName].ballot, key.ballot) then Err(ProposalNotLatest)
    else Ok(WithRecord(n, key, address))
  }

  function WithRecord(n: Node, key: Key, address: Address): Node {
    n.(proposals := n.proposals[key.typeName := Record(key.ballot, Some(address))])
  }

  function OnApproval(n: Node, key: Key, address: Address): (Node, ApprovalEffect) {
    var count := ApprovalsFor(n, key) + 1;
    (n.(approvals := n.approvals[key := count]),
     if 2 * count <= n.numPeers then KeepCounting
     else if key.ballot.instanceId == n.id then StopWaiting
     else Commit(address))
  }

  /** The count is dropped only once the commit went through. */
  function AfterCommit(n: Node, key: Key): Node {
    n.(approvals := n.approvals - {key})
  }

  /** A counted approval with its commit, if that is due and goes through. */
  function Counted(n: Node, key: Key, address: Address, commitSucceeds: bool): (Node, ApprovalEffect) {
    var (n', effect) := OnApproval(n, key, address);
    (if effect.Commit? && commitSucceeds then AfterCommit(n', key) else n', effect)
  }

  /** Ending the promise wait empties both collections of the type. */
  function TakePromises(n: Node, t: TypeName): Node {
    n.(promises := n.promises - {t}, rejections := n.rejections - {t})
  }

  function Judge(numPeers: nat, promises: seq<PromiseMessage>, rejections: nat): Verdict {
    if 2 * |promises| < numPeers || 2 * rejections > numPeers then PreparationRejected
    else
      var data := WithData(promises);
      WithDataContents(promises);
      if data == [] then DrawFresh else Repropose(NewestOf(data).multicastIp.value)
  }

  predicate ApprovalTest(n: Node, key: Key) {
    2 * ApprovalsFor(n, key) >= n.numPeers
  }

  /** The consensus half of the ganglion, with the fields its reactions reassign. */
  class GanglionConsensus {
    const instanceId: InstanceId
    var numPeers: nat
    var proposals: map<TypeName, Record>
    var preparationPromises: map<TypeName, seq<PromiseMessage>>
    var preparationRejections: map<TypeName, nat>
    var proposalApprovals: map<Key, nat>

    ghost function State(): Node
      reads this
    {
      Node(instanceId, numPeers, proposals, preparationPromises, preparationRejections, proposalApprovals)
    }

    constructor (instanceId: InstanceId)
      ensures State() == Node(instanceId, 0, map[], map[], map[], map[])
    {
      this.instanceId := instanceId;
      numPeers, proposals, preparationPromises := 0, map[], map[];
      preparationRejections, proposalApprovals := map[], map[];
    }

    method PreparationReaction(preparation: Message) returns (reply: Option<Message>)
      requires preparation.Preparation?
      modifies this
      ensures (State(), reply) == OnPreparation(old(State()), preparation.key)
      ensures reply.None? <==> preparation.key.ballot.instanceId == instanceId
      ensures reply.Some? ==>
                var t, ballot := preparation.key.typeName, preparation.key.ballot;
                && reply.value.key == preparation.key && (reply.value.Promise? || reply.value.Rejection?)
                && (reply.value.Promise? <==> t in old(proposals) ==> ProposalIsNewer(old(proposals)[t].ballot, ballot))
      ensures reply.None? || reply.value.Rejection? ==> State() == old(State())
    {
      var t := preparation.key.typeName;
      if preparation.key.ballot.instanceId == instanceId {
        return None;
      }
      var known := t in proposals;
      if !known || ProposalIsNewer(proposals[t].ballot, preparation.key.ballot) {
        var ip, accepted := None, Ballot(0, 0);
        if known {
          ip, accepted := proposals[t].multicastIp, proposals[t].ballot;
        }
        proposals := proposals[t := Record(preparation.key.ballot, ip)];
        reply := Some(Promise(preparation.key, accepted, ip));
      } else {
        reply := Some(Rejection(preparation.key));
      }
    }

    /** `stopWaiting` says whether the promise wait of the type is cut short. */
    method PromiseReaction(promise: PromiseMessage) returns (stopWaiting: bool)
      modifies this
      ensures State() == OnPromise(old(State()), promise)
      ensures stopWaiting <==>
                promise.key.ballot.instanceId == instanceId && |PromisesFor(State(), promise.key.typeName)| >= numPeers
    {
      var t := promise.key.typeName;
      if promise.key.ballot.instanceId != instanceId {
        return false;
      }
      var current := [];
      if t in preparationPromises {
        current := preparationPromises[t];
      }
      preparationPromises := preparationPromises[t := current + [promise]];
      stopWaiting := |current + [promise]| >= numPeers;
    }

    /** `stopWaiting` says whether the promise wait of the type is cut short. */
    method RejectionReaction(rejection: Message) returns (stopWaiting: bool)
      requires rejection.Rejection?
      modifies this
      ensures State() == OnRejection(old(State()), rejection.key)
      ensures stopWaiting <==>
                && rejection.key.ballot.instanceId == instanceId
                && 2 * RejectionsFor(State(), rejection.key.typeName) > numPeers
    {
      var t := rejection.key.typeName;
      if rejection.key.ballot.instanceId != instanceId {
        return false;
      }
      var current := 0;
      if t in preparationRejections {
        current := preparationRejections[t];
      }
      preparationRejections := preparationRejections[t := current + 1];
      stopWaiting := 2 * (current + 1) > numPeers;
    }

    /** An accepted proposal is approved, and the node counts its own approval at once. */
    method ProposalReaction(proposal: Message, commitSucceeds: bool)
      returns (reply: Result<Message, ProposalError>, effect: ApprovalEffect)
      requires proposal.Proposal?
      modifies this
      ensures match OnProposal(old(State()), proposal.key, proposal.address)
              case Ok(n) =>
                && reply == Ok(Approval(proposal.key, proposal.address))
                && (State(), effect) == Counted(n, proposal.key, proposal.address, commitSucceeds)
              case Err(e) => State() == old(State()) && reply == Err(e) && effect == KeepCounting
      ensures var t := proposal.key.typeName;
              && (reply == Err(ProposalPromiseNotMade) <==> t !in old(proposals))
              && (reply.Ok? <==> t in old(proposals) && old(proposals)[t].ballot == proposal.key.ballot)
    {
      var t := proposal.key.typeName;
      if t !in proposals {
        return Err(ProposalPromiseNotMade), KeepCounting;
      }
      if !ProposalIsEqual(proposals[t].ballot, proposal.key.ballot) {
        return Err(ProposalNotLatest), KeepCounting;
      }
      proposals := proposals[t := Record(proposal.key.ballot, Some(proposal.address))];
      reply := Ok(Approval(proposal.key, proposal.address));
      effect := ApprovalReaction(Approval(proposal.key, proposal.address), commitSucceeds);
    }

    /** `commitSucceeds` stands for create_or_update_synapse_with_address returning rather than raising. */
    method ApprovalReaction(approval: Message, commitSucceeds: bool) returns (effect: ApprovalEffect)
      requires approval.Approval?
      modifies this
      ensures (State(), effect) == Counted(old(State()), approval.key, approval.address, commitSucceeds)
      ensures var own := approval.key.ballot.instanceId == instanceId;
              && (effect == StopWaiting <==> own && 2 * ApprovalsFor(State(), approval.key) > numPeers)
              && (effect == Commit(approval.address)
                  <==> !own && 2 * (ApprovalsFor(old(State()), approval.key) + 1) > numPeers)
      ensures effect == StopWaiting ==> ApprovalTest(State(), approval.key)
    {
      effect := KeepCounting;
      var count := 0;
      if approval.key in proposalApprovals {
        count := proposalApprovals[approval.key];
      }
      proposalApprovals := proposalApprovals[approval.key := count + 1];
      if 2 * (count + 1) > numPeers {
        if approval.key.ballot.instanceId == instanceId {
          effect := StopWaiting;
        } else {
          effect := Commit(approval.address);
          if commitSucceeds {
            proposalApprovals := proposalApprovals - {approval.key};
          }
        }
      }
    }

    /** The end of the promise wait in _get_address_from_consensus. */
    method ClosePromises(name: TypeName) returns (verdict: Verdict)
      modifies this
      ensures State() == TakePromises(old(State()), name)
      ensures verdict == Judge(numPeers, PromisesFor(old(State()), name), RejectionsFor(old(State()), name))
      ensures verdict == PreparationRejected
              <==> || 2 * |PromisesFor(old(State()), name)| < numPeers
                   || 2 * RejectionsFor(old(State()), name) > numPeers
    {
      var promises, rejections := [], 0;
      if name in preparationPromises {
        promises := preparationPromises[name];
      }
      preparationPromises := preparationPromises - {name};
      if name in preparationRejections {
        rejections := preparationRejections[name];
      }
      preparationRejections := preparationRejections - {name};
      verdict := Judge(numPeers, promises, rejections);
    }

    method SendProposal(key: Key, address: Address) returns (proposal: Message)
      modifies this
      ensures State() == WithRecord(old(State()), key, address)
      ensures proposal == Proposal(key, address)
    {
      proposals := proposals[key.typeName := Record(key.ballot, Some(address))];
      proposal := Proposal(key, address);
    }

    method CloseApprovals(key: Key) returns (agreed: bool)
      ensures agreed == ApprovalTest(State(), key)
    {
      var count := 0;
      if key in proposalApprovals {
        count := proposalApprovals[key];
      }
      agreed := 2 * count >= numPeers;
    }
  }
}
