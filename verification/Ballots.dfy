/** Ballots, the five consensus messages, and the choice of the newest promise. */
module Ballots {
  import opened Wrappers

  type InstanceId = nat
  type TypeName = string
  type Address = nat

  datatype Ballot = Ballot(proposalId: nat, instanceId: InstanceId)

  /** The type name and ballot every message carries. */
  datatype Key = Key(typeName: TypeName, ballot: Ballot)

  datatype Message =
    | Preparation(key: Key)
    | Promise(key: Key, accepted: Ballot, multicastIp: Option<Address>)
    | Rejection(key: Key)
    | Proposal(key: Key, address: Address)
    | Approval(key: Key, address: Address)

  type PromiseMessage = m: Message | m.Promise? witness Promise(Key("", Ballot(0, 0)), Ballot(0, 0), None)

  predicate ProposalIsNewer(current: Ballot, incoming: Ballot) {
    || current.proposalId < incoming.proposalId
    || (current.proposalId == incoming.proposalId && current.instanceId < incoming.instanceId)
  }

  predicate ProposalIsEqual(current: Ballot, incoming: Ballot) {
    current.proposalId == incoming.proposalId && current.instanceId == incoming.instanceId
  }

  /** The reflexive closure of "is newer", used only in specifications. */
  predicate AtMost(a: Ballot, b: Ballot) {
    !ProposalIsNewer(b, a)
  }

  /** Ballots are totally ordered: a later clock reading wins, and among equal ones the greater instance. */
  lemma BallotsOrdered(a: Ballot, b: Ballot, c: Ballot)
    ensures a.proposalId < b.proposalId ==> ProposalIsNewer(a, b) && !ProposalIsNewer(b, a)
    ensures a.proposalId == b.proposalId ==> (ProposalIsNewer(a, b) <==> a.instanceId < b.instanceId)
    ensures ProposalIsNewer(a, b) && ProposalIsNewer(b, c) ==> ProposalIsNewer(a, c)
    ensures ProposalIsEqual(a, b) <==> a == b
    ensures !ProposalIsNewer(a, b) && !ProposalIsNewer(b, a) <==> ProposalIsEqual(a, b)
  {
  }

  function NewestAcceptedProposal(p1: PromiseMessage, p2: PromiseMessage): PromiseMessage {
    if ProposalIsNewer(p2.accepted, p1.accepted) then p1 else p2
  }

  /** `reduce(newest_accepted_proposal, promises)`: a left fold. */
  function NewestOf(promises: seq<PromiseMessage>): (newest: PromiseMessage)
    requires |promises| > 0
    ensures newest in promises
  {
    var last := |promises| - 1;
    if last == 0 then promises[0]
    else NewestAcceptedProposal(NewestOf(promises[..last]), promises[last])
  }

  function WithData(promises: seq<PromiseMessage>): seq<PromiseMessage> {
    if promises == [] then []
    else
      var rest := WithData(promises[..|promises| - 1]);
      var last := promises[|promises| - 1];
      if last.multicastIp.Some? then rest + [last] else rest
  }

  lemma {:induction false} WithDataContents(promises: seq<PromiseMessage>)
    ensures forall m :: m in WithData(promises) <==> m in promises && m.multicastIp.Some?
  {
    if promises != [] {
      var last := |promises| - 1;
      WithDataContents(promises[..last]);
      assert promises == promises[..last] + [promises[last]];
    }
  }

  lemma WithDataNone(promises: seq<PromiseMessage>)
    requires forall m :: m in promises ==> m.multicastIp.None?
    ensures WithData(promises) == []
  {
  }

  lemma {:induction false} WithDataAll(promises: seq<PromiseMessage>)
    requires forall m :: m in promises ==> m.multicastIp.Some?
    ensures WithData(promises) == promises
  {
    if promises != [] {
      var last := |promises| - 1;
      WithDataAll(promises[..last]);
      assert promises == promises[..last] + [promises[last]];
    }
  }

  /** Exactly which promise the fold picks: the last of those with the greatest accepted ballot. */
  lemma {:induction false} NewestOfIsLastMaximum(promises: seq<PromiseMessage>) returns (i: nat)
    requires |promises| > 0
    ensures i < |promises| && NewestOf(promises) == promises[i]
    ensures forall j :: 0 <= j < |promises| ==> AtMost(promises[j].accepted, promises[i].accepted)
    ensures forall j :: i < j < |promises| ==> ProposalIsNewer(promises[j].accepted, promises[i].accepted)
  {
    var last := |promises| - 1;
    if last == 0 {
      i := 0;
    } else {
      var k := NewestOfIsLastMaximum(promises[..last]);
      i := if ProposalIsNewer(promises[last].accepted, promises[k].accepted) then k else last;
    }
  }

  /**
   * The fold breaks ties by position, yet every arrival order of the same promises yields the same
   * address as long as equal accepted ballots carry equal addresses.
   */
  lemma PickIgnoresArrivalOrder(ps: seq<PromiseMessage>, qs: seq<PromiseMessage>)
    requires |ps| > 0 && multiset(ps) == multiset(qs)
    requires forall m, n :: m in ps && n in ps && ProposalIsEqual(m.accepted, n.accepted) ==>
                 m.multicastIp == n.multicastIp
    ensures |qs| > 0
    ensures NewestOf(ps).multicastIp == NewestOf(qs).multicastIp
    ensures NewestOf(ps).accepted == NewestOf(qs).accepted
  {
    assert |multiset(ps)| == |multiset(qs)|;
    var i := NewestOfIsLastMaximum(ps);
    var j := NewestOfIsLastMaximum(qs);
    assert ps[i] in multiset(qs) && qs[j] in multiset(ps);
  }

  /** The tie-break does depend on position once equal ballots may carry different addresses. */
  lemma TieBreakDependsOnOrder(m: PromiseMessage, n: PromiseMessage)
    requires m.accepted == n.accepted && m.multicastIp != n.multicastIp
    ensures multiset([m, n]) == multiset([n, m])
    ensures NewestOf([m, n]).multicastIp != NewestOf([n, m]).multicastIp
  {
  }
}
