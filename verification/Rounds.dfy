/**
 * Attempts carried out without interference: who answers and in which order is a parameter, the
 * resulting state is computed exactly, and every event is shown to be permitted.
 */
module Rounds {
  import opened Ballots
  import opened ConsensusNode
  import opened ConsensusNetwork
  import opened ConsensusInvariants

  // ----- The preparation reaches `ids`

  /** The promise node `a` sends when asked to promise `key`. */
  function PromiseOf(s: Network, a: InstanceId, key: Key): PromiseMessage
    requires a in s.nodes
  {
    var r := Reported(s.nodes[a], key.typeName);
    Promise(key, r.ballot, r.multicastIp)
  }

  function PrepareEvents(key: Key, ids: seq<InstanceId>): seq<Event> {
    var env := Envelope(key.ballot.instanceId, Preparation(key));
    seq(|ids|, i requires 0 <= i < |ids| => ReceivePreparation(ids[i], env))
  }

  function PrepareAll(s: Network, key: Key, ids: seq<InstanceId>): Network {
    s.(nodes := map a | a in s.nodes :: if a in ids then OnPreparation(s.nodes[a], key).0 else s.nodes[a],
       sent := s.sent + (set a | a in ids && a in s.nodes :: Envelope(a, PromiseOf(s, a, key))))
  }

  ghost predicate WillPromise(h: Hypothesis, s: Network, key: Key, a: InstanceId) {
    && a in s.nodes
    && s.nodes[a].id == a != key.ballot.instanceId
    && MayPromise(s.nodes[a], key)
    && (!h.Basic? && !h.Honest? && !h.Proposing? && key.typeName in s.nodes[a].proposals ==>
          !Dangling(s, a, key.typeName))
  }

  ghost predicate AllWillPromise(h: Hypothesis, s: Network, key: Key, ids: seq<InstanceId>) {
    && Distinct(ids)
    && Envelope(key.ballot.instanceId, Preparation(key)) in s.sent
    && forall i :: 0 <= i < |ids| ==> WillPromise(h, s, key, ids[i])
  }

  lemma PrepareLeads(h: Hypothesis, m: Network, key: Key, a: InstanceId)
    requires WillPromise(h, m, key, a) && Envelope(key.ballot.instanceId, Preparation(key)) in m.sent
    ensures Leads(h, m, ReceivePreparation(a, Envelope(key.ballot.instanceId, Preparation(key))),
                  DoReceivePreparation(m, a, key))
  {
  }

  lemma PrepareStep(h: Hypothesis, s: Network, key: Key, ids: seq<InstanceId>, k: nat)
    requires k < |ids| && AllWillPromise(h, s, key, ids)
    ensures WillPromise(h, PrepareAll(s, key, ids[..k]), key, ids[k])
    ensures DoReceivePreparation(PrepareAll(s, key, ids[..k]), ids[k], key) == PrepareAll(s, key, ids[..k + 1])
  {
  }

  lemma PrepareRun(h: Hypothesis, s: Network, key: Key, ids: seq<InstanceId>)
    requires AllWillPromise(h, s, key, ids)
    ensures Run(h, s, PrepareEvents(key, ids), PrepareAll(s, key, ids))
  {
    var states := seq(|ids| + 1, k requires 0 <= k <= |ids| => PrepareAll(s, key, ids[..k]));
    var es := PrepareEvents(key, ids);
    forall k | 0 <= k < |es| ensures Leads(h, states[k], es[k], states[k + 1]) {
      PrepareStep(h, s, key, ids, k);
      PrepareLeads(h, states[k], key, ids[k]);
    }
    ChainRun(h, states, es);
    assert states[0] == s;
    assert ids[..|ids|] == ids;
  }

  // ----- The proposer hears the promises `ms` of `ids`

  function HearEvents(p: InstanceId, ids: seq<InstanceId>, ms: seq<PromiseMessage>): seq<Event>
    requires |ids| == |ms|
  {
    seq(|ids|, i requires 0 <= i < |ids| => ReceivePromise(p, Envelope(ids[i], ms[i])))
  }

  function HearAll(s: Network, p: InstanceId, t: TypeName, ids: seq<InstanceId>, ms: seq<PromiseMessage>): Network
    requires p in s.nodes
  {
    if ids == [] then s
    else s.(nodes := s.nodes[p := s.nodes[p].(promises := s.nodes[p].promises[t := ms])],
            books := s.books.(promisers := s.books.promisers[(p, t) := ids]))
  }

  ghost predicate CanHear(s: Network, p: InstanceId, key: Key, ids: seq<InstanceId>, ms: seq<PromiseMessage>) {
    && p in s.nodes && s.nodes[p].id == p == key.ballot.instanceId
    && PromisesFor(s.nodes[p], key.typeName) == [] && PromisersOf(s, p, key.typeName) == []
    && |ids| == |ms|
    && forall i :: 0 <= i < |ids| ==> ms[i].key == key && Envelope(ids[i], ms[i]) in s.sent
  }

  lemma HearStep(h: Hypothesis, s: Network, p: InstanceId, key: Key, ids: seq<InstanceId>, ms: seq<PromiseMessage>,
                 k: nat)
    requires CanHear(s, p, key, ids, ms) && k < |ids|
    ensures Leads(h, HearAll(s, p, key.typeName, ids[..k], ms[..k]), ReceivePromise(p, Envelope(ids[k], ms[k])),
                  HearAll(s, p, key.typeName, ids[..k + 1], ms[..k + 1]))
  {
    var m := HearAll(s, p, key.typeName, ids[..k], ms[..k]);
    assert ids[..k + 1] == ids[..k] + [ids[k]] && ms[..k + 1] == ms[..k] + [ms[k]];
    assert PromisesFor(m.nodes[p], key.typeName) == ms[..k];
    assert PromisersOf(m, p, key.typeName) == ids[..k];
    var m' := DoReceivePromise(m, p, ids[k], ms[k]);
    var t := key.typeName;
    assert m'.nodes[p].promises == s.nodes[p].promises[t := ms[..k + 1]];
    assert m'.nodes == HearAll(s, p, t, ids[..k + 1], ms[..k + 1]).nodes;
    assert m'.books.promisers == s.books.promisers[(p, t) := ids[..k + 1]];
  }

  lemma HearRun(h: Hypothesis, s: Network, p: InstanceId, key: Key, ids: seq<InstanceId>, ms: seq<PromiseMessage>)
    requires CanHear(s, p, key, ids, ms)
    ensures Run(h, s, HearEvents(p, ids, ms), HearAll(s, p, key.typeName, ids, ms))
  {
    var states := seq(|ids| + 1, k requires 0 <= k <= |ids| => HearAll(s, p, key.typeName, ids[..k], ms[..k]));
    var es := HearEvents(p, ids, ms);
    forall k | 0 <= k < |es| ensures Leads(h, states[k], es[k], states[k + 1]) {
      HearStep(h, s, p, key, ids, ms, k);
    }
    ChainRun(h, states, es);
    assert ids[..|ids|] == ids && ms[..|ids|] == ms;
  }

  // ----- The proposal reaches `ids`

  function AcceptEvents(key: Key, a: Address, ids: seq<InstanceId>): seq<Event> {
    seq(|ids|, i requires 0 <= i < |ids| => ReceiveProposal(ids[i], Envelope(key.ballot.instanceId, Proposal(key, a))))
  }

  function AcceptAll(s: Network, key: Key, a: Address, ids: seq<InstanceId>): Network {
    s.(nodes := map id | id in s.nodes :: if id in ids then WithRecord(s.nodes[id], key, a) else s.nodes[id],
       sent := s.sent + (set id | id in ids :: Envelope(id, Approval(key, a))))
  }

  ghost predicate AllWillAccept(s: Network, key: Key, a: Address, ids: seq<InstanceId>) {
    && Distinct(ids)
    && Envelope(key.ballot.instanceId, Proposal(key, a)) in s.sent
    && forall i :: 0 <= i < |ids| ==>
         && ids[i] in s.nodes && key.typeName in s.nodes[ids[i]].proposals
         && s.nodes[ids[i]].proposals[key.typeName].ballot == key.ballot
  }

  lemma AcceptedOne(s: Network, key: Key, a: Address, ids: seq<InstanceId>, k: nat)
    requires AllWillAccept(s, key, a, ids) && k < |ids|
    ensures DoReceiveProposal(AcceptAll(s, key, a, ids[..k]), ids[k], key, a) == AcceptAll(s, key, a, ids[..k + 1])
  {
  }

  lemma AcceptStep(h: Hypothesis, s: Network, key: Key, a: Address, ids: seq<InstanceId>, k: nat)
    requires AllWillAccept(s, key, a, ids) && k < |ids|
    ensures Leads(h, AcceptAll(s, key, a, ids[..k]),
                  ReceiveProposal(ids[k], Envelope(key.ballot.instanceId, Proposal(key, a))),
                  AcceptAll(s, key, a, ids[..k + 1]))
  {
    AcceptedOne(s, key, a, ids, k);
  }

  lemma AcceptRun(h: Hypothesis, s: Network, key: Key, a: Address, ids: seq<InstanceId>)
    requires AllWillAccept(s, key, a, ids)
    ensures Run(h, s, AcceptEvents(key, a, ids), AcceptAll(s, key, a, ids))
  {
    var states := seq(|ids| + 1, k requires 0 <= k <= |ids| => AcceptAll(s, key, a, ids[..k]));
    var es := AcceptEvents(key, a, ids);
    forall k | 0 <= k < |es| ensures Leads(h, states[k], es[k], states[k + 1]) {
      AcceptStep(h, s, key, a, ids, k);
    }
    ChainRun(h, states, es);
    assert states[0] == s;
    assert ids[..|ids|] == ids;
  }

  // ----- The proposer counts the approvals of `ids`

  function CountEvents(key: Key, a: Address, ids: seq<InstanceId>): seq<Event> {
    var p := key.ballot.instanceId;
    seq(|ids|, i requires 0 <= i < |ids| => ReceiveApproval(p, Envelope(ids[i], Approval(key, a)), true))
  }

  function CountAll(s: Network, p: InstanceId, key: Key, ids: seq<InstanceId>): Network
    requires p in s.nodes
  {
    if ids == [] then s
    else s.(nodes := s.nodes[p := s.nodes[p].(approvals := s.nodes[p].approvals[key := |ids|])],
            books := s.books.(counted := s.books.counted + (set id | id in ids :: Count(p, key, id))))
  }

  ghost predicate CanCount(s: Network, p: InstanceId, key: Key, a: Address, ids: seq<InstanceId>) {
    && p in s.nodes && s.nodes[p].id == p == key.ballot.instanceId
    && s.nodes[p].numPeers >= |s.nodes|
    && ApprovalsFor(s.nodes[p], key) == 0
    && (forall id :: Count(p, key, id) !in s.books.counted)
    && Distinct(ids)
    && forall i :: 0 <= i < |ids| ==> Envelope(ids[i], Approval(key, a)) in s.sent
  }

  lemma CountLeads(h: Hypothesis, m: Network, p: InstanceId, env: Envelope)
    requires p in m.nodes && |m.nodes| <= m.nodes[p].numPeers && env in m.sent && env.msg.Approval?
    requires Count(p, env.msg.key, env.from) !in m.books.counted
    ensures Leads(h, m, ReceiveApproval(p, env, true),
                  DoReceiveApproval(m, p, env.from, env.msg.key, env.msg.address, true))
  {
  }

  lemma CountedOne(s: Network, p: InstanceId, key: Key, a: Address, ids: seq<InstanceId>, k: nat)
    requires CanCount(s, p, key, a, ids) && k < |ids|
    ensures DoReceiveApproval(CountAll(s, p, key, ids[..k]), p, ids[k], key, a, true)
         == CountAll(s, p, key, ids[..k + 1])
  {
    var m := CountAll(s, p, key, ids[..k]);
    assert ids[..k + 1] == ids[..k] + [ids[k]];
    assert ApprovalsFor(m.nodes[p], key) == k;
    var m' := DoReceiveApproval(m, p, ids[k], key, a, true);
    assert m'.nodes[p].approvals == s.nodes[p].approvals[key := k + 1];
    assert m'.nodes == CountAll(s, p, key, ids[..k + 1]).nodes;
    assert m'.books.counted == CountAll(s, p, key, ids[..k + 1]).books.counted;
  }

  lemma CountStep(h: Hypothesis, s: Network, p: InstanceId, key: Key, a: Address, ids: seq<InstanceId>, k: nat)
    requires CanCount(s, p, key, a, ids) && k < |ids|
    ensures Leads(h, CountAll(s, p, key, ids[..k]), ReceiveApproval(p, Envelope(ids[k], Approval(key, a)), true),
                  CountAll(s, p, key, ids[..k + 1]))
  {
    var m := CountAll(s, p, key, ids[..k]);
    assert forall i :: 0 <= i < k ==> ids[..k][i] == ids[i] != ids[k];
    SameSize(s.nodes, m.nodes);
    CountLeads(h, m, p, Envelope(ids[k], Approval(key, a)));
    CountedOne(s, p, key, a, ids, k);
  }

  lemma CountRun(h: Hypothesis, s: Network, p: InstanceId, key: Key, a: Address, ids: seq<InstanceId>)
    requires CanCount(s, p, key, a, ids)
    ensures Run(h, s, CountEvents(key, a, ids), CountAll(s, p, key, ids))
  {
    var states := seq(|ids| + 1, k requires 0 <= k <= |ids| => CountAll(s, p, key, ids[..k]));
    var es := CountEvents(key, a, ids);
    forall k | 0 <= k < |es| ensures Leads(h, states[k], es[k], states[k + 1]) {
      CountStep(h, s, p, key, a, ids, k);
    }
    ChainRun(h, states, es);
    assert ids[..|ids|] == ids;
  }
}
