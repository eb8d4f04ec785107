/** One whole attempt, from the preparation's arrival to the end of the approval wait. */
module Attempts {
  import opened Wrappers
  import opened Ballots
  import opened ConsensusNode
  import opened ConsensusNetwork
  import opened ConsensusInvariants
  import opened Rounds

  /**
   * Who takes part and in which order: `promisers` answer the preparation, of whom `heard` are counted
   * in time; `acceptors` get the proposal, of whom `voters` are counted in time.
   */
  datatype Plan = Plan(
    key: Key,
    draw: Address,
    promisers: seq<InstanceId>,
    heard: seq<InstanceId>,
    acceptors: seq<InstanceId>,
    voters: seq<InstanceId>)

  /** No answer to any preparation for the type is waiting at node `p`. */
  ghost predicate Idle(s: Network, p: InstanceId, t: TypeName) {
    && p in s.nodes && s.nodes[p].id == p
    && s.nodes[p].numPeers == |s.nodes|
    && PromisesFor(s.nodes[p], t) == [] && PromisersOf(s, p, t) == []
    && RejectionsFor(s.nodes[p], t) == 0
  }

  /** The ballot has not been used for anything. */
  ghost predicate Unused(s: Network, key: Key) {
    var p := key.ballot.instanceId;
    && p in s.nodes && ApprovalsFor(s.nodes[p], key) == 0
    && (forall id :: Count(p, key, id) !in s.books.counted)
    && key !in s.log.prepared && key !in s.log.closed && key !in s.log.decisions
    && key !in s.log.proposed && key !in s.log.finished
  }

  /** The prepared attempt `key` of node `p` has not been answered by anyone yet. */
  ghost predicate Ready(s: Network, p: InstanceId, key: Key) {
    && p == key.ballot.instanceId && Idle(s, p, key.typeName)
    && ApprovalsFor(s.nodes[p], key) == 0
    && (forall id :: Count(p, key, id) !in s.books.counted)
    && Envelope(p, Preparation(key)) in s.sent
    && key in s.log.prepared && key !in s.log.closed && key !in s.log.decisions
    && key !in s.log.proposed && key !in s.log.finished
  }

  function Reports(s: Network, x: Plan): seq<PromiseMessage>
    requires forall id :: id in x.heard ==> id in s.nodes
  {
    seq(|x.heard|, i requires 0 <= i < |x.heard| => PromiseOf(s, x.heard[i], x.key))
  }

  function Picked(ms: seq<PromiseMessage>, draw: Address): Address {
    WithDataContents(ms);
    if WithData(ms) == [] then draw else NewestOf(WithData(ms)).multicastIp.value
  }

  /** Nothing is picked that would have to be honest. */
  predicate MayPick(h: Hypothesis, ms: seq<PromiseMessage>) {
    h.Basic? || h.NoDangling? || h.Proposing? || WithData(ms) == []
  }

  /** The plan can be carried out from `s`. */
  ghost predicate Feasible(h: Hypothesis, s: Network, x: Plan) {
    var p, t := x.key.ballot.instanceId, x.key.typeName;
    && Ready(s, p, x.key)
    && Distinct(x.promisers) && Distinct(x.heard) && Distinct(x.acceptors) && Distinct(x.voters)
    && (forall id :: id in x.promisers ==> WillPromise(h, s, x.key, id))
    && (forall id :: id in x.heard ==> id in s.nodes && id in x.promisers)
    && 2 * |x.heard| >= |s.nodes|
    && (t in s.nodes[p].proposals ==> AtMost(s.nodes[p].proposals[t].ballot, x.key.ballot))
    && (forall id :: id in x.acceptors ==> id in s.nodes && (id in x.promisers || id == p))
    && (forall id :: id in x.voters ==> id in x.acceptors)
    && MayPick(h, Reports(s, x))
  }

  // ----- Up to the proposal

  function AnswerEvents(s: Network, x: Plan): seq<Event>
    requires forall id :: id in x.heard ==> id in s.nodes
  {
    PrepareEvents(x.key, x.promisers) + HearEvents(x.key.ballot.instanceId, x.heard, Reports(s, x))
  }

  function Heard(s: Network, x: Plan): Network
    requires x.key.ballot.instanceId in s.nodes && forall id :: id in x.heard ==> id in s.nodes
  {
    HearAll(PrepareAll(s, x.key, x.promisers), x.key.ballot.instanceId, x.key.typeName, x.heard, Reports(s, x))
  }

  lemma HeardEventsRun(h: Hypothesis, s: Network, x: Plan)
    requires Feasible(h, s, x)
    ensures Run(h, s, AnswerEvents(s, x), Heard(s, x))
  {
    var p := x.key.ballot.instanceId;
    var m := PrepareAll(s, x.key, x.promisers);
    PrepareRun(h, s, x.key, x.promisers);
    assert forall i :: 0 <= i < |x.promisers| ==> x.promisers[i] != p;
    assert m.nodes[p] == s.nodes[p];
    HearRun(h, m, p, x.key, x.heard, Reports(s, x));
    RunConcat(h, s, PrepareEvents(x.key, x.promisers), m, HearEvents(p, x.heard, Reports(s, x)), Heard(s, x));
  }

  /** What the proposer has to work with once it heard its promises. */
  ghost predicate PromisesIn(s: Network, m: Network, x: Plan, ms: seq<PromiseMessage>) {
    var p, t := x.key.ballot.instanceId, x.key.typeName;
    && p in s.nodes && m.nodes.Keys == s.nodes.Keys && |m.nodes| == |s.nodes|
    && m.nodes[p] == s.nodes[p].(promises := s.nodes[p].promises[t := ms])
    && (forall a :: a in s.nodes && a != p ==>
         m.nodes[a] == if a in x.promisers then OnPreparation(s.nodes[a], x.key).0 else s.nodes[a])
    && s.sent <= m.sent
    && m.log == s.log
    && m.books == s.books.(promisers := s.books.promisers[(p, t) := x.heard])
  }

  lemma HeardFacts(h: Hypothesis, s: Network, x: Plan)
    requires Feasible(h, s, x)
    ensures PromisesIn(s, Heard(s, x), x, Reports(s, x))
  {
  }

  lemma HeardRun(h: Hypothesis, s: Network, x: Plan) returns (m: Network)
    requires Feasible(h, s, x)
    ensures Run(h, s, AnswerEvents(s, x), m)
    ensures PromisesIn(s, m, x, Reports(s, x))
  {
    HeardEventsRun(h, s, x);
    HeardFacts(h, s, x);
    m := Heard(s, x);
  }

  lemma ClosePermitted(h: Hypothesis, m: Network, p: InstanceId, key: Key, draw: Address)
    requires p in m.nodes && key.ballot.instanceId == p && key in m.log.prepared && key !in m.log.closed
    requires MayPick(h, PromisesFor(m.nodes[p], key.typeName))
    requires m.nodes[p].numPeers == |m.nodes| && Distinct(PromisersOf(m, p, key.typeName))
    requires forall r :: r in PromisesFor(m.nodes[p], key.typeName) ==> r.key == key
    ensures Leads(h, m, ClosePromises(p, key, Some(draw)), DoClosePromises(m, p, key, Some(draw)))
  {
    DistinctSize(PromisersOf(m, p, key.typeName));
  }

  lemma CloseDecides(m: Network, p: InstanceId, key: Key, draw: Address)
    requires p in m.nodes
    requires 2 * |PromisesFor(m.nodes[p], key.typeName)| >= m.nodes[p].numPeers
    requires RejectionsFor(m.nodes[p], key.typeName) == 0
    ensures var m' := DoClosePromises(m, p, key, Some(draw));
            && key in m'.log.decisions
            && m'.log.decisions[key].address == Picked(PromisesFor(m.nodes[p], key.typeName), draw)
            && m'.log.decisions.Keys == m.log.decisions.Keys + {key}
            && (forall k :: k in m.log.decisions && k != key ==> m'.log.decisions[k] == m.log.decisions[k])
            && m'.log.closed == m.log.closed + {key}
            && m'.log.prepared == m.log.prepared && m'.log.proposed == m.log.proposed
            && m'.log.finished == m.log.finished && m'.log.returned == m.log.returned
            && m'.nodes == m.nodes[p := TakePromises(m.nodes[p], key.typeName)]
            && m'.sent == m.sent
            && m'.books == m.books.(promisers := m.books.promisers - {(p, key.typeName)})
  {
  }

  lemma SendLeads(h: Hypothesis, m: Network, p: InstanceId, key: Key)
    requires p in m.nodes && key.ballot.instanceId == p && key in m.log.decisions && key !in m.log.proposed
    requires key.typeName in m.nodes[p].proposals ==> AtMost(m.nodes[p].proposals[key.typeName].ballot, key.ballot)
    ensures Leads(h, m, SendProposal(p, key), DoSendProposal(m, p, key))
  {
  }

  /** What the network looks like when the attempt has just decided on address `a`. */
  ghost predicate Decided(s: Network, c: Network, x: Plan, a: Address) {
    var p, t := x.key.ballot.instanceId, x.key.typeName;
    && p in s.nodes && c.nodes.Keys == s.nodes.Keys
    && c.nodes[p] == TakePromises(s.nodes[p], t)
    && (forall n :: n in s.nodes && n != p ==>
         c.nodes[n] == if n in x.promisers then OnPreparation(s.nodes[n], x.key).0 else s.nodes[n])
    && s.sent <= c.sent
    && c.log.decisions.Keys == s.log.decisions.Keys + {x.key}
    && c.log.decisions[x.key].address == a
    && (forall k :: k in s.log.decisions && k != x.key ==> c.log.decisions[k] == s.log.decisions[k])
    && c.log.closed == s.log.closed + {x.key} && c.log.proposed == s.log.proposed
    && c.log.prepared == s.log.prepared && c.log.finished == s.log.finished && c.log.returned == s.log.returned
    && c.books == s.books.(promisers := s.books.promisers - {(p, t)})
  }

  /** What the network looks like when the proposal for address `a` has just been sent. */
  ghost predicate ProposalOut(s: Network, m: Network, x: Plan, a: Address) {
    var p, t := x.key.ballot.instanceId, x.key.typeName;
    && p in s.nodes && m.nodes.Keys == s.nodes.Keys
    && m.nodes[p] == WithRecord(TakePromises(s.nodes[p], t), x.key, a)
    && (forall n :: n in s.nodes && n != p ==>
         m.nodes[n] == if n in x.promisers then OnPreparation(s.nodes[n], x.key).0 else s.nodes[n])
    && s.sent <= m.sent && Envelope(p, Proposal(x.key, a)) in m.sent
    && m.log.decisions.Keys == s.log.decisions.Keys + {x.key}
    && m.log.decisions[x.key].address == a
    && (forall k :: k in s.log.decisions && k != x.key ==> m.log.decisions[k] == s.log.decisions[k])
    && m.log.closed == s.log.closed + {x.key} && m.log.proposed == s.log.proposed + {x.key}
    && m.log.prepared == s.log.prepared && m.log.finished == s.log.finished && m.log.returned == s.log.returned
    && m.books == s.books.(promisers := s.books.promisers - {(p, t)})
  }

  /** Ending the promise wait, from a state `m` reached by the promises `ms`. */
  lemma CloseShows(h: Hypothesis, s: Network, m: Network, x: Plan, ms: seq<PromiseMessage>) returns (c: Network)
    requires Feasible(h, s, x) && PromisesIn(s, m, x, ms) && |ms| == |x.heard| && MayPick(h, ms)
    requires forall r :: r in ms ==> r.key == x.key
    ensures Leads(h, m, ClosePromises(x.key.ballot.instanceId, x.key, Some(x.draw)), c)
    ensures Decided(s, c, x, Picked(ms, x.draw))
  {
    var p, t := x.key.ballot.instanceId, x.key.typeName;
    assert PromisesFor(m.nodes[p], t) == ms && PromisersOf(m, p, t) == x.heard;
    ClosePermitted(h, m, p, x.key, x.draw);
    CloseDecides(m, p, x.key, x.draw);
    c := DoClosePromises(m, p, x.key, Some(x.draw));
    assert m.books.promisers - {(p, t)} == s.books.promisers - {(p, t)};
    assert m.nodes[p].promises - {t} == s.nodes[p].promises - {t};
  }

  function DecisionEvents(s: Network, x: Plan): seq<Event>
    requires forall id :: id in x.heard ==> id in s.nodes
  {
    AnswerEvents(s, x) + [ClosePromises(x.key.ballot.instanceId, x.key, Some(x.draw))]
  }

  lemma DecidedRun(h: Hypothesis, s: Network, x: Plan) returns (c: Network)
    requires Feasible(h, s, x)
    ensures Run(h, s, DecisionEvents(s, x), c)
    ensures Decided(s, c, x, Picked(Reports(s, x), x.draw))
  {
    var p := x.key.ballot.instanceId;
    var m := HeardRun(h, s, x);
    c := CloseShows(h, s, m, x, Reports(s, x));
    RunOne(h, m, ClosePromises(p, x.key, Some(x.draw)), c);
    RunConcat(h, s, AnswerEvents(s, x), m, [ClosePromises(p, x.key, Some(x.draw))], c);
  }

  lemma SendShows(s: Network, c: Network, x: Plan, a: Address)
    requires Decided(s, c, x, a)
    ensures ProposalOut(s, DoSendProposal(c, x.key.ballot.instanceId, x.key), x, a)
  {
  }

  function ProposalEvents(s: Network, x: Plan): seq<Event>
    requires forall id :: id in x.heard ==> id in s.nodes
  {
    DecisionEvents(s, x) + [SendProposal(x.key.ballot.instanceId, x.key)]
  }

  lemma AnnouncedRun(h: Hypothesis, s: Network, x: Plan) returns (m: Network)
    requires Feasible(h, s, x)
    ensures Run(h, s, ProposalEvents(s, x), m)
    ensures ProposalOut(s, m, x, Picked(Reports(s, x), x.draw))
  {
    var p := x.key.ballot.instanceId;
    var c := DecidedRun(h, s, x);
    SendLeads(h, c, p, x.key);
    SendShows(s, c, x, Picked(Reports(s, x), x.draw));
    m := DoSendProposal(c, p, x.key);
    RunOne(h, c, SendProposal(p, x.key), m);
    RunConcat(h, s, DecisionEvents(s, x), c, [SendProposal(p, x.key)], m);
  }

  // ----- From the proposal to the end

  function ApprovalEvents(x: Plan, a: Address): seq<Event> {
    AcceptEvents(x.key, a, x.acceptors)
    + CountEvents(x.key, a, x.voters)
    + [CloseApprovals(x.key.ballot.instanceId, x.key)]
  }

  function RecordsAfter(s: Network, x: Plan, a: Address, n: InstanceId): map<TypeName, Record>
    requires n in s.nodes
  {
    var t := x.key.typeName;
    if n == x.key.ballot.instanceId || n in x.acceptors then s.nodes[n].proposals[t := Record(x.key.ballot, Some(a))]
    else if n in x.promisers then s.nodes[n].proposals[t := Record(x.key.ballot, Reported(s.nodes[n], t).multicastIp)]
    else s.nodes[n].proposals
  }

  /** The nodes and messages an attempt leaves behind. */
  ghost predicate NodesAfter(s: Network, s': Network, x: Plan, a: Address) {
    && s'.nodes.Keys == s.nodes.Keys
    && (forall n :: n in s.nodes ==>
          && s'.nodes[n].id == s.nodes[n].id && s'.nodes[n].numPeers == s.nodes[n].numPeers
          && s'.nodes[n].proposals == RecordsAfter(s, x, a, n))
    && s.sent <= s'.sent
    && (forall n :: n in x.acceptors ==> Envelope(n, Approval(x.key, a)) in s'.sent)
  }

  /** The progress an attempt leaves behind. */
  ghost predicate LogAfter(s: Network, s': Network, x: Plan, a: Address) {
    && s'.log.decisions.Keys == s.log.decisions.Keys + {x.key}
    && s'.log.decisions[x.key].address == a
    && (forall k :: k in s.log.decisions && k != x.key ==> s'.log.decisions[k] == s.log.decisions[k])
    && s'.log.proposed == s.log.proposed + {x.key}
    && s'.log.prepared == s.log.prepared && s'.log.closed == s.log.closed + {x.key}
    && s'.log.finished == s.log.finished + {x.key}
    && s'.log.returned == if 2 * |x.voters| >= |s.nodes| then s.log.returned[x.key := a] else s.log.returned
  }

  /** Other prepared attempts are as ready as before. */
  ghost predicate OthersReady(s: Network, s': Network, x: Plan) {
    && (forall q, k :: k != x.key && Ready(s, q, k) ==> Ready(s', q, k))
    && (forall q, t :: Idle(s, q, t) ==> Idle(s', q, t))
  }

  ghost predicate AttemptOver(s: Network, s': Network, x: Plan, a: Address) {
    NodesAfter(s, s', x, a) && LogAfter(s, s', x, a) && OthersReady(s, s', x)
  }

  function Accepting(m: Network, x: Plan, a: Address): Network {
    AcceptAll(m, x.key, a, x.acceptors)
  }

  lemma AcceptingRun(h: Hypothesis, s: Network, m: Network, x: Plan, a: Address)
    requires Feasible(h, s, x) && ProposalOut(s, m, x, a)
    ensures Run(h, m, AcceptEvents(x.key, a, x.acceptors), Accepting(m, x, a))
  {
    forall i | 0 <= i < |x.acceptors|
      ensures var n := x.acceptors[i];
              && n in m.nodes && x.key.typeName in m.nodes[n].proposals
              && m.nodes[n].proposals[x.key.typeName].ballot == x.key.ballot
    {
      var n := x.acceptors[i];
      assert n in x.acceptors;
      assert n in x.promisers ==> WillPromise(h, s, x.key, n);
    }
    AcceptRun(h, m, x.key, a, x.acceptors);
  }

  lemma CountingRun(h: Hypothesis, s: Network, m: Network, x: Plan, a: Address)
    requires Feasible(h, s, x) && ProposalOut(s, m, x, a)
    ensures var l := Accepting(m, x, a);
            x.key.ballot.instanceId in l.nodes
            && Run(h, l, CountEvents(x.key, a, x.voters), CountAll(l, x.key.ballot.instanceId, x.key, x.voters))
  {
    var p, l := x.key.ballot.instanceId, Accepting(m, x, a);
    SameSize(s.nodes, l.nodes);
    assert l.nodes[p].numPeers == s.nodes[p].numPeers && l.nodes[p].approvals == s.nodes[p].approvals;
    forall i | 0 <= i < |x.voters| ensures Envelope(x.voters[i], Approval(x.key, a)) in l.sent {
      assert x.voters[i] in x.voters;
    }
    CountRun(h, l, p, x.key, a, x.voters);
  }

  ghost predicate CountersAfter(s: Network, c: Network, x: Plan, count: nat) {
    var p, t := x.key.ballot.instanceId, x.key.typeName;
    && p in s.nodes && c.nodes.Keys == s.nodes.Keys
    && ApprovalsFor(c.nodes[p], x.key) == count
    && (forall k :: k != x.key ==> ApprovalsFor(c.nodes[p], k) == ApprovalsFor(s.nodes[p], k))
    && c.nodes[p].promises == s.nodes[p].promises - {t} && c.nodes[p].rejections == s.nodes[p].rejections - {t}
    && (forall n :: n in s.nodes && n != p ==>
          c.nodes[n].promises == s.nodes[n].promises && c.nodes[n].rejections == s.nodes[n].rejections
          && c.nodes[n].approvals == s.nodes[n].approvals)
    && c.books.promisers == s.books.promisers - {(p, t)}
    && (forall n :: n in c.books.counted ==> n in s.books.counted || n.key == x.key)
  }

  ghost predicate LogProposed(s: Network, c: Network, x: Plan, a: Address) {
    && c.log.decisions.Keys == s.log.decisions.Keys + {x.key}
    && c.log.decisions[x.key].address == a
    && (forall k :: k in s.log.decisions && k != x.key ==> c.log.decisions[k] == s.log.decisions[k])
    && c.log.closed == s.log.closed + {x.key} && c.log.proposed == s.log.proposed + {x.key}
    && c.log.prepared == s.log.prepared && c.log.finished == s.log.finished && c.log.returned == s.log.returned
  }

  /** The acceptors have accepted and `count` of their approvals have been counted. */
  ghost predicate VotesIn(s: Network, c: Network, x: Plan, a: Address, count: nat) {
    NodesAfter(s, c, x, a) && CountersAfter(s, c, x, count) && LogProposed(s, c, x, a)
  }

  /** A node that was asked to promise and then to accept, or neither, or one of the two. */
  lemma AcceptedNode(s: Network, m: Network, x: Plan, a: Address, n: InstanceId)
    requires ProposalOut(s, m, x, a) && n in s.nodes
    requires n in x.promisers ==> s.nodes[n].id != x.key.ballot.instanceId && MayPromise(s.nodes[n], x.key)
    ensures var n', n0 := Accepting(m, x, a).nodes[n], s.nodes[n];
            && n'.id == n0.id && n'.numPeers == n0.numPeers && n'.approvals == n0.approvals
            && n'.proposals == RecordsAfter(s, x, a, n)
            && (n != x.key.ballot.instanceId ==> n'.promises == n0.promises && n'.rejections == n0.rejections)
  {
    var p := x.key.ballot.instanceId;
    var m0 := m.nodes[n];
    if n == p {
      assert m0 == WithRecord(TakePromises(s.nodes[p], x.key.typeName), x.key, a);
    } else if n in x.promisers {
      assert m0 == OnPreparation(s.nodes[n], x.key).0;
    } else {
      assert m0 == s.nodes[n];
    }
  }

  /** Every node once the acceptors have accepted. */
  ghost predicate AcceptedNodes(s: Network, l: Network, x: Plan, a: Address) {
    && l.nodes.Keys == s.nodes.Keys
    && forall n :: n in s.nodes ==>
         var n', n0 := l.nodes[n], s.nodes[n];
         && n'.id == n0.id && n'.numPeers == n0.numPeers && n'.approvals == n0.approvals
         && n'.proposals == RecordsAfter(s, x, a, n)
         && (n != x.key.ballot.instanceId ==> n'.promises == n0.promises && n'.rejections == n0.rejections)
  }

  lemma AcceptedEach(s: Network, m: Network, x: Plan, a: Address)
    requires ProposalOut(s, m, x, a)
    requires forall n :: n in x.promisers && n in s.nodes ==>
                 s.nodes[n].id != x.key.ballot.instanceId && MayPromise(s.nodes[n], x.key)
    ensures AcceptedNodes(s, Accepting(m, x, a), x, a)
  {
    forall n | n in s.nodes
      ensures var n', n0 := Accepting(m, x, a).nodes[n], s.nodes[n];
              && n'.id == n0.id && n'.numPeers == n0.numPeers && n'.approvals == n0.approvals
              && n'.proposals == RecordsAfter(s, x, a, n)
              && (n != x.key.ballot.instanceId ==> n'.promises == n0.promises && n'.rejections == n0.rejections)
    {
      AcceptedNode(s, m, x, a, n);
    }
  }

  lemma AcceptedFacts(s: Network, m: Network, x: Plan, a: Address)
    requires ProposalOut(s, m, x, a)
    requires forall n :: n in x.promisers && n in s.nodes ==>
                 s.nodes[n].id != x.key.ballot.instanceId && MayPromise(s.nodes[n], x.key)
    ensures VotesIn(s, Accepting(m, x, a), x, a, ApprovalsFor(s.nodes[x.key.ballot.instanceId], x.key))
  {
    var l := Accepting(m, x, a);
    AcceptedEach(s, m, x, a);
    assert NodesAfter(s, l, x, a);
    assert LogProposed(s, l, x, a);
  }

  lemma CountedFacts(s: Network, l: Network, x: Plan, a: Address)
    requires VotesIn(s, l, x, a, 0)
    ensures VotesIn(s, CountAll(l, x.key.ballot.instanceId, x.key, x.voters), x, a, |x.voters|)
  {
    CountedCounters(s, l, x);
    CountedNodes(s, l, x, a);
  }

  lemma CountedCounters(s: Network, l: Network, x: Plan)
    requires CountersAfter(s, l, x, 0)
    ensures CountersAfter(s, CountAll(l, x.key.ballot.instanceId, x.key, x.voters), x, |x.voters|)
  {
  }

  lemma CountedNodes(s: Network, l: Network, x: Plan, a: Address)
    requires NodesAfter(s, l, x, a) && LogProposed(s, l, x, a) && x.key.ballot.instanceId in l.nodes
    ensures NodesAfter(s, CountAll(l, x.key.ballot.instanceId, x.key, x.voters), x, a)
    ensures LogProposed(s, CountAll(l, x.key.ballot.instanceId, x.key, x.voters), x, a)
  {
  }

  lemma FinishPermitted(h: Hypothesis, c: Network, p: InstanceId, key: Key)
    requires p in c.nodes && c.nodes[p].numPeers == |c.nodes| && key.ballot.instanceId == p
    requires key in c.log.proposed && key in c.log.decisions && key !in c.log.finished
    ensures Leads(h, c, CloseApprovals(p, key), DoCloseApprovals(c, p, key))
  {
  }

  lemma ClosingLeads(h: Hypothesis, s: Network, c: Network, x: Plan, a: Address)
    requires Ready(s, x.key.ballot.instanceId, x.key) && NodesAfter(s, c, x, a) && LogProposed(s, c, x, a)
    ensures x.key.ballot.instanceId in c.nodes && x.key in c.log.decisions
    ensures Leads(h, c, CloseApprovals(x.key.ballot.instanceId, x.key),
                  DoCloseApprovals(c, x.key.ballot.instanceId, x.key))
  {
    SameSize(s.nodes, c.nodes);
    FinishPermitted(h, c, x.key.ballot.instanceId, x.key);
  }

  lemma OtherStaysReady(s: Network, c: Network, x: Plan, a: Address, q: InstanceId, k: Key)
    requires NodesAfter(s, c, x, a) && CountersAfter(s, c, x, |x.voters|) && LogProposed(s, c, x, a)
    requires k != x.key && Ready(s, q, k)
    ensures Ready(c, q, k)
  {
  }

  lemma OtherStaysIdle(s: Network, c: Network, x: Plan, a: Address, q: InstanceId, t: TypeName)
    requires NodesAfter(s, c, x, a) && CountersAfter(s, c, x, |x.voters|) && Idle(s, q, t)
    ensures Idle(c, q, t)
  {
  }

  lemma ClosingFacts(s: Network, c: Network, x: Plan, a: Address)
    requires VotesIn(s, c, x, a, |x.voters|) && x.key.ballot.instanceId in s.nodes
    requires s.nodes[x.key.ballot.instanceId].numPeers == |s.nodes|
    ensures x.key in c.log.decisions && AttemptOver(s, DoCloseApprovals(c, x.key.ballot.instanceId, x.key), x, a)
  {
    var p := x.key.ballot.instanceId;
    var s' := DoCloseApprovals(c, p, x.key);
    forall q, k | k != x.key && Ready(s, q, k) ensures Ready(s', q, k) {
      OtherStaysReady(s, c, x, a, q, k);
    }
    forall q, t | Idle(s, q, t) ensures Idle(s', q, t) {
      OtherStaysIdle(s, c, x, a, q, t);
    }
    assert NodesAfter(s, s', x, a);
    assert LogAfter(s, s', x, a);
  }

  /** All events of the attempt; the proposal carries the picked address. */
  function AttemptEvents(s: Network, x: Plan): seq<Event>
    requires forall id :: id in x.heard ==> id in s.nodes
  {
    ProposalEvents(s, x) + ApprovalEvents(x, Picked(Reports(s, x), x.draw))
  }

  lemma VotesShow(h: Hypothesis, s: Network, m: Network, x: Plan, a: Address)
    requires Feasible(h, s, x) && ProposalOut(s, m, x, a)
    ensures var p := x.key.ballot.instanceId;
            && p in Accepting(m, x, a).nodes
            && VotesIn(s, CountAll(Accepting(m, x, a), p, x.key, x.voters), x, a, |x.voters|)
  {
    assert forall n :: n in x.promisers ==> WillPromise(h, s, x.key, n);
    AcceptedFacts(s, m, x, a);
    CountedFacts(s, Accepting(m, x, a), x, a);
  }

  lemma VotingRun(h: Hypothesis, s: Network, m: Network, x: Plan, a: Address) returns (c: Network)
    requires Feasible(h, s, x) && ProposalOut(s, m, x, a)
    ensures Run(h, m, AcceptEvents(x.key, a, x.acceptors) + CountEvents(x.key, a, x.voters), c)
    ensures VotesIn(s, c, x, a, |x.voters|)
    ensures forall id :: id in x.voters ==> Count(x.key.ballot.instanceId, x.key, id) in c.books.counted
  {
    var l := Accepting(m, x, a);
    AcceptingRun(h, s, m, x, a);
    CountingRun(h, s, m, x, a);
    VotesShow(h, s, m, x, a);
    c := CountAll(l, x.key.ballot.instanceId, x.key, x.voters);
    RunConcat(h, m, AcceptEvents(x.key, a, x.acceptors), l, CountEvents(x.key, a, x.voters), c);
  }

  /** The run of a whole attempt. */
  lemma AttemptRun(h: Hypothesis, s: Network, x: Plan) returns (s': Network)
    requires Feasible(h, s, x)
    ensures Run(h, s, AttemptEvents(s, x), s')
    ensures AttemptOver(s, s', x, Picked(Reports(s, x), x.draw))
  {
    var a := Picked(Reports(s, x), x.draw);
    var m := AnnouncedRun(h, s, x);
    var c := VotingRun(h, s, m, x, a);
    var p := x.key.ballot.instanceId;
    s' := DoCloseApprovals(c, p, x.key);
    ClosingLeads(h, s, c, x, a);
    ClosingFacts(s, c, x, a);
    RunOne(h, c, CloseApprovals(p, x.key), s');
    RunConcat(h, m, AcceptEvents(x.key, a, x.acceptors) + CountEvents(x.key, a, x.voters), c,
              [CloseApprovals(p, x.key)], s');
    RunConcat(h, s, ProposalEvents(s, x), m, ApprovalEvents(x, a), s');
  }
}
