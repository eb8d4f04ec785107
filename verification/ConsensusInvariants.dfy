/** What every event keeps, under the basic hypotheses alone unless a predicate says otherwise. */
module ConsensusInvariants {
  import opened Wrappers
  import opened Ballots
  import opened ConsensusNode
  import opened ConsensusNetwork

  /** Node `a` keeps a record for the key's type, at the key's ballot or a newer one. */
  predicate RecordReaches(s: Network, a: InstanceId, key: Key) {
    && a in s.nodes
    && key.typeName in s.nodes[a].proposals
    && AtMost(key.ballot, s.nodes[a].proposals[key.typeName].ballot)
  }

  ghost predicate NodesOk(s: Network) {
    forall p :: p in s.nodes ==> s.nodes[p].id == p
  }

  ghost predicate PhasesOk(s: Network) {
    && s.log.closed <= s.log.prepared
    && s.log.decisions.Keys <= s.log.closed
    && s.log.proposed <= s.log.decisions.Keys
    && s.log.finished <= s.log.proposed
    && s.log.returned.Keys <= s.log.finished
    && (forall key :: key in s.log.prepared ==> key.ballot.instanceId in s.nodes)
  }

  ghost predicate MessageOk(s: Network, env: Envelope) {
    && env.from in s.nodes
    && env.msg.key in s.log.prepared
    && match env.msg
       case Preparation(key) => env.from == key.ballot.instanceId
       case Promise(key, accepted, ip) =>
         && env.from != key.ballot.instanceId
         && RecordReaches(s, env.from, key)
         && (ip.Some? ==> ProposalIsNewer(accepted, key.ballot))
       case Rejection(key) => true
       case Proposal(key, a) => key in s.log.proposed && key in s.log.decisions && a == s.log.decisions[key].address
       case Approval(key, a) => key in s.log.proposed && key in s.log.decisions && a == s.log.decisions[key].address
  }

  ghost predicate MessagesOk(s: Network) {
    forall env :: env in s.sent ==> MessageOk(s, env)
  }

  /** Accepting leaves a trace: the record reaches the ballot and holds some address from then on. */
  ghost predicate Trace(s: Network, a: InstanceId, key: Key) {
    && key in s.log.decisions
    && RecordReaches(s, a, key)
    && var r := s.nodes[a].proposals[key.typeName];
       r.multicastIp.Some? && (r.ballot == key.ballot ==> r.multicastIp.value == s.log.decisions[key].address)
  }

  ghost predicate AcceptedOk(s: Network) {
    forall a, key :: Accepted(s, a, key) ==> Trace(s, a, key)
  }

  /** A promise reports at least every older ballot of the type its sender has ever accepted. */
  ghost predicate ReportOk(s: Network, env: Envelope, key: Key)
    requires env.msg.Promise?
  {
    (&& Accepted(s, env.from, key) && key.typeName == env.msg.key.typeName
     && ProposalIsNewer(key.ballot, env.msg.key.ballot)) ==>
      env.msg.multicastIp.Some? && AtMost(key.ballot, env.msg.accepted)
  }

  ghost predicate ReportsOk(s: Network) {
    forall env, key :: env in s.sent && env.msg.Promise? ==> ReportOk(s, env, key)
  }

  /** The promises waiting at a node are messages really sent, in the order of their senders. */
  ghost predicate PendingOk(s: Network) {
    forall p, t :: p in s.nodes ==> Matches(s, PromisersOf(s, p, t), PromisesFor(s.nodes[p], t))
  }

  ghost predicate Matches(s: Network, ids: seq<InstanceId>, ms: seq<PromiseMessage>) {
    && |ids| == |ms|
    && forall i :: 0 <= i < |ms| ==> Envelope(ids[i], ms[i]) in s.sent
  }

  ghost predicate DecisionOk(s: Network, key: Key, d: Decision) {
    && Matches(s, d.quorum, d.reports)
    && 2 * |Members(d.quorum)| >= |s.nodes|
    && (forall m :: m in d.reports ==> m.key == key)
    && (d.newlyDrawn <==> WithData(d.reports) == [])
    && (!d.newlyDrawn ==> NewestOf(WithData(d.reports)).multicastIp == Some(d.address))
  }

  ghost predicate DecisionsOk(s: Network) {
    forall key :: key in s.log.decisions ==> DecisionOk(s, key, s.log.decisions[key])
  }

  /** Every re-proposed address was picked from an honest report. */
  ghost predicate PicksHonest(s: Network) {
    forall key :: key in s.log.decisions && !s.log.decisions[key].newlyDrawn ==>
      var data := WithData(s.log.decisions[key].reports);
      data != [] ==> HonestReport(s, NewestOf(data))
  }

  ghost predicate Inv(s: Network) {
    NodesOk(s) && PhasesOk(s) && MessagesOk(s) && AcceptedOk(s) && ReportsOk(s) && PendingOk(s) && DecisionsOk(s)
  }

  lemma InvStart(ids: set<InstanceId>)
    ensures Inv(Start(ids)) && PicksHonest(Start(ids))
  {
  }

  lemma SameSize<A, B, C>(m: map<A, B>, n: map<A, C>)
    requires m.Keys == n.Keys
    ensures |m| == |n|
  {
  }

  // ----- Events that touch neither records nor messages

  predicate Quiet(e: Event) {
    !e.StartAttempt? && !e.ReceivePreparation? && !e.SendProposal? && !e.ReceiveProposal?
  }

  /** Records and messages as they were; a key may get a decision, if it had none. */
  ghost predicate SameTraffic(s: Network, s': Network) {
    && s'.nodes.Keys == s.nodes.Keys
    && (forall p :: p in s.nodes ==> s'.nodes[p].id == s.nodes[p].id && s'.nodes[p].proposals == s.nodes[p].proposals)
    && s'.sent == s.sent
    && s'.log.prepared == s.log.prepared
    && s'.log.proposed == s.log.proposed
    && s.log.decisions.Keys <= s'.log.decisions.Keys
    && (forall key :: key in s.log.decisions ==> s'.log.decisions[key] == s.log.decisions[key])
  }

  lemma QuietClosePromises(s: Network, p: InstanceId, key: Key, draw: Option<Address>)
    requires p in s.nodes && key !in s.log.decisions
    ensures SameTraffic(s, DoClosePromises(s, p, key, draw))
  {
  }

  lemma QuietReceiveApproval(s: Network, p: InstanceId, from: InstanceId, key: Key, a: Address, ok: bool)
    requires p in s.nodes
    ensures SameTraffic(s, DoReceiveApproval(s, p, from, key, a, ok))
  {
  }

  lemma QuietNode(s: Network, p: InstanceId, n: Node)
    requires p in s.nodes && n.id == s.nodes[p].id && n.proposals == s.nodes[p].proposals
    ensures SameTraffic(s, s.(nodes := s.nodes[p := n]))
  {
  }

  lemma QuietReceivePromise(s: Network, p: InstanceId, from: InstanceId, m: PromiseMessage)
    requires p in s.nodes
    ensures SameTraffic(s, DoReceivePromise(s, p, from, m))
  {
  }

  lemma QuietCloseApprovals(s: Network, p: InstanceId, key: Key)
    requires p in s.nodes && key in s.log.decisions
    ensures SameTraffic(s, DoCloseApprovals(s, p, key))
  {
  }

  lemma QuietStep(s: Network, e: Event)
    requires Enabled(s, e) && Quiet(e) && PhasesOk(s)
    ensures SameTraffic(s, Step(s, e))
  {
    match e
    case SetPeers(p, count) => QuietNode(s, p, s.nodes[p].(numPeers := count));
    case ReceivePromise(p, env) => QuietReceivePromise(s, p, env.from, env.msg);
    case ReceiveRejection(p, env) => QuietNode(s, p, OnRejection(s.nodes[p], env.msg.key));
    case ClosePromises(p, key, draw) => QuietClosePromises(s, p, key, draw);
    case ReceiveApproval(p, env, ok) => QuietReceiveApproval(s, p, env.from, env.msg.key, env.msg.address, ok);
    case CloseApprovals(p, key) => QuietCloseApprovals(s, p, key);
    case _ =>
  }

  lemma FrameTraffic(s: Network, s': Network)
    requires NodesOk(s) && MessagesOk(s) && AcceptedOk(s) && ReportsOk(s)
    requires SameTraffic(s, s')
    ensures NodesOk(s') && MessagesOk(s') && AcceptedOk(s') && ReportsOk(s')
    ensures forall a, key :: Accepted(s', a, key) <==> Accepted(s, a, key)
  {
    forall a, key ensures Accepted(s', a, key) <==> Accepted(s, a, key) {
      if key in s'.log.decisions {
        var approval := Envelope(a, Approval(key, s'.log.decisions[key].address));
        assert approval in s.sent ==> MessageOk(s, approval);
      }
    }
    forall a, key | Accepted(s', a, key) ensures Trace(s', a, key) {
      assert Trace(s, a, key);
    }
    forall env | env in s'.sent ensures MessageOk(s', env) {
      assert MessageOk(s, env);
    }
    forall env, key | env in s'.sent && env.msg.Promise? ensures ReportOk(s', env, key) {
      assert ReportOk(s, env, key);
    }
  }

  // ----- Events that send a message

  ghost predicate TrafficOk(s: Network) {
    NodesOk(s) && MessagesOk(s) && AcceptedOk(s) && ReportsOk(s)
  }

  lemma TrafficStartAttempt(s: Network, p: InstanceId, key: Key)
    requires TrafficOk(s) && p in s.nodes && key.ballot.instanceId == p
    ensures TrafficOk(DoStartAttempt(s, p, key))
  {
    var s' := DoStartAttempt(s, p, key);
    forall a, k | Accepted(s', a, k) ensures Trace(s', a, k) {
      assert Accepted(s, a, k) && Trace(s, a, k);
    }
    forall env | env in s'.sent ensures MessageOk(s', env) {
      assert env in s.sent ==> MessageOk(s, env);
    }
    forall env, k | env in s'.sent && env.msg.Promise? ensures ReportOk(s', env, k) {
      assert ReportOk(s, env, k);
    }
  }

  lemma TrafficReceivePreparation(s: Network, p: InstanceId, key: Key)
    requires TrafficOk(s) && p in s.nodes && key in s.log.prepared
    ensures TrafficOk(DoReceivePreparation(s, p, key))
  {
    var s' := DoReceivePreparation(s, p, key);
    forall a, k | Accepted(s', a, k) ensures Trace(s', a, k) {
      assert Accepted(s, a, k) && Trace(s, a, k);
    }
    forall env | env in s'.sent ensures MessageOk(s', env) {
      assert env in s.sent ==> MessageOk(s, env);
    }
    forall env, k | env in s'.sent && env.msg.Promise? ensures ReportOk(s', env, k) {
      assert Accepted(s', env.from, k) ==> Accepted(s, env.from, k) && Trace(s, env.from, k);
      assert env in s.sent ==> ReportOk(s, env, k);
    }
  }

  lemma TrafficSendProposal(s: Network, p: InstanceId, key: Key)
    requires TrafficOk(s) && p in s.nodes && key in s.log.decisions && key in s.log.prepared
    requires key.ballot.instanceId == p
    requires key.typeName in s.nodes[p].proposals ==> AtMost(s.nodes[p].proposals[key.typeName].ballot, key.ballot)
    ensures TrafficOk(DoSendProposal(s, p, key))
  {
    var s' := DoSendProposal(s, p, key);
    forall a, k | Accepted(s', a, k) ensures Trace(s', a, k) {
      assert k != key || a != p ==> Accepted(s, a, k) && Trace(s, a, k);
    }
    forall env | env in s'.sent ensures MessageOk(s', env) {
      assert env in s.sent ==> MessageOk(s, env);
    }
    forall env, k | env in s'.sent && env.msg.Promise? ensures ReportOk(s', env, k) {
      assert ReportOk(s, env, k) && MessageOk(s, env);
      assert k != key || env.from != p ==> (Accepted(s', env.from, k) ==> Accepted(s, env.from, k));
    }
  }

  lemma TrafficReceiveProposal(s: Network, p: InstanceId, key: Key, a: Address)
    requires TrafficOk(s) && p in s.nodes && key in s.log.proposed && key in s.log.decisions && key in s.log.prepared
    requires a == s.log.decisions[key].address
    ensures TrafficOk(DoReceiveProposal(s, p, key, a))
  {
    var s' := DoReceiveProposal(s, p, key, a);
    forall b, k | Accepted(s', b, k) ensures Trace(s', b, k) {
      assert k != key || b != p ==> Accepted(s, b, k) && Trace(s, b, k);
    }
    forall env | env in s'.sent ensures MessageOk(s', env) {
      assert env in s.sent ==> MessageOk(s, env);
    }
    forall env, k | env in s'.sent && env.msg.Promise? ensures ReportOk(s', env, k) {
      assert ReportOk(s, env, k) && MessageOk(s, env);
      assert k != key || env.from != p ==> (Accepted(s', env.from, k) ==> Accepted(s, env.from, k));
    }
  }

  // ----- All events

  lemma TrafficStep(s: Network, e: Event)
    requires Permits(Proposing, s, e) && PhasesOk(s) && TrafficOk(s)
    ensures TrafficOk(Step(s, e))
  {
    match e
    case StartAttempt(p, key) => TrafficStartAttempt(s, p, key);
    case ReceivePreparation(p, env) => assert MessageOk(s, env); TrafficReceivePreparation(s, p, env.msg.key);
    case SendProposal(p, key) => TrafficSendProposal(s, p, key);
    case ReceiveProposal(p, env) =>
      assert MessageOk(s, env);
      TrafficReceiveProposal(s, p, env.msg.key, env.msg.address);
    case _ => QuietStep(s, e); FrameTraffic(s, Step(s, e));
  }

  lemma PhasesStep(s: Network, e: Event)
    requires Enabled(s, e) && PhasesOk(s)
    ensures PhasesOk(Step(s, e))
  {
  }

  lemma NodesKept(s: Network, e: Event)
    requires Enabled(s, e)
    ensures Step(s, e).nodes.Keys == s.nodes.Keys && |Step(s, e).nodes| == |s.nodes|
    ensures s.sent <= Step(s, e).sent
  {
  }

  lemma PendingReceivePromise(s: Network, p: InstanceId, from: InstanceId, m: PromiseMessage)
    requires NodesOk(s) && PendingOk(s) && p in s.nodes && Envelope(from, m) in s.sent
    ensures PendingOk(DoReceivePromise(s, p, from, m))
  {
  }

  lemma PendingClosePromises(s: Network, p: InstanceId, key: Key, draw: Option<Address>)
    requires PendingOk(s) && p in s.nodes
    ensures PendingOk(DoClosePromises(s, p, key, draw))
  {
    var s' := DoClosePromises(s, p, key, draw);
    forall q, t | q in s'.nodes ensures Matches(s', PromisersOf(s', q, t), PromisesFor(s'.nodes[q], t)) {
      assert Matches(s, PromisersOf(s, q, t), PromisesFor(s.nodes[q], t));
    }
  }

  lemma PromisesKept(s: Network, e: Event)
    requires Enabled(s, e) && !e.ReceivePromise? && !e.ClosePromises?
    ensures Step(s, e).books.promisers == s.books.promisers
    ensures forall q :: q in s.nodes && q in Step(s, e).nodes ==> Step(s, e).nodes[q].promises == s.nodes[q].promises
  {
  }

  lemma FramePending(s: Network, s': Network)
    requires PendingOk(s) && s'.nodes.Keys == s.nodes.Keys && s.sent <= s'.sent
    requires s'.books.promisers == s.books.promisers
    requires forall q :: q in s.nodes ==> s'.nodes[q].promises == s.nodes[q].promises
    ensures PendingOk(s')
  {
    forall q, t | q in s'.nodes ensures Matches(s', PromisersOf(s', q, t), PromisesFor(s'.nodes[q], t)) {
      assert Matches(s, PromisersOf(s, q, t), PromisesFor(s.nodes[q], t));
    }
  }

  lemma PendingStep(s: Network, e: Event)
    requires Enabled(s, e) && NodesOk(s) && PendingOk(s)
    ensures PendingOk(Step(s, e))
  {
    match e
    case ReceivePromise(p, env) => PendingReceivePromise(s, p, env.from, env.msg);
    case ClosePromises(p, key, draw) => PendingClosePromises(s, p, key, draw);
    case _ =>
      NodesKept(s, e);
      PromisesKept(s, e);
      FramePending(s, Step(s, e));
  }

  lemma DecisionClosePromises(s: Network, p: InstanceId, key: Key, draw: Option<Address>)
    requires PendingOk(s) && p in s.nodes && |s.nodes| <= s.nodes[p].numPeers
    requires forall m :: m in PromisesFor(s.nodes[p], key.typeName) ==> m.key == key
    requires var ids := PromisersOf(s, p, key.typeName);
             2 * |ids| >= |s.nodes| ==> 2 * |Members(ids)| >= |s.nodes|
    ensures var s' := DoClosePromises(s, p, key, draw);
            key in s'.log.decisions && key !in s.log.decisions ==> DecisionOk(s', key, s'.log.decisions[key])
    ensures DoClosePromises(s, p, key, draw).log.decisions.Keys <= s.log.decisions.Keys + {key}
  {
    var s' := DoClosePromises(s, p, key, draw);
    SameSize(s.nodes, s'.nodes);
    WithDataContents(PromisesFor(s.nodes[p], key.typeName));
    assert Matches(s, PromisersOf(s, p, key.typeName), PromisesFor(s.nodes[p], key.typeName));
  }

  lemma DecisionKept(s: Network, s': Network, key: Key, d: Decision)
    requires DecisionOk(s, key, d) && s.sent <= s'.sent && |s'.nodes| == |s.nodes|
    ensures DecisionOk(s', key, d)
  {
  }

  /** Only the end of a promise wait decides anything. */
  lemma DecidedOnlyByClosing(s: Network, e: Event)
    requires Enabled(s, e) && !e.ClosePromises?
    ensures Step(s, e).log.decisions == s.log.decisions
  {
  }

  lemma DecisionsStep(s: Network, e: Event)
    requires Permits(Proposing, s, e) && PhasesOk(s) && PendingOk(s) && DecisionsOk(s)
    ensures DecisionsOk(Step(s, e))
  {
    var s' := Step(s, e);
    NodesKept(s, e);
    if e.ClosePromises? {
      DecisionClosePromises(s, e.p, e.key, e.draw);
      QuietClosePromises(s, e.p, e.key, e.draw);
    } else {
      DecidedOnlyByClosing(s, e);
    }
    forall key | key in s'.log.decisions ensures DecisionOk(s', key, s'.log.decisions[key]) {
      if key in s.log.decisions {
        DecisionKept(s, s', key, s.log.decisions[key]);
      }
    }
  }

  lemma {:induction false} DistinctSize(ids: seq<InstanceId>)
    requires Distinct(ids)
    ensures |Members(ids)| == |ids|
  {
    if ids == [] {
      assert Members(ids) == {};
    } else {
      var last := |ids| - 1;
      DistinctSize(ids[..last]);
      assert ids == ids[..last] + [ids[last]];
      assert Members(ids) == Members(ids[..last]) + {ids[last]};
      assert ids[last] !in Members(ids[..last]);
    }
  }

  lemma {:induction false} SubsetSize<T>(a: set<T>, b: set<T>)
    requires a <= b
    ensures |a| <= |b|
  {
    assert b == a + (b - a);
    assert |b| == |a| + |b - a|;
  }

  lemma MembersFew(ids: seq<InstanceId>, size: nat)
    requires size <= 2 && 2 * |ids| >= size
    ensures 2 * |Members(ids)| >= size
  {
    if ids != [] {
      assert ids[0] in Members(ids);
      SubsetSize({ids[0]}, Members(ids));
    }
  }

  /** Where every step keeps the invariant: with at most two nodes any promiser is one of half of them. */
  predicate ProposesSoundly(h: Hypothesis, size: nat) {
    AtLeastProposing(h) || (h.Repeated? && size <= 2)
  }

  lemma PermitsProposing(h: Hypothesis, s: Network, e: Event)
    requires ProposesSoundly(h, |s.nodes|) && Permits(h, s, e)
    ensures Permits(Proposing, s, e)
  {
    if e.ClosePromises? {
      var ids := PromisersOf(s, e.p, e.key.typeName);
      if h.Repeated? {
        if 2 * |ids| >= |s.nodes| {
          MembersFew(ids, |s.nodes|);
        }
      } else if !h.Proposing? {
        DistinctSize(ids);
      }
    }
  }

  lemma InvStep(s: Network, e: Event)
    requires Permits(Proposing, s, e) && Inv(s)
    ensures Inv(Step(s, e))
  {
    PhasesStep(s, e);
    TrafficStep(s, e);
    PendingStep(s, e);
    DecisionsStep(s, e);
  }
}
