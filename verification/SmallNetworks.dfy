/**
 * On at most three nodes every attempt must hear from all other nodes, and then the single record is
 * safe even though promises may report a ballot at which nothing was accepted.
 */
module SmallNetworks {
  import opened Wrappers
  import opened Ballots
  import opened ConsensusNode
  import opened ConsensusNetwork
  import opened ConsensusInvariants
  import opened Agreement

  /** Other nodes know every decided ballot; the proposer knows those it proposed. */
  ghost predicate Aware(s: Network) {
    forall key, a :: key in s.log.decisions && a in s.nodes && (a != key.ballot.instanceId || key in s.log.proposed) ==>
      RecordReaches(s, a, key)
  }

  /** Until its ballot is proposed or given up, a promise still reports what its sender holds. */
  ghost predicate ReportCurrent(s: Network, env: Envelope)
    requires env.msg.Promise? && MessageOk(s, env)
  {
    var key := env.msg.key;
    var p := key.ballot.instanceId;
    || env.msg.multicastIp == s.nodes[env.from].proposals[key.typeName].multicastIp
    || key in s.log.proposed
    || (&& p in s.nodes && key.typeName in s.nodes[p].proposals
        && ProposalIsNewer(key.ballot, s.nodes[p].proposals[key.typeName].ballot))
  }

  ghost predicate ReportsCurrent(s: Network) {
    forall env :: env in s.sent && env.msg.Promise? && MessageOk(s, env) ==> ReportCurrent(s, env)
  }

  predicate Holds(s: Network, a: InstanceId, t: TypeName) {
    a in s.nodes && t in s.nodes[a].proposals && s.nodes[a].proposals[t].multicastIp.Some?
  }

  ghost predicate NewestProposed(s: Network, key: Key) {
    && key in s.log.proposed
    && forall k :: k in s.log.proposed && k.typeName == key.typeName ==> AtMost(k.ballot, key.ballot)
  }

  /** Every address held for a type is the one of the type's newest proposal. */
  ghost predicate HoldNewest(s: Network) {
    forall key, a :: NewestProposed(s, key) && key in s.log.decisions && Holds(s, a, key.typeName) ==>
      s.nodes[a].proposals[key.typeName].multicastIp.value == s.log.decisions[key].address
  }

  /** Nothing is held unless something was proposed. */
  ghost predicate HeldWasProposed(s: Network) {
    forall a, t :: Holds(s, a, t) ==> exists key :: key in s.log.proposed && key.typeName == t
  }

  ghost predicate TwoAccepted(s: Network, key: Key, a: InstanceId, b: InstanceId) {
    a != b && Accepted(s, a, key) && Accepted(s, b, key)
  }

  /** A ballot accepted by two nodes fixes the address of every newer proposal. */
  ghost predicate TwoFix(s: Network) {
    forall c, k, a, b ::
      (&& TwoAccepted(s, c, a, b) && c in s.log.decisions
       && k in s.log.proposed && k in s.log.decisions && k.typeName == c.typeName && AtMost(c.ballot, k.ballot)) ==>
        s.log.decisions[k].address == s.log.decisions[c].address
  }

  ghost predicate SmallInv(s: Network) {
    Aware(s) && ReportsCurrent(s) && HoldNewest(s) && HeldWasProposed(s) && TwoFix(s)
  }

  lemma SubsetFull<T>(a: set<T>, b: set<T>)
    requires a <= b && |a| >= |b|
    ensures a == b
  {
    if a != b {
      var x :| x in b && x !in a;
      SubsetSize(a, b - {x});
    }
  }

  /** With at most three nodes half of them, the proposer aside, is everyone else. */
  lemma QuorumIsOthers(s: Network, key: Key, a: InstanceId) returns (i: nat)
    requires MessagesOk(s) && key in s.log.decisions && DecisionOk(s, key, s.log.decisions[key])
    requires |s.nodes| <= 3 && a in s.nodes && a != key.ballot.instanceId && key.ballot.instanceId in s.nodes
    ensures i < |s.log.decisions[key].quorum| == |s.log.decisions[key].reports|
    ensures s.log.decisions[key].quorum[i] == a
  {
    var d := s.log.decisions[key];
    var others := s.nodes.Keys - {key.ballot.instanceId};
    assert |s.nodes.Keys| == |s.nodes| && |others| == |s.nodes| - 1;
    QuorumIsNodes(s, key);
    forall id | id in d.quorum ensures id in others {
      var j :| 0 <= j < |d.quorum| && d.quorum[j] == id;
      assert MessageOk(s, Envelope(id, d.reports[j])) && d.reports[j] in d.reports;
    }
    SubsetFull(Members(d.quorum), others);
    assert a in Members(d.quorum);
    i :| 0 <= i < |d.quorum| && d.quorum[i] == a;
  }

  lemma {:induction false} NewestExists(keys: set<Key>, t: TypeName) returns (newest: Key)
    requires exists k :: k in keys && k.typeName == t
    ensures newest in keys && newest.typeName == t
    ensures forall k :: k in keys && k.typeName == t ==> AtMost(k.ballot, newest.ballot)
    decreases |keys|
  {
    var k :| k in keys && k.typeName == t;
    if j :| j in keys && j.typeName == t && j != k {
      var other := NewestExists(keys - {k}, t);
      newest := if AtMost(k.ballot, other.ballot) then other else k;
    } else {
      newest := k;
    }
  }

  /** `p` is about to announce the decided ballot `key`, and its own write will not lower its record. */
  ghost predicate Announcing(s: Network, p: InstanceId, key: Key) {
    && p in s.nodes
    && key in s.log.decisions && key !in s.log.proposed && key.ballot.instanceId == p
    && DecisionOk(s, key, s.log.decisions[key])
    && (key.typeName in s.nodes[p].proposals ==> AtMost(s.nodes[p].proposals[key.typeName].ballot, key.ballot))
  }

  lemma SendIsNewest(s: Network, p: InstanceId, key: Key, k: Key)
    requires Aware(s) && PhasesOk(s) && Announcing(s, p, key) && k in s.log.proposed && k.typeName == key.typeName
    ensures ProposalIsNewer(k.ballot, key.ballot)
  {
  }

  /** A promise to a ballot not yet proposed by its owner still reports what the promiser holds. */
  lemma ReportIsHeld(s: Network, p: InstanceId, key: Key, i: nat)
    requires MessagesOk(s) && ReportsCurrent(s) && Announcing(s, p, key) && i < |s.log.decisions[key].quorum|
    ensures var d := s.log.decisions[key];
            && i < |d.reports|
            && d.quorum[i] in s.nodes
            && key.typeName in s.nodes[d.quorum[i]].proposals
            && d.reports[i].multicastIp == s.nodes[d.quorum[i]].proposals[key.typeName].multicastIp
  {
  }

  /** When a proposal goes out, its address is the one every other node holds, if any does. */
  lemma SendMatchesHeld(s: Network, p: InstanceId, key: Key, a: InstanceId)
    requires MessagesOk(s) && PhasesOk(s) && ReportsCurrent(s) && HoldNewest(s) && HeldWasProposed(s) && |s.nodes| <= 3
    requires Announcing(s, p, key) && a != p && Holds(s, a, key.typeName)
    ensures s.nodes[a].proposals[key.typeName].multicastIp.value == s.log.decisions[key].address
  {
    var d := s.log.decisions[key];
    var i := QuorumIsOthers(s, key, a);
    ReportIsHeld(s, p, key, i);
    assert d.reports[i] in d.reports;
    WithDataContents(d.reports);
    assert d.reports[i] in WithData(d.reports);
    var j :| 0 <= j < |d.reports| && d.reports[j] == NewestOf(WithData(d.reports));
    ReportIsHeld(s, p, key, j);
    assert Holds(s, d.quorum[j], key.typeName);
    var newest := NewestExists(s.log.proposed, key.typeName);
    assert NewestProposed(s, newest);
  }

  // ----- Sending a proposal

  lemma HoldSendProposal(s: Network, p: InstanceId, key: Key)
    requires MessagesOk(s) && PhasesOk(s) && SmallInv(s) && |s.nodes| <= 3 && Announcing(s, p, key)
    ensures HoldNewest(DoSendProposal(s, p, key)) && HeldWasProposed(DoSendProposal(s, p, key))
  {
    var s' := DoSendProposal(s, p, key);
    forall k, a | NewestProposed(s', k) && k in s'.log.decisions && Holds(s', a, k.typeName)
      ensures s'.nodes[a].proposals[k.typeName].multicastIp.value == s'.log.decisions[k].address
    {
      if k.typeName == key.typeName {
        if k != key {
          SendIsNewest(s, p, key, k);
        }
        assert AtMost(key.ballot, k.ballot);
        if a != p {
          SendMatchesHeld(s, p, key, a);
        }
      } else {
        assert NewestProposed(s, k) && Holds(s, a, k.typeName);
      }
    }
    forall a, t | Holds(s', a, t) ensures exists k :: k in s'.log.proposed && k.typeName == t {
      if t == key.typeName {
        assert key in s'.log.proposed;
      } else {
        assert Holds(s, a, t);
      }
    }
  }

  lemma TwoFixSendProposal(s: Network, p: InstanceId, key: Key)
    requires MessagesOk(s) && PhasesOk(s) && AcceptedOk(s) && SmallInv(s) && |s.nodes| <= 3 && Announcing(s, p, key)
    ensures TwoFix(DoSendProposal(s, p, key))
  {
    var s' := DoSendProposal(s, p, key);
    forall c, k, a, b |
      (&& TwoAccepted(s', c, a, b) && c in s'.log.decisions
       && k in s'.log.proposed && k in s'.log.decisions && k.typeName == c.typeName && AtMost(c.ballot, k.ballot))
      ensures s'.log.decisions[k].address == s'.log.decisions[c].address
    {
      if k != key {
        if c == key {
          SendIsNewest(s, p, key, k);
        }
        assert TwoAccepted(s, c, a, b);
      } else if c != key {
        assert TwoAccepted(s, c, a, b);
        var x := if a != p then a else b;
        assert Trace(s, x, c);
        SendMatchesHeld(s, p, key, x);
        var newest := NewestExists(s.log.proposed, key.typeName);
        assert NewestProposed(s, newest) && Holds(s, x, key.typeName);
        AcceptedWasProposed(s, x, c);
      }
    }
  }

  lemma AcceptedWasProposed(s: Network, a: InstanceId, c: Key)
    requires MessagesOk(s) && Accepted(s, a, c)
    ensures c in s.log.proposed
  {
  }

  lemma AwareSendProposal(s: Network, p: InstanceId, key: Key)
    requires Aware(s) && Announcing(s, p, key)
    ensures Aware(DoSendProposal(s, p, key))
  {
    var s' := DoSendProposal(s, p, key);
    forall k, a | k in s'.log.decisions && a in s'.nodes && (a != k.ballot.instanceId || k in s'.log.proposed)
      ensures RecordReaches(s', a, k)
    {
      assert k != key ==> RecordReaches(s, a, k);
    }
  }

  lemma ReportsSendProposal(s: Network, p: InstanceId, key: Key)
    requires TrafficOk(s) && PhasesOk(s) && Aware(s) && ReportsCurrent(s) && Announcing(s, p, key)
    ensures ReportsCurrent(DoSendProposal(s, p, key))
  {
    var s' := DoSendProposal(s, p, key);
    forall env | env in s'.sent && env.msg.Promise? && MessageOk(s', env) ensures ReportCurrent(s', env) {
      var e := env.msg.key;
      assert MessageOk(s, env) && ReportCurrent(s, env);
      if env.from == p && e.typeName == key.typeName {
        assert RecordReaches(s, p, e);
        assert RecordReaches(s, e.ballot.instanceId, key);
      }
    }
  }

  // ----- Accepting a proposal

  lemma AcceptIsNewest(s: Network, p: InstanceId, key: Key)
    requires PhasesOk(s) && Aware(s) && p in s.nodes && key in s.log.proposed
    requires key.typeName in s.nodes[p].proposals && s.nodes[p].proposals[key.typeName].ballot == key.ballot
    ensures NewestProposed(s, key)
  {
  }

  lemma HoldReceiveProposal(s: Network, p: InstanceId, key: Key, a: Address)
    requires TrafficOk(s) && PhasesOk(s) && SmallInv(s) && p in s.nodes && key in s.log.proposed
    requires key in s.log.decisions && a == s.log.decisions[key].address
    requires OnProposal(s.nodes[p], key, a).Ok?
    ensures HoldNewest(DoReceiveProposal(s, p, key, a)) && HeldWasProposed(DoReceiveProposal(s, p, key, a))
  {
    var s' := DoReceiveProposal(s, p, key, a);
    AcceptIsNewest(s, p, key);
    forall k, b | NewestProposed(s', k) && k in s'.log.decisions && Holds(s', b, k.typeName)
      ensures s'.nodes[b].proposals[k.typeName].multicastIp.value == s'.log.decisions[k].address
    {
      assert NewestProposed(s, k);
      if b != p || k.typeName != key.typeName {
        assert Holds(s, b, k.typeName);
      } else {
        assert AtMost(k.ballot, key.ballot) && AtMost(key.ballot, k.ballot);
      }
    }
    forall b, t | Holds(s', b, t) ensures exists k :: k in s'.log.proposed && k.typeName == t {
      if t == key.typeName {
        assert key in s'.log.proposed;
      } else {
        assert Holds(s, b, t);
      }
    }
  }

  lemma TwoFixReceiveProposal(s: Network, p: InstanceId, key: Key, a: Address)
    requires TrafficOk(s) && PhasesOk(s) && SmallInv(s) && p in s.nodes && key in s.log.proposed
    requires key in s.log.decisions && a == s.log.decisions[key].address
    requires OnProposal(s.nodes[p], key, a).Ok?
    ensures TwoFix(DoReceiveProposal(s, p, key, a))
  {
    var s' := DoReceiveProposal(s, p, key, a);
    AcceptIsNewest(s, p, key);
    forall c, k, x, y |
      (&& TwoAccepted(s', c, x, y) && c in s'.log.decisions
       && k in s'.log.proposed && k in s'.log.decisions && k.typeName == c.typeName && AtMost(c.ballot, k.ballot))
      ensures s'.log.decisions[k].address == s'.log.decisions[c].address
    {
      if c == key {
        assert AtMost(k.ballot, key.ballot);
      } else {
        assert TwoAccepted(s, c, x, y);
      }
    }
  }

  lemma ReportsReceiveProposal(s: Network, p: InstanceId, key: Key, a: Address)
    requires TrafficOk(s) && PhasesOk(s) && Aware(s) && ReportsCurrent(s) && p in s.nodes && key in s.log.proposed
    requires OnProposal(s.nodes[p], key, a).Ok?
    ensures Aware(DoReceiveProposal(s, p, key, a)) && ReportsCurrent(DoReceiveProposal(s, p, key, a))
  {
    var s' := DoReceiveProposal(s, p, key, a);
    forall k, b | k in s'.log.decisions && b in s'.nodes && (b != k.ballot.instanceId || k in s'.log.proposed)
      ensures RecordReaches(s', b, k)
    {
      assert RecordReaches(s, b, k);
    }
    forall env | env in s'.sent && env.msg.Promise? && MessageOk(s', env) ensures ReportCurrent(s', env) {
      var e := env.msg.key;
      assert MessageOk(s, env) && ReportCurrent(s, env);
      if env.from == p && e.typeName == key.typeName {
        assert RecordReaches(s, p, e);
        assert RecordReaches(s, e.ballot.instanceId, key);
      }
    }
  }

  // ----- Promising

  lemma SmallReceivePreparation(s: Network, p: InstanceId, key: Key)
    requires TrafficOk(s) && SmallInv(s) && p in s.nodes
    ensures Aware(DoReceivePreparation(s, p, key)) && ReportsCurrent(DoReceivePreparation(s, p, key))
  {
    var s' := DoReceivePreparation(s, p, key);
    forall k, b | k in s'.log.decisions && b in s'.nodes && (b != k.ballot.instanceId || k in s'.log.proposed)
      ensures RecordReaches(s', b, k)
    {
      assert RecordReaches(s, b, k);
    }
    forall env | env in s'.sent && env.msg.Promise? && MessageOk(s', env) ensures ReportCurrent(s', env) {
      if env in s.sent {
        assert MessageOk(s, env) && ReportCurrent(s, env);
      }
    }
  }

  /** Held addresses, proposals and acceptances as they were. */
  lemma SameHoldings(s: Network, s': Network)
    requires HoldNewest(s) && HeldWasProposed(s) && TwoFix(s)
    requires s'.log.proposed == s.log.proposed && s.log.proposed <= s.log.decisions.Keys
    requires forall key :: key in s.log.decisions ==>
                 key in s'.log.decisions && s'.log.decisions[key] == s.log.decisions[key]
    requires forall a, t :: Holds(s', a, t) ==>
               Holds(s, a, t) && s'.nodes[a].proposals[t].multicastIp == s.nodes[a].proposals[t].multicastIp
    requires forall a, key :: Accepted(s', a, key) ==> Accepted(s, a, key) && key in s.log.decisions
    ensures HoldNewest(s') && HeldWasProposed(s') && TwoFix(s')
  {
    forall k, a | NewestProposed(s', k) && k in s'.log.decisions && Holds(s', a, k.typeName)
      ensures s'.nodes[a].proposals[k.typeName].multicastIp.value == s'.log.decisions[k].address
    {
      assert NewestProposed(s, k) && Holds(s, a, k.typeName);
    }
    forall a, t | Holds(s', a, t) ensures exists k :: k in s'.log.proposed && k.typeName == t {
      assert Holds(s, a, t);
    }
    forall c, k, x, y |
      (&& TwoAccepted(s', c, x, y) && c in s'.log.decisions
       && k in s'.log.proposed && k in s'.log.decisions && k.typeName == c.typeName && AtMost(c.ballot, k.ballot))
      ensures s'.log.decisions[k].address == s'.log.decisions[c].address
    {
      assert TwoAccepted(s, c, x, y);
    }
  }

  lemma SameReports(s: Network, s': Network)
    requires MessagesOk(s) && ReportsCurrent(s)
    requires s'.nodes.Keys == s.nodes.Keys && s'.log.proposed == s.log.proposed
    requires forall p :: p in s.nodes ==> s'.nodes[p].proposals == s.nodes[p].proposals
    requires forall env :: env in s'.sent && env.msg.Promise? ==> env in s.sent
    ensures ReportsCurrent(s')
  {
  }

  lemma AwareClosePromises(s: Network, p: InstanceId, key: Key, draw: Option<Address>)
    requires p in s.nodes && PhasesOk(s) && Aware(s) && key in s.log.prepared && key !in s.log.closed && |s.nodes| <= 3
    requires MessagesOk(DoClosePromises(s, p, key, draw)) && DecisionsOk(DoClosePromises(s, p, key, draw))
    ensures Aware(DoClosePromises(s, p, key, draw))
  {
    var s' := DoClosePromises(s, p, key, draw);
    QuietClosePromises(s, p, key, draw);
    SameSize(s.nodes, s'.nodes);
    forall k, a | k in s'.log.decisions && a in s'.nodes && (a != k.ballot.instanceId || k in s'.log.proposed)
      ensures RecordReaches(s', a, k)
    {
      if k in s.log.decisions {
        assert RecordReaches(s, a, k);
      } else {
        assert DecisionOk(s', k, s'.log.decisions[k]);
        var i := QuorumIsOthers(s', k, a);
        var d := s'.log.decisions[k];
        assert MessageOk(s', Envelope(a, d.reports[i])) && d.reports[i] in d.reports;
      }
    }
  }

  lemma AcceptedKept(s: Network, s': Network)
    requires MessagesOk(s) && PhasesOk(s) && SameTraffic(s, s')
    ensures forall a, key :: Accepted(s', a, key) ==> Accepted(s, a, key) && key in s.log.decisions
  {
  }

  lemma SmallQuiet(s: Network, e: Event)
    requires Permits(Basic, s, e) && Inv(s) && Inv(Step(s, e)) && SmallInv(s) && |s.nodes| <= 3 && Quiet(e)
    ensures SmallInv(Step(s, e))
  {
    var s' := Step(s, e);
    QuietStep(s, e);
    AcceptedKept(s, s');
    SameReports(s, s');
    SameHoldings(s, s');
    if e.ClosePromises? {
      AwareClosePromises(s, e.p, e.key, e.draw);
    } else {
      DecidedOnlyByClosing(s, e);
      SameAware(s, s');
    }
  }

  lemma SameAware(s: Network, s': Network)
    requires Aware(s) && s'.nodes.Keys == s.nodes.Keys
    requires forall p :: p in s.nodes ==> s'.nodes[p].proposals == s.nodes[p].proposals
    requires s'.log.decisions == s.log.decisions && s'.log.proposed == s.log.proposed
    ensures Aware(s')
  {
    forall k, b | k in s'.log.decisions && b in s'.nodes && (b != k.ballot.instanceId || k in s'.log.proposed)
      ensures RecordReaches(s', b, k)
    {
      assert RecordReaches(s, b, k);
    }
  }

  lemma SmallStartAttempt(s: Network, p: InstanceId, key: Key)
    requires TrafficOk(s) && PhasesOk(s) && SmallInv(s) && p in s.nodes
    ensures SmallInv(DoStartAttempt(s, p, key))
  {
    var s' := DoStartAttempt(s, p, key);
    SameReports(s, s');
    SameHoldings(s, s');
    SameAware(s, s');
  }

  lemma HoldReceivePreparation(s: Network, p: InstanceId, key: Key)
    requires PhasesOk(s) && SmallInv(s) && p in s.nodes
    ensures HoldNewest(DoReceivePreparation(s, p, key)) && HeldWasProposed(DoReceivePreparation(s, p, key))
    ensures TwoFix(DoReceivePreparation(s, p, key))
  {
    SameHoldings(s, DoReceivePreparation(s, p, key));
  }

  lemma SmallStep(s: Network, e: Event)
    requires Permits(Basic, s, e) && Inv(s) && Inv(Step(s, e)) && SmallInv(s) && |s.nodes| <= 3
    ensures SmallInv(Step(s, e))
  {
    match e
    case StartAttempt(p, key) => SmallStartAttempt(s, p, key);
    case ReceivePreparation(p, env) =>
      SmallReceivePreparation(s, p, env.msg.key);
      HoldReceivePreparation(s, p, env.msg.key);
    case SendProposal(p, key) =>
      AwareSendProposal(s, p, key);
      ReportsSendProposal(s, p, key);
      HoldSendProposal(s, p, key);
      TwoFixSendProposal(s, p, key);
    case ReceiveProposal(p, env) =>
      assert MessageOk(s, env);
      if OnProposal(s.nodes[p], env.msg.key, env.msg.address).Ok? {
        ReportsReceiveProposal(s, p, env.msg.key, env.msg.address);
        HoldReceiveProposal(s, p, env.msg.key, env.msg.address);
        TwoFixReceiveProposal(s, p, env.msg.key, env.msg.address);
      }
    case _ => SmallQuiet(s, e);
  }

  lemma {:induction false} SmallRun(s: Network, es: seq<Event>, s': Network)
    requires Run(Basic, s, es, s') && Inv(s) && SmallInv(s) && |s.nodes| <= 3
    ensures SmallInv(s')
    decreases |es|
  {
    if es != [] {
      RunHead(Basic, s, es, s');
      InvKept(Basic, s, es[0]);
      SmallStep(s, es[0]);
      SmallRun(Step(s, es[0]), es[1..], s');
    }
  }

  /** A single node never gets past its promise wait. */
  lemma DecisionNeedsTwo(s: Network, c: Key)
    requires MessagesOk(s) && PhasesOk(s) && c in s.log.decisions && DecisionOk(s, c, s.log.decisions[c])
    ensures |s.nodes| >= 2
  {
    var d := s.log.decisions[c];
    assert c in s.log.prepared && c.ballot.instanceId in s.nodes;
    SubsetSize({c.ballot.instanceId}, s.nodes.Keys);
    assert |s.nodes.Keys| == |s.nodes|;
    assert MessageOk(s, Envelope(d.quorum[0], d.reports[0])) && d.reports[0] in d.reports;
    SubsetSize({d.quorum[0], c.ballot.instanceId}, s.nodes.Keys);
  }

  lemma ChosenIsTwo(s: Network, c: Key) returns (a: InstanceId, b: InstanceId)
    requires MessagesOk(s) && PhasesOk(s) && DecisionsOk(s) && Chosen(s, c)
    ensures TwoAccepted(s, c, a, b)
  {
    assert DecisionOk(s, c, s.log.decisions[c]);
    DecisionNeedsTwo(s, c);
    var v := Approvers(s, c);
    a :| a in v;
    assert |v - {a}| == |v| - 1;
    b :| b in v - {a};
  }

  lemma ChosenAgreeSmall(s: Network, b: Key, c: Key)
    requires MessagesOk(s) && PhasesOk(s) && DecisionsOk(s) && TwoFix(s)
    requires Chosen(s, b) && Chosen(s, c) && b.typeName == c.typeName
    ensures s.log.decisions[b].address == s.log.decisions[c].address
  {
    var b0, b1 := ChosenIsTwo(s, b);
    var c0, c1 := ChosenIsTwo(s, c);
    AcceptedWasProposed(s, b0, b);
    AcceptedWasProposed(s, c0, c);
    if AtMost(c.ballot, b.ballot) {
      assert TwoAccepted(s, c, c0, c1);
    } else {
      assert TwoAccepted(s, b, b0, b1);
    }
  }

  lemma SmallStart(ids: set<InstanceId>)
    ensures SmallInv(Start(ids))
  {
  }

  /** Agreement without honest reports, on at most three nodes. */
  lemma SmallAgreement(ids: set<InstanceId>, s: Network)
    requires Reachable(Basic, ids, s) && |ids| <= 3
    ensures ChosenUnique(s) && CommitsAgree(s)
    ensures |ids| % 2 == 1 ==> OutcomesAgree(s)
  {
    ReachableFacts(Basic, ids, s);
    var es :| Run(Basic, Start(ids), es, s);
    InvStart(ids);
    SmallStart(ids);
    StartSize(ids);
    SmallRun(Start(ids), es, s);
    forall b, c | Chosen(s, b) && Chosen(s, c) && b.typeName == c.typeName
      ensures s.log.decisions[b].address == s.log.decisions[c].address
    {
      ChosenAgreeSmall(s, b, c);
    }
    ChosenUniqueOutcomes(s);
  }

  // ----- At most one node: nothing is ever decided, whatever is assumed of the runs

  ghost predicate Lone(s: Network) {
    && (forall p, q :: p in s.nodes && q in s.nodes ==> p == q)
    && (forall p :: p in s.nodes ==> s.nodes[p].id == p && s.nodes[p].promises == map[])
    && (forall env :: env in s.sent ==> env.msg.Preparation? && env.msg.key.ballot.instanceId in s.nodes)
    && s.log.decisions == map[] && s.log.returned == map[] && s.books.commits == map[]
  }

  lemma LoneStart(ids: set<InstanceId>)
    requires |ids| <= 1
    ensures Lone(Start(ids))
  {
    forall p, q | p in ids && q in ids ensures p == q {
      SubsetSize({p, q}, ids);
    }
  }

  /** A node's own preparation gets no answer, so no attempt passes its promise wait. */
  lemma LoneStep(h: Hypothesis, s: Network, e: Event)
    requires !h.Undercounted? && Permits(h, s, e) && Lone(s)
    ensures Lone(Step(s, e))
  {
    if e.ClosePromises? {
      SubsetSize({e.p}, s.nodes.Keys);
      assert |s.nodes.Keys| == |s.nodes|;
      assert s.nodes[e.p].promises - {e.key.typeName} == map[];
    }
  }

  lemma {:induction false} LoneRun(h: Hypothesis, s: Network, es: seq<Event>, s': Network)
    requires !h.Undercounted? && Run(h, s, es, s') && Lone(s)
    ensures Lone(s')
    decreases |es|
  {
    if es != [] {
      RunHead(h, s, es, s');
      LoneStep(h, s, es[0]);
      LoneRun(h, Step(s, es[0]), es[1..], s');
    }
  }

  lemma LoneAgreement(h: Hypothesis, ids: set<InstanceId>, s: Network)
    requires !h.Undercounted? && Reachable(h, ids, s) && |ids| <= 1
    ensures ChosenUnique(s) && OutcomesAgree(s)
  {
    var es :| Run(h, Start(ids), es, s);
    LoneStart(ids);
    LoneRun(h, Start(ids), es, s);
  }
}
