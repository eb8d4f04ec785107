/** The main results about runs of any length on any set of nodes. */
module Agreement {
  import opened Wrappers
  import opened Ballots
  import opened ConsensusNode
  import opened ConsensusNetwork
  import opened ConsensusInvariants
  import opened ConsensusCounting

  // ----- Honest picks

  lemma ReportStaysHonest(s: Network, s': Network, m: PromiseMessage)
    requires Grows(s, s') && HonestReport(s, m)
    ensures HonestReport(s', m)
  {
  }

  lemma HonestStep(s: Network, e: Event)
    requires Enabled(s, e) && PickHonest(s, e) && PhasesOk(s) && PicksHonest(s)
    ensures PicksHonest(Step(s, e))
  {
    var s' := Step(s, e);
    StepGrows(s, e);
    if e.ClosePromises? {
      HonestClosePromises(s, e.p, e.key, e.draw);
    } else {
      DecidedOnlyByClosing(s, e);
    }
    forall key |
      key in s.log.decisions && !s.log.decisions[key].newlyDrawn && WithData(s.log.decisions[key].reports) != []
      ensures HonestReport(s', NewestOf(WithData(s.log.decisions[key].reports)))
    {
      ReportStaysHonest(s, s', NewestOf(WithData(s.log.decisions[key].reports)));
    }
  }

  lemma HonestClosePromises(s: Network, p: InstanceId, key: Key, draw: Option<Address>)
    requires p in s.nodes && key !in s.log.decisions
    requires var n, t := s.nodes[p], key.typeName;
             var data := WithData(PromisesFor(n, t));
             data != [] && Judge(n.numPeers, PromisesFor(n, t), RejectionsFor(n, t)).Repropose? ==>
               HonestReport(s, NewestOf(data))
    ensures var s' := DoClosePromises(s, p, key, draw);
            && s'.log.decisions.Keys <= s.log.decisions.Keys + {key}
            && (key in s'.log.decisions && !s'.log.decisions[key].newlyDrawn ==>
                  var data := WithData(s'.log.decisions[key].reports);
                  data != [] ==> HonestReport(s', NewestOf(data)))
  {
  }

  // ----- Acceptors that never leave a promise dangling

  /** Every promise that carries an address names the ballot that proposed it. */
  ghost predicate ReportsHonest(s: Network) {
    forall env :: env in s.sent && env.msg.Promise? && env.msg.multicastIp.Some? ==> HonestReport(s, env.msg)
  }

  lemma ReportsHonestStep(s: Network, e: Event)
    requires Permits(NoDangling, s, e) && Inv(s) && ReportsHonest(s)
    ensures ReportsHonest(Step(s, e))
  {
    var s' := Step(s, e);
    StepGrows(s, e);
    if e.ReceivePreparation? {
      PreparationHonest(s, e.p, e.env.msg.key);
    } else {
      PromisesSentOnlyToPreparations(s, e);
    }
    forall env | env in s.sent && env.msg.Promise? && env.msg.multicastIp.Some? ensures HonestReport(s', env.msg) {
      ReportStaysHonest(s, s', env.msg);
    }
  }

  lemma PromisesSentOnlyToPreparations(s: Network, e: Event)
    requires Enabled(s, e) && !e.ReceivePreparation?
    ensures forall env :: env in Step(s, e).sent && env.msg.Promise? ==> env in s.sent
  {
  }

  lemma PreparationHonest(s: Network, p: InstanceId, key: Key)
    requires Inv(s) && p in s.nodes
    requires key.ballot.instanceId != s.nodes[p].id && MayPromise(s.nodes[p], key) ==>
               (key.typeName in s.nodes[p].proposals ==> !Dangling(s, p, key.typeName))
    ensures var s' := DoReceivePreparation(s, p, key);
            forall env :: env in s'.sent && env !in s.sent && env.msg.Promise? && env.msg.multicastIp.Some? ==>
              HonestReport(s', env.msg)
  {
  }

  /** Keeping promises from dangling is enough for every pick to be honest. */
  lemma NoDanglingPermitsHonest(s: Network, e: Event)
    requires Permits(NoDangling, s, e) && Inv(s) && ReportsHonest(s)
    ensures Permits(Honest, s, e)
  {
    if e.ClosePromises? {
      var ms := PromisesFor(s.nodes[e.p], e.key.typeName);
      assert Matches(s, PromisersOf(s, e.p, e.key.typeName), ms);
      WithDataContents(ms);
      if WithData(ms) != [] {
        var i :| 0 <= i < |ms| && ms[i] == NewestOf(WithData(ms));
        assert Envelope(PromisersOf(s, e.p, e.key.typeName)[i], ms[i]) in s.sent;
      }
    }
  }

  // ----- Invariants over whole runs

  ghost predicate Facts(h: Hypothesis, s: Network) {
    && Inv(s)
    && (AtLeastBasic(h) || h.Repeated? ==> BooksOk(s))
    && (!h.Basic? && !h.Proposing? ==> PicksHonest(s))
    && (h == NoDangling ==> ReportsHonest(s))
  }

  lemma CountsStep(h: Hypothesis, s: Network, e: Event)
    requires (AtLeastBasic(h) || h.Repeated?) && Permits(h, s, e) && Inv(s) && BooksOk(s)
    ensures BooksOk(Step(s, e))
  {
    assert e.ReceiveApproval? ==> MessageOk(s, e.env);
    BooksStep(s, e);
  }

  lemma PicksStep(h: Hypothesis, s: Network, e: Event)
    requires (h.Honest? || h.NoDangling? || h.Recounted? || h.Repeated?) && Permits(h, s, e) && Inv(s) && PicksHonest(s)
    requires h.NoDangling? ==> ReportsHonest(s)
    ensures PicksHonest(Step(s, e))
  {
    if h.NoDangling? {
      NoDanglingPermitsHonest(s, e);
    }
    HonestStep(s, e);
  }

  lemma InvKept(h: Hypothesis, s: Network, e: Event)
    requires ProposesSoundly(h, |s.nodes|) && Permits(h, s, e) && Inv(s)
    ensures Inv(Step(s, e)) && |Step(s, e).nodes| == |s.nodes|
  {
    PermitsProposing(h, s, e);
    InvStep(s, e);
    NodesKept(s, e);
  }

  lemma FactsStep(h: Hypothesis, s: Network, e: Event)
    requires ProposesSoundly(h, |s.nodes|) && Permits(h, s, e) && Facts(h, s)
    ensures Facts(h, Step(s, e)) && |Step(s, e).nodes| == |s.nodes|
  {
    InvKept(h, s, e);
    if AtLeastBasic(h) || h.Repeated? {
      CountsStep(h, s, e);
    }
    if h.NoDangling? {
      ReportsHonestStep(s, e);
    }
    if !h.Basic? && !h.Proposing? {
      PicksStep(h, s, e);
    }
  }

  lemma {:induction false} FactsRun(h: Hypothesis, s: Network, es: seq<Event>, s': Network)
    requires ProposesSoundly(h, |s.nodes|) && Run(h, s, es, s') && Facts(h, s)
    ensures Facts(h, s') && |s'.nodes| == |s.nodes|
    decreases |es|
  {
    if es != [] {
      RunHead(h, s, es, s');
      FactsStep(h, s, es[0]);
      FactsRun(h, Step(s, es[0]), es[1..], s');
    }
  }

  ghost predicate Reachable(h: Hypothesis, ids: set<InstanceId>, s: Network) {
    exists es :: Run(h, Start(ids), es, s)
  }

  lemma StartSize(ids: set<InstanceId>)
    ensures |Start(ids).nodes| == |ids|
  {
    assert Start(ids).nodes.Keys == ids;
    assert |Start(ids).nodes.Keys| == |Start(ids).nodes|;
  }

  lemma ReachableFacts(h: Hypothesis, ids: set<InstanceId>, s: Network)
    requires ProposesSoundly(h, |ids|) && Reachable(h, ids, s)
    ensures Facts(h, s) && |s.nodes| == |ids|
  {
    var es :| Run(h, Start(ids), es, s);
    InvStart(ids);
    BooksStart(ids);
    StartSize(ids);
    FactsRun(h, Start(ids), es, s);
  }

  // ----- Safety

  lemma Overlap(q: set<InstanceId>, v: set<InstanceId>, all: set<InstanceId>) returns (id: InstanceId)
    requires q <= all && v <= all && |q| + |v| > |all|
    ensures id in q && id in v
  {
    SubsetSize(q + v, all);
    assert q !! v ==> |q + v| == |q| + |v|;
    id :| id in q && id in v;
  }

  /** The promisers behind a decision are at least half of the nodes. */
  lemma QuorumIsNodes(s: Network, b: Key)
    requires MessagesOk(s) && b in s.log.decisions && DecisionOk(s, b, s.log.decisions[b])
    ensures Members(s.log.decisions[b].quorum) <= s.nodes.Keys
    ensures 2 * |Members(s.log.decisions[b].quorum)| >= |s.nodes|
  {
    var d := s.log.decisions[b];
    forall id | id in d.quorum ensures id in s.nodes {
      var j :| 0 <= j < |d.quorum| && d.quorum[j] == id;
      assert MessageOk(s, Envelope(id, d.reports[j]));
    }
  }

  /** Half the nodes promising and more than half approving leaves a node that did both. */
  lemma QuorumsMeet(s: Network, b: Key, c: Key) returns (i: nat)
    requires MessagesOk(s) && b in s.log.decisions && DecisionOk(s, b, s.log.decisions[b]) && Chosen(s, c)
    ensures i < |s.log.decisions[b].quorum| == |s.log.decisions[b].reports|
    ensures s.log.decisions[b].quorum[i] in Approvers(s, c)
  {
    QuorumIsNodes(s, b);
    var quorum := s.log.decisions[b].quorum;
    assert |s.nodes.Keys| == |s.nodes|;
    var id := Overlap(Members(quorum), Approvers(s, c), s.nodes.Keys);
    i :| 0 <= i < |quorum| && quorum[i] == id;
  }

  /** Every report with an address names a ballot older than the one it answers. */
  lemma PickIsOlder(s: Network, b: Key)
    requires MessagesOk(s) && b in s.log.decisions && DecisionOk(s, b, s.log.decisions[b])
    requires WithData(s.log.decisions[b].reports) != []
    ensures var m := NewestOf(WithData(s.log.decisions[b].reports));
            m in s.log.decisions[b].reports && m.multicastIp.Some? && ProposalIsNewer(m.accepted, b.ballot)
  {
    var d := s.log.decisions[b];
    WithDataContents(d.reports);
    var j :| 0 <= j < |d.reports| && d.reports[j] == NewestOf(WithData(d.reports));
    assert MessageOk(s, Envelope(d.quorum[j], d.reports[j]));
  }

  /** Some promise behind a newer decision reports the chosen ballot or a newer one, with an address. */
  lemma ChoiceReported(s: Network, b: Key, c: Key) returns (i: nat)
    requires MessagesOk(s) && ReportsOk(s) && Chosen(s, c)
    requires b in s.log.decisions && DecisionOk(s, b, s.log.decisions[b])
    requires b.typeName == c.typeName && ProposalIsNewer(c.ballot, b.ballot)
    ensures var reports := s.log.decisions[b].reports;
            i < |reports| && reports[i].multicastIp.Some? && AtMost(c.ballot, reports[i].accepted)
  {
    var d := s.log.decisions[b];
    i := QuorumsMeet(s, b, c);
    assert ReportOk(s, Envelope(d.quorum[i], d.reports[i]), c) && d.reports[i] in d.reports;
  }

  lemma PickAtLeast(reports: seq<PromiseMessage>, i: nat, ballot: Ballot)
    requires i < |reports| && reports[i].multicastIp.Some? && AtMost(ballot, reports[i].accepted)
    ensures WithData(reports) != [] && NewestOf(WithData(reports)) in reports
    ensures AtMost(ballot, NewestOf(WithData(reports)).accepted)
  {
    WithDataContents(reports);
    assert reports[i] in WithData(reports);
    var k := NewestOfIsLastMaximum(WithData(reports));
  }

  /**
   * Once a majority approved ballot `c`, no attempt at a newer ballot draws a fresh address: it proposes
   * again one reported to it, in a promise reporting `c` or a newer ballot. This needs no honest reports.
   */
  lemma NoFreshDrawAfterChoice(s: Network, b: Key, c: Key)
    requires Inv(s) && Chosen(s, c) && b in s.log.decisions && b.typeName == c.typeName
    requires ProposalIsNewer(c.ballot, b.ballot)
    ensures var d := s.log.decisions[b];
            var data := WithData(d.reports);
            && !d.newlyDrawn && data != []
            && NewestOf(data).multicastIp == Some(d.address)
            && NewestOf(data) in d.reports
            && AtMost(c.ballot, NewestOf(data).accepted)
            && ProposalIsNewer(NewestOf(data).accepted, b.ballot)
  {
    assert DecisionOk(s, b, s.log.decisions[b]);
    var i := ChoiceReported(s, b, c);
    PickAtLeast(s.log.decisions[b].reports, i, c.ballot);
    PickIsOlder(s, b);
  }

  /** With honest picks every decision at or above a chosen ballot carries the chosen address. */
  lemma {:induction false} ChosenPersists(s: Network, b: Key, c: Key)
    requires Inv(s) && PicksHonest(s) && Chosen(s, c)
    requires b in s.log.decisions && b.typeName == c.typeName && AtMost(c.ballot, b.ballot)
    ensures s.log.decisions[b].address == s.log.decisions[c].address
    decreases b.ballot.proposalId, b.ballot.instanceId
  {
    if b != c {
      NoFreshDrawAfterChoice(s, b, c);
      var m := NewestOf(WithData(s.log.decisions[b].reports));
      assert DecisionOk(s, b, s.log.decisions[b]) && HonestReport(s, m);
      ChosenPersists(s, Key(b.typeName, m.accepted), c);
    }
  }

  lemma ChosenAgree(s: Network, b: Key, c: Key)
    requires Inv(s) && PicksHonest(s) && Chosen(s, b) && Chosen(s, c) && b.typeName == c.typeName
    ensures s.log.decisions[b].address == s.log.decisions[c].address
  {
    if AtMost(c.ballot, b.ballot) {
      ChosenPersists(s, b, c);
    } else {
      ChosenPersists(s, c, b);
    }
  }

  // ----- What callers and learners see

  /** Some node committed `a` to the type after counting the approvals of another node's ballot. */
  ghost predicate Committed(s: Network, t: TypeName, a: Address) {
    exists l, key :: CommittedAt(s, l, key, a) && key.typeName == t
  }

  predicate CommittedAt(s: Network, l: InstanceId, key: Key, a: Address) {
    l in s.nodes && a in CommitsOf(s, l, key)
  }

  /** Some proposer returned `a` as the type's address. */
  ghost predicate Returned(s: Network, t: TypeName, a: Address) {
    exists key :: key in s.log.returned && key.typeName == t && s.log.returned[key] == a
  }

  ghost predicate Outcome(s: Network, t: TypeName, a: Address) {
    Committed(s, t, a) || Returned(s, t, a)
  }

  ghost predicate CommitsAgreeFor(s: Network, t: TypeName) {
    forall a, b :: Committed(s, t, a) && Committed(s, t, b) ==> a == b
  }

  ghost predicate OutcomesAgreeFor(s: Network, t: TypeName) {
    forall a, b :: Outcome(s, t, a) && Outcome(s, t, b) ==> a == b
  }

  ghost predicate ChosenUniqueFor(s: Network, t: TypeName) {
    forall b, c :: Chosen(s, b) && Chosen(s, c) && b.typeName == c.typeName == t ==>
      s.log.decisions[b].address == s.log.decisions[c].address
  }

  ghost predicate CommitsAgree(s: Network) {
    forall t :: CommitsAgreeFor(s, t)
  }

  ghost predicate OutcomesAgree(s: Network) {
    forall t :: OutcomesAgreeFor(s, t)
  }

  ghost predicate ChosenUnique(s: Network) {
    forall t :: ChosenUniqueFor(s, t)
  }

  lemma CommittedIsChosen(s: Network, l: InstanceId, key: Key, a: Address)
    requires BooksOk(s) && CommittedAt(s, l, key, a)
    ensures Chosen(s, key) && s.log.decisions[key].address == a
  {
    assert CounterOk(s, l, key);
    CountedApproved(s, l, key);
  }

  lemma ReturnedIsChosen(s: Network, key: Key)
    requires BooksOk(s) && key in s.log.returned && |s.nodes| % 2 == 1
    ensures Chosen(s, key) && s.log.decisions[key].address == s.log.returned[key]
  {
  }

  /** Every address seen by a learner, and with an odd number of nodes by a caller, was chosen. */
  lemma OutcomeIsChosen(s: Network, t: TypeName, a: Address) returns (key: Key)
    requires BooksOk(s) && (Committed(s, t, a) || (Returned(s, t, a) && |s.nodes| % 2 == 1))
    ensures Chosen(s, key) && key.typeName == t && s.log.decisions[key].address == a
  {
    if Committed(s, t, a) {
      var l, k :| CommittedAt(s, l, k, a) && k.typeName == t;
      CommittedIsChosen(s, l, k, a);
      key := k;
    } else {
      var k :| k in s.log.returned && k.typeName == t && s.log.returned[k] == a;
      ReturnedIsChosen(s, k);
      key := k;
    }
  }

  lemma ChosenUniqueOutcomes(s: Network)
    requires BooksOk(s) && ChosenUnique(s)
    ensures CommitsAgree(s)
    ensures |s.nodes| % 2 == 1 ==> OutcomesAgree(s)
  {
    forall t, a, b | Committed(s, t, a) && Committed(s, t, b) ensures a == b {
      var k := OutcomeIsChosen(s, t, a);
      var k' := OutcomeIsChosen(s, t, b);
      assert ChosenUniqueFor(s, t);
    }
    if |s.nodes| % 2 == 1 {
      forall t, a, b | Outcome(s, t, a) && Outcome(s, t, b) ensures a == b {
        var k := OutcomeIsChosen(s, t, a);
        var k' := OutcomeIsChosen(s, t, b);
        assert ChosenUniqueFor(s, t);
      }
    }
  }

  /**
   * Agreement: on any number of nodes, in every run that keeps Basic and has honest picks, at most one
   * address per type is ever chosen, however often approvals are counted. If they are counted once, all
   * commits agree, and with an odd number of nodes returned addresses agree with them too. On at most two
   * nodes promises may be counted again.
   */
  lemma AgreementHolds(h: Hypothesis, ids: set<InstanceId>, s: Network)
    requires h.Honest? || h.NoDangling? || h.Recounted? || (h.Repeated? && |ids| <= 2)
    requires Reachable(h, ids, s)
    ensures ChosenUnique(s)
    ensures !h.Recounted? ==> CommitsAgree(s)
    ensures !h.Recounted? && |ids| % 2 == 1 ==> OutcomesAgree(s)
  {
    ReachableFacts(h, ids, s);
    forall b, c | Chosen(s, b) && Chosen(s, c) && b.typeName == c.typeName
      ensures s.log.decisions[b].address == s.log.decisions[c].address
    {
      ChosenAgree(s, b, c);
    }
    if !h.Recounted? {
      ChosenUniqueOutcomes(s);
    }
  }

  /** Some acceptor promised `b` reporting the address `b` proposes, held at ballot `c` or a newer one. */
  ghost predicate ReportedTo(s: Network, b: Key, c: Key) {
    && b in s.log.decisions
    && exists env :: env in s.sent && env.msg.Promise? && env.msg.key == b
         && env.msg.multicastIp == Some(s.log.decisions[b].address) && AtMost(c.ballot, env.msg.accepted)
  }

  /** No fresh draw after a choice, over runs that need not have honest reports. */
  lemma NoFreshDraw(ids: set<InstanceId>, s: Network, b: Key, c: Key)
    requires Reachable(Proposing, ids, s)
    requires Chosen(s, c) && b in s.log.decisions && b.typeName == c.typeName && ProposalIsNewer(c.ballot, b.ballot)
    ensures !s.log.decisions[b].newlyDrawn && ReportedTo(s, b, c)
  {
    ReachableFacts(Proposing, ids, s);
    NoFreshDrawAfterChoice(s, b, c);
    var m := NewestOf(WithData(s.log.decisions[b].reports));
    var env := ReportWasSent(s, b, m);
    assert m.key == b;
  }

  lemma ReportWasSent(s: Network, b: Key, m: PromiseMessage) returns (env: Envelope)
    requires DecisionsOk(s) && b in s.log.decisions && m in s.log.decisions[b].reports
    ensures env in s.sent && env.msg == m && m.key == b
  {
    var d := s.log.decisions[b];
    assert DecisionOk(s, b, d);
    var i :| 0 <= i < |d.reports| && d.reports[i] == m;
    env := Envelope(d.quorum[i], d.reports[i]);
  }
}
