/** What the counters of approvals are worth: the approval tests, and at most one commit a ballot. */
module ConsensusCounting {
  import opened Ballots
  import opened ConsensusNode
  import opened ConsensusNetwork
  import opened ConsensusInvariants

  function CountedBy(s: Network, l: InstanceId, key: Key): set<InstanceId> {
    set c | c in s.books.counted && c.learner == l && c.key == key :: c.acceptor
  }

  ghost predicate CountedOk(s: Network) {
    forall c :: c in s.books.counted ==> c.acceptor in s.nodes && ApprovedBy(s, c.acceptor, c.key)
  }

  /**
   * A counter never exceeds the acceptors counted; once a commit restarted it, it lags behind them by
   * more than half of the nodes, so it can never pass the threshold again.
   */
  ghost predicate CounterOk(s: Network, l: InstanceId, key: Key)
    requires l in s.nodes
  {
    var counted := |CountedBy(s, l, key)|;
    var count := ApprovalsFor(s.nodes[l], key);
    && count <= counted
    && |CommitsOf(s, l, key)| <= 1
    && (CommitsOf(s, l, key) != [] ==>
          && 2 * (counted - count) > |s.nodes|
          && key in s.log.decisions
          && CommitsOf(s, l, key) == [s.log.decisions[key].address]
          && l != key.ballot.instanceId)
  }

  ghost predicate CountersOk(s: Network) {
    forall l, key :: l in s.nodes ==> CounterOk(s, l, key)
  }

  ghost predicate ReturnsOk(s: Network) {
    forall key :: key in s.log.returned ==>
      && key in s.log.decisions
      && s.log.returned[key] == s.log.decisions[key].address
      && 2 * |Approvers(s, key)| >= |s.nodes|
  }

  ghost predicate BooksOk(s: Network) {
    CountedOk(s) && CountersOk(s) && ReturnsOk(s)
  }

  lemma BooksStart(ids: set<InstanceId>)
    ensures BooksOk(Start(ids))
  {
  }

  /** Attempts only advance: no decision, proposal or message is ever taken back. */
  ghost predicate Grows(s: Network, s': Network) {
    && s'.nodes.Keys == s.nodes.Keys
    && s.sent <= s'.sent
    && s.log.proposed <= s'.log.proposed
    && s.log.decisions.Keys <= s'.log.decisions.Keys
    && (forall key :: key in s.log.decisions ==> s'.log.decisions[key] == s.log.decisions[key])
  }

  lemma StepGrows(s: Network, e: Event)
    requires Enabled(s, e) && PhasesOk(s)
    ensures Grows(s, Step(s, e))
  {
  }

  lemma ApproversGrow(s: Network, s': Network, key: Key)
    requires Grows(s, s')
    ensures key in s.log.decisions ==> Approvers(s, key) <= Approvers(s', key)
    ensures |Approvers(s', key)| <= |s'.nodes|
    ensures key in s.log.decisions ==> |Approvers(s, key)| <= |Approvers(s', key)|
  {
    SubsetSize(Approvers(s', key), s'.nodes.Keys);
    if key in s.log.decisions {
      assert Approvers(s, key) <= Approvers(s', key);
      SubsetSize(Approvers(s, key), Approvers(s', key));
    }
  }

  /** Every acceptor counted did approve, so a counter bounds the number of approvers from below. */
  lemma CountedApproved(s: Network, l: InstanceId, key: Key)
    requires CountedOk(s)
    ensures CountedBy(s, l, key) <= Approvers(s, key) && |CountedBy(s, l, key)| <= |Approvers(s, key)| <= |s.nodes|
  {
    SubsetSize(CountedBy(s, l, key), Approvers(s, key));
    SubsetSize(Approvers(s, key), s.nodes.Keys);
  }

  lemma FrameBooks(s: Network, s': Network)
    requires BooksOk(s) && Grows(s, s')
    requires s'.books.counted == s.books.counted && s'.books.commits == s.books.commits
    requires s'.log.returned == s.log.returned
    requires forall p :: p in s.nodes ==> s'.nodes[p].approvals == s.nodes[p].approvals
    ensures BooksOk(s')
  {
    SameSize(s.nodes, s'.nodes);
    forall l, key | l in s'.nodes ensures CounterOk(s', l, key) {
      assert CounterOk(s, l, key);
      assert CountedBy(s', l, key) == CountedBy(s, l, key);
    }
    forall key | key in s'.log.returned ensures 2 * |Approvers(s', key)| >= |s'.nodes| {
      ApproversGrow(s, s', key);
    }
  }

  lemma BooksCloseApprovals(s: Network, p: InstanceId, key: Key)
    requires BooksOk(s) && p in s.nodes && key in s.log.decisions && |s.nodes| <= s.nodes[p].numPeers
    ensures BooksOk(DoCloseApprovals(s, p, key))
  {
    var s' := DoCloseApprovals(s, p, key);
    FrameBooks(s, s'.(log := s'.log.(returned := s.log.returned)));
    forall l, k | l in s'.nodes ensures CounterOk(s', l, k) {
      assert CounterOk(s, l, k);
      assert CountedBy(s', l, k) == CountedBy(s, l, k);
    }
    forall k | k in s'.log.returned
      ensures k in s'.log.decisions && s'.log.returned[k] == s'.log.decisions[k].address
      ensures 2 * |Approvers(s', k)| >= |s'.nodes|
    {
      assert Approvers(s', k) == Approvers(s, k);
      if k !in s.log.returned {
        assert CounterOk(s, p, k);
        CountedApproved(s, p, k);
      }
    }
  }

  /** The receiving node's own counter for the approved ballot. */
  lemma CounterReceiveApproval(s: Network, p: InstanceId, from: InstanceId, key: Key, a: Address, ok: bool)
    requires NodesOk(s) && p in s.nodes && CounterOk(s, p, key) && |s.nodes| <= s.nodes[p].numPeers
    requires key in s.log.decisions && a == s.log.decisions[key].address
    requires Count(p, key, from) !in s.books.counted
    requires |CountedBy(DoReceiveApproval(s, p, from, key, a, ok), p, key)| <= |s.nodes|
    ensures CounterOk(DoReceiveApproval(s, p, from, key, a, ok), p, key)
  {
    var s' := DoReceiveApproval(s, p, from, key, a, ok);
    SameSize(s.nodes, s'.nodes);
    assert CountedBy(s', p, key) == CountedBy(s, p, key) + {from};
  }

  lemma CounterElsewhere(s: Network, p: InstanceId, from: InstanceId, key: Key, a: Address, ok: bool, l: InstanceId,
                         k: Key)
    requires NodesOk(s) && p in s.nodes && l in s.nodes && CounterOk(s, l, k) && (l != p || k != key)
    ensures CounterOk(DoReceiveApproval(s, p, from, key, a, ok), l, k)
  {
    var s' := DoReceiveApproval(s, p, from, key, a, ok);
    SameSize(s.nodes, s'.nodes);
    assert CountedBy(s', l, k) == CountedBy(s, l, k);
  }

  lemma ApproversSame(s: Network, s': Network, key: Key)
    requires s'.nodes.Keys == s.nodes.Keys && s'.sent == s.sent && s'.log == s.log
    ensures Approvers(s', key) == Approvers(s, key)
  {
  }

  lemma BooksReceiveApproval(s: Network, p: InstanceId, from: InstanceId, key: Key, a: Address, ok: bool)
    requires NodesOk(s) && BooksOk(s) && p in s.nodes && from in s.nodes && |s.nodes| <= s.nodes[p].numPeers
    requires ApprovedBy(s, from, key) && a == s.log.decisions[key].address
    requires Count(p, key, from) !in s.books.counted
    ensures BooksOk(DoReceiveApproval(s, p, from, key, a, ok))
  {
    var s' := DoReceiveApproval(s, p, from, key, a, ok);
    SameSize(s.nodes, s'.nodes);
    assert CountedOk(s');
    forall l, k | l in s'.nodes ensures CounterOk(s', l, k) {
      if l == p && k == key {
        CountedApproved(s', p, key);
        CounterReceiveApproval(s, p, from, key, a, ok);
      } else {
        CounterElsewhere(s, p, from, key, a, ok, l, k);
      }
    }
    forall k ensures Approvers(s', k) == Approvers(s, k) {
      ApproversSame(s, s', k);
    }
  }

  /** An approval that is received was sent by a node and carries its ballot's decision. */
  predicate ApprovalBound(s: Network, e: Event) {
    e.ReceiveApproval? && e.env.msg.Approval? ==>
      && e.env.from in s.nodes && e.env.msg.key in s.log.decisions
      && e.env.msg.address == s.log.decisions[e.env.msg.key].address
  }

  /** Of the hypotheses only these are needed: peers are not under-counted, no approval is counted again. */
  lemma BooksStep(s: Network, e: Event)
    requires Enabled(s, e) && PeersCounted(s, e) && ApprovalCountedOnce(s, e)
    requires NodesOk(s) && PhasesOk(s) && ApprovalBound(s, e) && BooksOk(s)
    ensures BooksOk(Step(s, e))
  {
    if e.ReceiveApproval? {
      BooksReceiveApproval(s, e.p, e.env.from, e.env.msg.key, e.env.msg.address, e.commitSucceeds);
    } else if e.CloseApprovals? {
      BooksCloseApprovals(s, e.p, e.key);
    } else {
      StepGrows(s, e);
      CountersKept(s, e);
      FrameBooks(s, Step(s, e));
    }
  }

  lemma CountersKept(s: Network, e: Event)
    requires Enabled(s, e) && !e.ReceiveApproval? && !e.CloseApprovals?
    ensures Step(s, e).books.counted == s.books.counted && Step(s, e).books.commits == s.books.commits
    ensures Step(s, e).log.returned == s.log.returned
    ensures forall p :: p in s.nodes && p in Step(s, e).nodes ==> Step(s, e).nodes[p].approvals == s.nodes[p].approvals
  {
  }
}
