/** How often a node commits a ballot, and after how many approvals, whatever else goes wrong in the network. */
module Commits {
  import opened Ballots
  import opened ConsensusNode
  import opened ConsensusNetwork
  import opened ConsensusInvariants
  import opened ConsensusCounting
  import opened FreeRuns

  /** Learner `l` knows of all peers when it counts an approval of `key`, and counts no approver of it twice. */
  predicate Tallied(s: Network, e: Event, l: InstanceId, key: Key)
    requires Enabled(s, e)
  {
    e.ReceiveApproval? && e.p == l && e.env.msg.key == key ==>
      |s.nodes| <= s.nodes[l].numPeers && Count(l, key, e.env.from) !in s.books.counted
  }

  /** A run in which only this is assumed. */
  ghost predicate TalliedRun(s: Network, l: InstanceId, key: Key, es: seq<Event>, s': Network)
    decreases |es|
  {
    if es == [] then s' == s
    else Enabled(s, es[0]) && Tallied(s, es[0], l, key) && TalliedRun(Step(s, es[0]), l, key, es[1..], s')
  }

  lemma CountedReceiveApproval(s: Network, p: InstanceId, env: Envelope, ok: bool)
    requires CountedOk(s) && p in s.nodes && env in s.sent && env.msg.Approval? && Announced(s, env)
    ensures CountedOk(DoReceiveApproval(s, p, env.from, env.msg.key, env.msg.address, ok))
  {
  }

  lemma CountedKept(s: Network, s': Network)
    requires CountedOk(s) && Grows(s, s') && s'.books.counted == s.books.counted
    ensures CountedOk(s')
  {
  }

  /** The rest of the books changes only when approvals are counted. */
  lemma OnlyCountingCounts(s: Network, e: Event)
    requires Enabled(s, e) && !e.ReceiveApproval?
    ensures Step(s, e).books.counted == s.books.counted && Step(s, e).books.commits == s.books.commits
    ensures forall p :: p in s.nodes && p in Step(s, e).nodes ==> Step(s, e).nodes[p].approvals == s.nodes[p].approvals
  {
    if !e.CloseApprovals? {
      CountersKept(s, e);
    }
  }

  lemma CountedStep(s: Network, e: Event)
    requires Enabled(s, e) && FreeInv(s) && CountedOk(s)
    ensures CountedOk(Step(s, e))
  {
    if e.ReceiveApproval? {
      assert Announced(s, e.env);
      CountedReceiveApproval(s, e.p, e.env, e.commitSucceeds);
    } else {
      StepGrows(s, e);
      OnlyCountingCounts(s, e);
      CountedKept(s, Step(s, e));
    }
  }

  lemma CounterKept(s: Network, s': Network, l: InstanceId, key: Key)
    requires l in s.nodes && CounterOk(s, l, key) && Grows(s, s')
    requires s'.books.counted == s.books.counted && s'.books.commits == s.books.commits
    requires s'.nodes[l].approvals == s.nodes[l].approvals
    ensures CounterOk(s', l, key)
  {
    SameSize(s.nodes, s'.nodes);
    assert CountedBy(s', l, key) == CountedBy(s, l, key);
  }

  lemma CounterStep(s: Network, e: Event, l: InstanceId, key: Key)
    requires Enabled(s, e) && Tallied(s, e, l, key) && FreeInv(s) && CountedOk(s)
    requires l in s.nodes && CounterOk(s, l, key)
    ensures l in Step(s, e).nodes && CounterOk(Step(s, e), l, key)
  {
    StepGrows(s, e);
    if e.ReceiveApproval? {
      assert Announced(s, e.env);
      var k := e.env.msg.key;
      if e.p == l && k == key {
        CountedStep(s, e);
        NodesKept(s, e);
        CountedApproved(Step(s, e), l, key);
        CounterReceiveApproval(s, l, e.env.from, key, e.env.msg.address, e.commitSucceeds);
      } else {
        CounterElsewhere(s, e.p, e.env.from, k, e.env.msg.address, e.commitSucceeds, l, key);
      }
    } else {
      OnlyCountingCounts(s, e);
      CounterKept(s, Step(s, e), l, key);
    }
  }

  lemma {:induction false} TalliedRunKeeps(s: Network, l: InstanceId, key: Key, es: seq<Event>, s': Network)
    requires TalliedRun(s, l, key, es, s') && FreeInv(s) && CountedOk(s) && l in s.nodes && CounterOk(s, l, key)
    ensures FreeInv(s') && CountedOk(s') && l in s'.nodes && |s'.nodes| == |s.nodes| && CounterOk(s', l, key)
    decreases |es|
  {
    if es != [] {
      FreeStep(s, es[0]);
      CountedStep(s, es[0]);
      CounterStep(s, es[0], l, key);
      NodesKept(s, es[0]);
      TalliedRunKeeps(Step(s, es[0]), l, key, es[1..], s');
    }
  }

  /**
   * A node commits at most once for each ballot of another proposer, only after counting a strict majority
   * of all nodes, and only a chosen address; the count restarted by the commit can never pass the threshold
   * again. This needs only that the node itself counts the approvals of that ballot right.
   */
  lemma CommitsAtMostOnce(ids: set<InstanceId>, l: InstanceId, key: Key, es: seq<Event>, s: Network)
    requires l in ids && TalliedRun(Start(ids), l, key, es, s)
    ensures |CommitsOf(s, l, key)| <= 1 && l in s.nodes
    ensures CommitsOf(s, l, key) != [] ==>
              key.ballot.instanceId != l && 2 * |CountedBy(s, l, key)| > |ids| && Chosen(s, key)
    ensures forall a :: a in CommitsOf(s, l, key) ==> key in s.log.decisions && a == s.log.decisions[key].address
    ensures CommitsOf(s, l, key) != [] ==> 2 * (ApprovalsFor(s.nodes[l], key) + |ids| - |CountedBy(s, l, key)|) < |ids|
  {
    FreeStart(ids);
    BooksStart(ids);
    assert Start(ids).nodes.Keys == ids && |Start(ids).nodes.Keys| == |Start(ids).nodes|;
    assert CounterOk(Start(ids), l, key);
    TalliedRunKeeps(Start(ids), l, key, es, s);
    CountedApproved(s, l, key);
  }

  /** Every run under a hypothesis that keeps these two assumptions is such a run. */
  lemma {:induction false} RunIsTallied(h: Hypothesis, s: Network, l: InstanceId, key: Key, es: seq<Event>, s': Network)
    requires !h.Undercounted? && !h.Recounted? && !h.Proposing? && Run(h, s, es, s')
    ensures TalliedRun(s, l, key, es, s')
    decreases |es|
  {
    if es == [] {
      var states :| Chain(h, states, es) && states[0] == s && states[|es|] == s';
    } else {
      RunHead(h, s, es, s');
      RunIsTallied(h, Step(s, es[0]), l, key, es[1..], s');
    }
  }
}
