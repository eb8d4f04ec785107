/**
 * What the code does not guarantee and agreement needs: with two nodes or more, dropping either that a
 * proposer's own write never lowers its record or that promises count only toward the ballot they
 * answered lets two addresses be chosen and returned, although everything else is assumed.
 */
module Necessity {
  import opened Wrappers
  import opened Ballots
  import opened ConsensusNode
  import opened ConsensusNetwork
  import opened ConsensusInvariants
  import opened Agreement
  import opened Rounds
  import opened Attempts
  import opened Beginnings
  import opened Limits

  // ----- Schedules over the nodes of `q`, by the record each of them keeps

  ghost predicate NodesOf(s: Network, q: seq<InstanceId>) {
    && Distinct(q) && Members(q) == s.nodes.Keys && |q| == |s.nodes| >= 2
    && forall n :: n in s.nodes ==> s.nodes[n].id == n && s.nodes[n].numPeers == |s.nodes|
  }

  /** Node `q[i]` keeps the record `rs[i]`. */
  ghost predicate Records(s: Network, q: seq<InstanceId>, t: TypeName, rs: seq<Record>) {
    |rs| == |q| && forall i :: 0 <= i < |q| ==> Keeps(s, q[i], t, rs[i])
  }

  /** The attempt has decided on `a`; whether it was announced is `announced`; nobody has been counted. */
  ghost predicate Undecided(s: Network, key: Key, a: Address, announced: bool) {
    var p := key.ballot.instanceId;
    && p in s.nodes && ApprovalsFor(s.nodes[p], key) == 0
    && (forall id :: Count(p, key, id) !in s.books.counted)
    && key in s.log.decisions && s.log.decisions[key].address == a
    && (key in s.log.proposed <==> announced) && key !in s.log.finished
    && (announced ==> Envelope(p, Proposal(key, a)) in s.sent)
  }

  /** A step of the schedule that concerns `key` leaves every other attempt as it was. */
  ghost predicate Elsewhere(s: Network, s': Network, key: Key) {
    && s.sent <= s'.sent && s'.log.decisions == s.log.decisions
    && (forall k, a, announced :: k != key && Undecided(s, k, a, announced) ==> Undecided(s', k, a, announced))
    && (forall k :: k in s.log.returned && k != key ==> k in s'.log.returned && s'.log.returned[k] == s.log.returned[k])
  }

  /** The records once the nodes `vs` took over `r` of their own record. */
  function Changed(q: seq<InstanceId>, rs: seq<Record>, vs: seq<InstanceId>, key: Key, a: Option<Address>): seq<Record>
    requires |rs| == |q|
  {
    seq(|q|, i requires 0 <= i < |q| =>
      if q[i] in vs then Record(key.ballot, if a.Some? then a else rs[i].multicastIp) else rs[i])
  }

  lemma SizeKept(s: Network, s': Network)
    requires s'.nodes.Keys == s.nodes.Keys
    ensures |s'.nodes| == |s.nodes|
  {
    SameSize(s.nodes, s'.nodes);
  }

  lemma SentRecords(s: Network, q: seq<InstanceId>, rs: seq<Record>, j: nat, key: Key, a: Address)
    requires NodesOf(s, q) && Records(s, q, key.typeName, rs) && j < |q| && Undecided(s, key, a, false)
    ensures NodesOf(DoSendProposal(s, q[j], key), q)
    ensures Records(DoSendProposal(s, q[j], key), q, key.typeName, rs[j := Record(key.ballot, Some(a))])
  {
    var s' := DoSendProposal(s, q[j], key);
    SizeKept(s, s');
    forall i | 0 <= i < |q| ensures Keeps(s', q[i], key.typeName, rs[j := Record(key.ballot, Some(a))][i]) {
      assert Keeps(s, q[i], key.typeName, rs[i]);
    }
  }

  lemma SentElsewhere(s: Network, key: Key, a: Address)
    requires Undecided(s, key, a, false)
    ensures var s' := DoSendProposal(s, key.ballot.instanceId, key);
            Elsewhere(s, s', key) && Undecided(s', key, a, true)
  {
  }

  lemma AnnounceLeads(h: Hypothesis, s: Network, key: Key, record: Record)
    requires key.ballot.instanceId in s.nodes && key in s.log.decisions && key !in s.log.proposed
    requires Keeps(s, key.ballot.instanceId, key.typeName, record)
    requires h.Contended? || AtMost(record.ballot, key.ballot)
    ensures var p := key.ballot.instanceId;
            Leads(h, s, SendProposal(p, key), DoSendProposal(s, p, key))
  {
  }

  lemma Announce(h: Hypothesis, ids: set<InstanceId>, s: Network, q: seq<InstanceId>, rs: seq<Record>, j: nat,
                 key: Key, a: Address)
    returns (s': Network)
    requires Reachable(h, ids, s) && NodesOf(s, q) && Records(s, q, key.typeName, rs) && j < |q|
    requires key.ballot.instanceId == q[j] && Undecided(s, key, a, false)
    requires h.Contended? || AtMost(rs[j].ballot, key.ballot)
    ensures Reachable(h, ids, s') && NodesOf(s', q) && Elsewhere(s, s', key) && Undecided(s', key, a, true)
    ensures Records(s', q, key.typeName, rs[j := Record(key.ballot, Some(a))])
  {
    s' := DoSendProposal(s, q[j], key);
    assert Keeps(s, q[j], key.typeName, rs[j]);
    AnnounceLeads(h, s, key, rs[j]);
    RunOne(h, s, SendProposal(q[j], key), s');
    ReachFurther(h, ids, s, [SendProposal(q[j], key)], s');
    SentRecords(s, q, rs, j, key, a);
    SentElsewhere(s, key, a);
  }

  lemma AcceptedRecords(s: Network, q: seq<InstanceId>, rs: seq<Record>, key: Key, a: Address, vs: seq<InstanceId>)
    requires NodesOf(s, q) && Records(s, q, key.typeName, rs)
    ensures NodesOf(AcceptAll(s, key, a, vs), q)
    ensures Records(AcceptAll(s, key, a, vs), q, key.typeName, Changed(q, rs, vs, key, Some(a)))
  {
    var s' := AcceptAll(s, key, a, vs);
    SizeKept(s, s');
    forall i | 0 <= i < |q| ensures Keeps(s', q[i], key.typeName, Changed(q, rs, vs, key, Some(a))[i]) {
      assert Keeps(s, q[i], key.typeName, rs[i]);
    }
  }

  lemma AcceptedElsewhere(s: Network, key: Key, a: Address, vs: seq<InstanceId>)
    requires Undecided(s, key, a, true)
    ensures Elsewhere(s, AcceptAll(s, key, a, vs), key) && Undecided(AcceptAll(s, key, a, vs), key, a, true)
  {
  }

  lemma AcceptBy(h: Hypothesis, ids: set<InstanceId>, s: Network, q: seq<InstanceId>, rs: seq<Record>, key: Key,
                 a: Address, vs: seq<InstanceId>)
    returns (s': Network)
    requires Reachable(h, ids, s) && NodesOf(s, q) && Records(s, q, key.typeName, rs)
    requires Undecided(s, key, a, true) && Distinct(vs)
    requires forall id :: id in vs ==> id in q
    requires forall i :: 0 <= i < |q| && q[i] in vs ==> rs[i].ballot == key.ballot
    ensures Reachable(h, ids, s') && NodesOf(s', q) && Elsewhere(s, s', key) && Undecided(s', key, a, true)
    ensures Records(s', q, key.typeName, Changed(q, rs, vs, key, Some(a)))
    ensures forall id :: id in vs ==> Envelope(id, Approval(key, a)) in s'.sent
  {
    s' := AcceptAll(s, key, a, vs);
    forall k | 0 <= k < |vs|
      ensures vs[k] in s.nodes && key.typeName in s.nodes[vs[k]].proposals
      ensures s.nodes[vs[k]].proposals[key.typeName].ballot == key.ballot
    {
      assert vs[k] in vs;
      var i :| 0 <= i < |q| && q[i] == vs[k];
      assert Keeps(s, q[i], key.typeName, rs[i]);
    }
    AcceptRun(h, s, key, a, vs);
    ReachFurther(h, ids, s, AcceptEvents(key, a, vs), s');
    AcceptedRecords(s, q, rs, key, a, vs);
    AcceptedElsewhere(s, key, a, vs);
  }

  lemma ElsewhereTwice(s: Network, m: Network, s': Network, key: Key)
    requires Elsewhere(s, m, key) && Elsewhere(m, s', key)
    ensures Elsewhere(s, s', key)
  {
  }

  lemma FirstHalfIndices(q: seq<InstanceId>)
    requires Distinct(q) && |q| >= 2
    ensures Distinct(q[..Half(q) + 1]) && 2 * |q[..Half(q) + 1]| > |q|
    ensures forall i :: 0 <= i < |q| ==> (q[i] in q[..Half(q) + 1] <==> i <= Half(q))
    ensures forall id :: id in q[..Half(q) + 1] ==> id in q
  {
    assert forall i :: 0 <= i <= Half(q) ==> q[..Half(q) + 1][i] == q[i];
  }

  lemma ChangedTwice(q: seq<InstanceId>, rs: seq<Record>, j: nat, vs: seq<InstanceId>, key: Key, a: Address)
    requires |rs| == |q| && j < |q| && q[j] in vs
    requires forall i :: 0 <= i < |q| && i != j && q[i] in vs ==> rs[i].ballot == key.ballot
    ensures Changed(q, rs[j := Record(key.ballot, Some(a))], vs, key, Some(a)) == Changed(q, rs, vs, key, Some(a))
    ensures forall i :: 0 <= i < |q| && q[i] in vs ==> rs[j := Record(key.ballot, Some(a))][i].ballot == key.ballot
  {
  }

  /** The proposer `q[j]` announces its decision and `vs`, itself among them, approve. */
  lemma Propose(h: Hypothesis, ids: set<InstanceId>, s: Network, q: seq<InstanceId>, rs: seq<Record>, j: nat,
                key: Key, a: Address, vs: seq<InstanceId>)
    returns (s': Network)
    requires Reachable(h, ids, s) && NodesOf(s, q) && Records(s, q, key.typeName, rs) && j < |q|
    requires key.ballot.instanceId == q[j] && Undecided(s, key, a, false)
    requires h.Contended? || AtMost(rs[j].ballot, key.ballot)
    requires Distinct(vs) && q[j] in vs && forall id :: id in vs ==> id in q
    requires forall i :: 0 <= i < |q| && i != j && q[i] in vs ==> rs[i].ballot == key.ballot
    ensures Reachable(h, ids, s') && NodesOf(s', q) && Elsewhere(s, s', key) && Undecided(s', key, a, true)
    ensures Records(s', q, key.typeName, Changed(q, rs, vs, key, Some(a)))
    ensures forall id :: id in vs ==> Envelope(id, Approval(key, a)) in s'.sent
  {
    ChangedTwice(q, rs, j, vs, key, a);
    var rs' := rs[j := Record(key.ballot, Some(a))];
    var m := Announce(h, ids, s, q, rs, j, key, a);
    s' := AcceptBy(h, ids, m, q, rs', key, a, vs);
    ElsewhereTwice(s, m, s', key);
  }

  lemma PromisedRecords(s: Network, q: seq<InstanceId>, rs: seq<Record>, key: Key, vs: seq<InstanceId>)
    requires NodesOf(s, q) && Records(s, q, key.typeName, rs)
    requires forall id :: id in vs ==> id != key.ballot.instanceId
    requires forall i :: 0 <= i < |q| && q[i] in vs ==> ProposalIsNewer(rs[i].ballot, key.ballot)
    ensures NodesOf(PrepareAll(s, key, vs), q)
    ensures Records(PrepareAll(s, key, vs), q, key.typeName, Changed(q, rs, vs, key, None))
  {
    var s' := PrepareAll(s, key, vs);
    SizeKept(s, s');
    forall i | 0 <= i < |q| ensures Keeps(s', q[i], key.typeName, Changed(q, rs, vs, key, None)[i]) {
      assert Keeps(s, q[i], key.typeName, rs[i]);
    }
  }

  lemma PromisedElsewhere(s: Network, key: Key, vs: seq<InstanceId>)
    ensures forall k, a, announced :: Undecided(s, k, a, announced) ==>
                Undecided(PrepareAll(s, key, vs), k, a, announced)
  {
    forall k, a, announced | Undecided(s, k, a, announced) ensures Undecided(PrepareAll(s, key, vs), k, a, announced) {
      var p := k.ballot.instanceId;
      assert PrepareAll(s, key, vs).nodes[p].approvals == s.nodes[p].approvals;
    }
  }

  lemma PromisedReady(s: Network, key: Key, vs: seq<InstanceId>)
    ensures forall n, k :: Ready(s, n, k) ==> Ready(PrepareAll(s, key, vs), n, k)
    ensures forall k :: Unused(s, k) ==> Unused(PrepareAll(s, key, vs), k)
  {
    SizeKept(s, PrepareAll(s, key, vs));
  }

  lemma PromiseBy(h: Hypothesis, ids: set<InstanceId>, s: Network, q: seq<InstanceId>, rs: seq<Record>, key: Key,
                  vs: seq<InstanceId>)
    returns (s': Network)
    requires Reachable(h, ids, s) && NodesOf(s, q) && Records(s, q, key.typeName, rs)
    requires Envelope(key.ballot.instanceId, Preparation(key)) in s.sent && Distinct(vs)
    requires forall id :: id in vs ==> id in q && id != key.ballot.instanceId
    requires forall i :: 0 <= i < |q| && q[i] in vs ==>
               && ProposalIsNewer(rs[i].ballot, key.ballot)
               && (rs[i].multicastIp.Some? ==> Accepted(s, q[i], Key(key.typeName, rs[i].ballot)))
    ensures Reachable(h, ids, s') && NodesOf(s', q) && s.sent <= s'.sent && s'.log == s.log && s'.books == s.books
    ensures forall k, a, announced :: Undecided(s, k, a, announced) ==> Undecided(s', k, a, announced)
    ensures forall n, k :: Ready(s, n, k) ==> Ready(s', n, k)
    ensures forall id :: id in vs && id in s.nodes ==> Envelope(id, PromiseOf(s, id, key)) in s'.sent
    ensures Records(s', q, key.typeName, Changed(q, rs, vs, key, None))
  {
    s' := PrepareAll(s, key, vs);
    forall k | 0 <= k < |vs| ensures WillPromise(h, s, key, vs[k]) {
      assert vs[k] in vs;
      var i :| 0 <= i < |q| && q[i] == vs[k];
      assert Keeps(s, q[i], key.typeName, rs[i]);
    }
    PrepareRun(h, s, key, vs);
    ReachFurther(h, ids, s, PrepareEvents(key, vs), s');
    PromisedRecords(s, q, rs, key, vs);
    PromisedElsewhere(s, key, vs);
    PromisedReady(s, key, vs);
  }

  lemma ConcludedElsewhere(s: Network, q: seq<InstanceId>, key: Key, a: Address, vs: seq<InstanceId>)
    requires NodesOf(s, q) && Undecided(s, key, a, true) && 2 * |vs| >= |q|
    ensures var m := CountAll(s, key.ballot.instanceId, key, vs);
            var s' := DoCloseApprovals(m, key.ballot.instanceId, key);
            && NodesOf(s', q) && Elsewhere(s, s', key)
            && key in s'.log.returned && s'.log.returned[key] == a
  {
    SizeKept(s, CountAll(s, key.ballot.instanceId, key, vs));
  }

  lemma Conclude(h: Hypothesis, ids: set<InstanceId>, s: Network, q: seq<InstanceId>, key: Key, a: Address,
                 vs: seq<InstanceId>)
    returns (s': Network)
    requires Reachable(h, ids, s) && NodesOf(s, q) && Undecided(s, key, a, true)
    requires Distinct(vs) && 2 * |vs| >= |q|
    requires forall id :: id in vs ==> Envelope(id, Approval(key, a)) in s.sent
    ensures Reachable(h, ids, s') && NodesOf(s', q) && Elsewhere(s, s', key)
    ensures key in s'.log.returned && s'.log.returned[key] == a
  {
    var p := key.ballot.instanceId;
    forall i | 0 <= i < |vs| ensures Envelope(vs[i], Approval(key, a)) in s.sent {
      assert vs[i] in vs;
    }
    CountRun(h, s, p, key, a, vs);
    var m := CountAll(s, p, key, vs);
    SizeKept(s, m);
    FinishPermitted(h, m, p, key);
    s' := DoCloseApprovals(m, p, key);
    ConcludedElsewhere(s, q, key, a, vs);
    RunOne(h, m, CloseApprovals(p, key), s');
    RunConcat(h, s, CountEvents(key, a, vs), m, [CloseApprovals(p, key)], s');
    ReachFurther(h, ids, s, CountEvents(key, a, vs) + [CloseApprovals(p, key)], s');
  }

  lemma ApprovedByMost(s: Network, vs: seq<InstanceId>, key: Key, a: Address)
    requires Distinct(vs) && 2 * |vs| > |s.nodes| && key in s.log.decisions && s.log.decisions[key].address == a
    requires forall id :: id in vs ==> id in s.nodes && Envelope(id, Approval(key, a)) in s.sent
    ensures Chosen(s, key)
  {
    DistinctSize(vs);
    SubsetSize(Members(vs), Approvers(s, key));
  }

  // ----- Two proposers contend: each has its promises when the first announces an older ballot than its record's

  /** Both attempts have sent their preparations, and nothing else happened about the type. */
  ghost predicate Begun(s: Network, q: seq<InstanceId>, k1: Key, k2: Key) {
    && Blank(s, q, k1.typeName) && |q| >= 2 && k2.typeName == k1.typeName && k1 != k2
    && k1.ballot.instanceId == q[0] && k2.ballot.instanceId == q[1]
    && Ready(s, q[0], k1) && Ready(s, q[1], k2)
  }

  lemma BothBegin(h: Hypothesis, ids: set<InstanceId>, t: TypeName)
    returns (s: Network, q: seq<InstanceId>, k1: Key, k2: Key)
    requires |ids| >= 2
    ensures Reachable(h, ids, s) && Begun(s, q, k1, k2) && k1.typeName == t && ProposalIsNewer(k1.ballot, k2.ballot)
    ensures |q| == |ids| && k1.ballot.proposalId == 1 && k2.ballot.proposalId == 2
    ensures forall k: Key :: k.ballot.instanceId in q && k.ballot.proposalId >= 3 ==> Unused(s, k)
  {
    q := Enumerate(ids);
    assert q[0] in Members(q) && q[1] in Members(q);
    k1, k2 := Key(t, Ballot(1, q[0])), Key(t, Ballot(2, q[1]));
    var met := MetBlank(h, ids, t);
    s := BeginTwo(h, ids, met, k1, k2);
    BlankAgain(met, s, q, t);
  }

  lemma Decide(h: Hypothesis, ids: set<InstanceId>, s: Network, x: Plan) returns (c: Network)
    requires Reachable(h, ids, s) && Feasible(h, s, x)
    ensures Reachable(h, ids, c) && Decided(s, c, x, Picked(Reports(s, x), x.draw))
  {
    c := DecidedRun(h, s, x);
    ReachFurther(h, ids, s, DecisionEvents(s, x), c);
  }

  /** Other attempts are not affected by a decision. */
  lemma DecidedElsewhere(s: Network, c: Network, x: Plan, a: Address)
    requires Decided(s, c, x, a) && Ready(s, x.key.ballot.instanceId, x.key)
    ensures Undecided(c, x.key, a, false)
    ensures forall q, k :: k != x.key && Ready(s, q, k) ==> Ready(c, q, k)
    ensures forall k, b :: k != x.key && Undecided(s, k, b, false) ==> Undecided(c, k, b, false)
  {
    SizeKept(s, c);
  }

  lemma DecidedNodes(s: Network, c: Network, q: seq<InstanceId>, x: Plan, a: Address)
    requires NodesOf(s, q) && Decided(s, c, x, a) && x.key.ballot.instanceId !in x.promisers
    ensures NodesOf(c, q)
  {
    SizeKept(s, c);
  }

  /** The record of a node once the attempt has decided. */
  lemma DecidedAt(s: Network, c: Network, x: Plan, a: Address, n: InstanceId)
    requires Decided(s, c, x, a) && n in s.nodes && x.key.ballot.instanceId !in x.promisers
    requires n in x.promisers ==> s.nodes[n].id == n && MayPromise(s.nodes[n], x.key)
    ensures n in x.promisers ==>
              Keeps(c, n, x.key.typeName, Record(x.key.ballot, Reported(s.nodes[n], x.key.typeName).multicastIp))
    ensures n !in x.promisers ==> n in c.nodes && c.nodes[n].proposals == s.nodes[n].proposals
  {
  }

  lemma BegunNodes(s: Network, q: seq<InstanceId>, k1: Key, k2: Key)
    requires Begun(s, q, k1, k2)
    ensures NodesOf(s, q)
    ensures forall n :: n in s.nodes ==> k1.typeName !in s.nodes[n].proposals
  {
    forall n | n in s.nodes
      ensures s.nodes[n].id == n && s.nodes[n].numPeers == |s.nodes| && k1.typeName !in s.nodes[n].proposals
    {
      assert Idle(s, n, k1.typeName);
    }
  }

  function EveryoneElse(q: seq<InstanceId>, key: Key, draw: Address): Plan
    requires q != []
  {
    Plan(key, draw, q[1..], q[1..], [], [])
  }

  lemma TailMembers(q: seq<InstanceId>)
    requires Distinct(q) && q != []
    ensures Distinct(q[1..]) && |q[1..]| == |q| - 1
    ensures forall i :: 0 <= i < |q| ==> (q[i] in q[1..] <==> i > 0)
    ensures forall id :: id in q[1..] ==> id in q && id != q[0]
  {
    assert forall i :: 1 <= i < |q| ==> q[1..][i - 1] == q[i];
  }

  lemma FirstFeasible(h: Hypothesis, s: Network, q: seq<InstanceId>, k1: Key, a: Address)
    requires NodesOf(s, q) && k1.ballot.instanceId == q[0] && Ready(s, q[0], k1)
    requires forall n :: n in s.nodes ==> k1.typeName !in s.nodes[n].proposals
    ensures Feasible(h, s, EveryoneElse(q, k1, a)) && Picked(Reports(s, EveryoneElse(q, k1, a)), a) == a
  {
    var x := EveryoneElse(q, k1, a);
    TailMembers(q);
    forall id | id in x.promisers
      ensures WillPromise(h, s, k1, id) && Reported(s.nodes[id], k1.typeName).multicastIp == None
    {
      assert id in Members(q);
    }
    PicksDraw(s, x);
  }

  /** The first attempt decided; its proposer has no record yet, all others are at its ballot. */
  ghost predicate FirstDecided(m: Network, q: seq<InstanceId>, k1: Key, k2: Key, a: Address) {
    && NodesOf(m, q) && k2.typeName == k1.typeName && k1 != k2
    && k1.ballot.instanceId == q[0] && k2.ballot.instanceId == q[1]
    && Undecided(m, k1, a, false) && Ready(m, q[1], k2)
    && k1.typeName !in m.nodes[q[0]].proposals
    && forall i :: 1 <= i < |q| ==> Keeps(m, q[i], k1.typeName, Record(k1.ballot, None))
  }

  lemma FirstDecidedRecords(s: Network, m: Network, q: seq<InstanceId>, k1: Key, a: Address)
    requires NodesOf(s, q) && k1.ballot.instanceId == q[0] && Decided(s, m, EveryoneElse(q, k1, a), a)
    requires forall n :: n in s.nodes ==> k1.typeName !in s.nodes[n].proposals
    ensures NodesOf(m, q) && k1.typeName !in m.nodes[q[0]].proposals
    ensures forall i :: 1 <= i < |q| ==> Keeps(m, q[i], k1.typeName, Record(k1.ballot, None))
  {
    var x := EveryoneElse(q, k1, a);
    TailMembers(q);
    DecidedNodes(s, m, q, x, a);
    forall i | 0 <= i < |q|
      ensures i == 0 ==> k1.typeName !in m.nodes[q[0]].proposals
      ensures i > 0 ==> Keeps(m, q[i], k1.typeName, Record(k1.ballot, None))
    {
      assert q[i] in Members(q);
      DecidedAt(s, m, x, a, q[i]);
    }
  }

  lemma FirstDecides(h: Hypothesis, ids: set<InstanceId>, s: Network, q: seq<InstanceId>, k1: Key, k2: Key, a: Address)
    returns (m: Network)
    requires Reachable(h, ids, s) && Begun(s, q, k1, k2)
    ensures Reachable(h, ids, m) && FirstDecided(m, q, k1, k2, a)
  {
    BegunNodes(s, q, k1, k2);
    FirstFeasible(h, s, q, k1, a);
    m := Decide(h, ids, s, EveryoneElse(q, k1, a));
    DecidedElsewhere(s, m, EveryoneElse(q, k1, a), a);
    FirstDecidedRecords(s, m, q, k1, a);
  }

  // The promises to the second attempt come from the first proposer and from `q[half + 1..]`.

  function Half(q: seq<InstanceId>): nat {
    |q| / 2
  }

  function LateHalf(q: seq<InstanceId>, key: Key, draw: Address): Plan
    requires |q| >= 2
  {
    var vs := [q[0]] + q[Half(q) + 1..];
    Plan(key, draw, vs, vs, [], [])
  }

  function LateRecords(q: seq<InstanceId>, k1: Key, k2: Key): seq<Record> {
    seq(|q|, i requires 0 <= i < |q| => Record(if 1 <= i <= Half(q) then k1.ballot else k2.ballot, None))
  }

  lemma LateMembers(q: seq<InstanceId>, key: Key, draw: Address)
    requires |q| >= 2 && Distinct(q)
    ensures var vs := LateHalf(q, key, draw).promisers;
            && Distinct(vs) && 2 * |vs| >= |q|
            && forall i :: 0 <= i < |q| ==> (q[i] in vs <==> i == 0 || i > Half(q))
    ensures forall id :: id in LateHalf(q, key, draw).promisers ==> id in q
  {
    var vs, half := LateHalf(q, key, draw).promisers, Half(q);
    assert forall j :: 1 <= j < |vs| ==> vs[j] == q[half + j];
    assert forall i :: half < i < |q| ==> q[i] == vs[i - half];
  }

  lemma SecondFeasible(h: Hypothesis, m: Network, q: seq<InstanceId>, k1: Key, k2: Key, a: Address, b: Address)
    requires FirstDecided(m, q, k1, k2, a) && ProposalIsNewer(k1.ballot, k2.ballot)
    ensures Feasible(h, m, LateHalf(q, k2, b)) && Picked(Reports(m, LateHalf(q, k2, b)), b) == b
  {
    var x := LateHalf(q, k2, b);
    LateMembers(q, k2, b);
    forall id | id in x.promisers
      ensures WillPromise(h, m, k2, id) && Reported(m.nodes[id], k2.typeName).multicastIp == None
    {
      var i :| 0 <= i < |q| && q[i] == id;
      assert q[i] in Members(q);
      assert i > 0 ==> Keeps(m, q[i], k1.typeName, Record(k1.ballot, None));
    }
    assert Keeps(m, q[1], k1.typeName, Record(k1.ballot, None));
    PicksDraw(m, x);
  }

  /** Both attempts decided on their own draw, and neither announced it. */
  ghost predicate BothDecided(m: Network, q: seq<InstanceId>, k1: Key, k2: Key, a: Address, b: Address) {
    && NodesOf(m, q) && k2.typeName == k1.typeName && k1 != k2
    && k1.ballot.instanceId == q[0] && k2.ballot.instanceId == q[1]
    && Undecided(m, k1, a, false) && Undecided(m, k2, b, false)
    && Envelope(q[1], Preparation(k2)) in m.sent
    && Records(m, q, k1.typeName, LateRecords(q, k1, k2))
  }

  lemma BothDecidedRecords(m: Network, c: Network, q: seq<InstanceId>, k1: Key, k2: Key, b: Address)
    requires NodesOf(m, q) && k2.ballot.instanceId == q[1] && k2.typeName == k1.typeName
    requires ProposalIsNewer(k1.ballot, k2.ballot) && k1.typeName !in m.nodes[q[0]].proposals
    requires forall i :: 1 <= i < |q| ==> Keeps(m, q[i], k1.typeName, Record(k1.ballot, None))
    requires Decided(m, c, LateHalf(q, k2, b), b)
    ensures NodesOf(c, q) && Records(c, q, k1.typeName, LateRecords(q, k1, k2))
  {
    var x := LateHalf(q, k2, b);
    LateMembers(q, k2, b);
    DecidedNodes(m, c, q, x, b);
    forall i | 0 <= i < |q| ensures Keeps(c, q[i], k1.typeName, LateRecords(q, k1, k2)[i]) {
      assert q[i] in Members(q);
      assert i > 0 ==> Keeps(m, q[i], k1.typeName, Record(k1.ballot, None));
      DecidedAt(m, c, x, b, q[i]);
    }
  }

  lemma SecondDecides(h: Hypothesis, ids: set<InstanceId>, m: Network, q: seq<InstanceId>, k1: Key, k2: Key,
                      a: Address, b: Address)
    returns (c: Network)
    requires Reachable(h, ids, m) && FirstDecided(m, q, k1, k2, a) && ProposalIsNewer(k1.ballot, k2.ballot)
    ensures Reachable(h, ids, c) && BothDecided(c, q, k1, k2, a, b)
  {
    SecondFeasible(h, m, q, k1, k2, a, b);
    c := Decide(h, ids, m, LateHalf(q, k2, b));
    DecidedElsewhere(m, c, LateHalf(q, k2, b), b);
    BothDecidedRecords(m, c, q, k1, k2, b);
  }

  // The first proposer overwrites its newer record; it and `q[1..half + 1]` approve, a strict majority.

  /** All of the first half hold `a` at the older ballot, the others promised the newer one. */
  function SplitRecords(q: seq<InstanceId>, k1: Key, k2: Key, a: Address): seq<Record> {
    seq(|q|, i requires 0 <= i < |q| => if i <= Half(q) then Record(k1.ballot, Some(a)) else Record(k2.ballot, None))
  }

  lemma SplitFromLate(q: seq<InstanceId>, k1: Key, k2: Key, a: Address)
    requires Distinct(q) && |q| >= 2
    ensures var rs, vs := LateRecords(q, k1, k2), q[..Half(q) + 1];
            && Changed(q, rs, vs, k1, Some(a)) == SplitRecords(q, k1, k2, a)
            && Distinct(vs) && q[0] in vs && (forall id :: id in vs ==> id in q)
            && forall i :: 0 <= i < |q| && i != 0 && q[i] in vs ==> rs[i].ballot == k1.ballot
  {
    FirstHalfIndices(q);
  }

  lemma FirstApproved(ids: set<InstanceId>, s: Network, q: seq<InstanceId>, k1: Key, k2: Key, a: Address)
    returns (s': Network)
    requires Reachable(Contended, ids, s) && NodesOf(s, q) && k1.ballot.instanceId == q[0] && Undecided(s, k1, a, false)
    requires Records(s, q, k1.typeName, LateRecords(q, k1, k2))
    ensures Reachable(Contended, ids, s') && NodesOf(s', q) && Elsewhere(s, s', k1) && Undecided(s', k1, a, true)
    ensures Records(s', q, k1.typeName, SplitRecords(q, k1, k2, a))
    ensures forall id :: id in q[..Half(q) + 1] ==> Envelope(id, Approval(k1, a)) in s'.sent
  {
    SplitFromLate(q, k1, k2, a);
    s' := Propose(Contended, ids, s, q, LateRecords(q, k1, k2), 0, k1, a, q[..Half(q) + 1]);
  }

  // Its approvers promise the newer ballot late, and then everyone approves that one.

  function RestOfFirstHalf(q: seq<InstanceId>): seq<InstanceId>
    requires |q| >= 2
  {
    Without(q[..Half(q) + 1], 1)
  }

  lemma RestMembers(q: seq<InstanceId>)
    requires Distinct(q) && |q| >= 2
    ensures Distinct(RestOfFirstHalf(q))
    ensures forall i :: 0 <= i < |q| ==> (q[i] in RestOfFirstHalf(q) <==> i <= Half(q) && i != 1)
    ensures forall id :: id in RestOfFirstHalf(q) ==> id in q && id != q[1]
  {
    FirstHalfIndices(q);
    WithoutContents(q[..Half(q) + 1], 1);
  }

  /** A node that approved its record's address has accepted it there. */
  lemma HalfAccepts(s: Network, q: seq<InstanceId>, k1: Key, a: Address, id: InstanceId)
    requires k1 in s.log.decisions && s.log.decisions[k1].address == a && Envelope(id, Approval(k1, a)) in s.sent
    ensures Accepted(s, id, Key(k1.typeName, k1.ballot))
  {
  }

  lemma RestIsOlder(q: seq<InstanceId>, k1: Key, k2: Key, a: Address)
    requires Distinct(q) && |q| >= 2 && ProposalIsNewer(k1.ballot, k2.ballot)
    ensures var rs, vs := SplitRecords(q, k1, k2, a), RestOfFirstHalf(q);
            && (forall i :: 0 <= i < |q| && q[i] in vs ==> i <= Half(q) && rs[i] == Record(k1.ballot, Some(a)))
            && (forall i :: 0 <= i < |q| && i != 1 ==> Changed(q, rs, vs, k2, None)[i].ballot == k2.ballot)
  {
    RestMembers(q);
  }

  lemma LatePromises(ids: set<InstanceId>, s: Network, q: seq<InstanceId>, k1: Key, k2: Key, a: Address)
    returns (m: Network, rs: seq<Record>)
    requires Reachable(Contended, ids, s) && NodesOf(s, q) && Records(s, q, k1.typeName, SplitRecords(q, k1, k2, a))
    requires k2.typeName == k1.typeName && k2.ballot.instanceId == q[1] && ProposalIsNewer(k1.ballot, k2.ballot)
    requires Envelope(q[1], Preparation(k2)) in s.sent && k1 in s.log.decisions && s.log.decisions[k1].address == a
    requires forall id :: id in q[..Half(q) + 1] ==> Envelope(id, Approval(k1, a)) in s.sent
    ensures Reachable(Contended, ids, m) && NodesOf(m, q) && s.sent <= m.sent && m.log == s.log
    ensures forall k, x, announced :: Undecided(s, k, x, announced) ==> Undecided(m, k, x, announced)
    ensures Records(m, q, k1.typeName, rs) && forall i :: 0 <= i < |q| && i != 1 ==> rs[i].ballot == k2.ballot
  {
    var vs := RestOfFirstHalf(q);
    RestMembers(q);
    RestIsOlder(q, k1, k2, a);
    FirstHalfIndices(q);
    forall i | 0 <= i < |q| && q[i] in vs ensures Accepted(s, q[i], Key(k1.typeName, k1.ballot)) {
      HalfAccepts(s, q, k1, a, q[i]);
    }
    m := PromiseBy(Contended, ids, s, q, SplitRecords(q, k1, k2, a), k2, vs);
    rs := Changed(q, SplitRecords(q, k1, k2, a), vs, k2, None);
  }

  lemma BothConclude(h: Hypothesis, ids: set<InstanceId>, s: Network, q: seq<InstanceId>, k1: Key, k2: Key,
                     a: Address, b: Address,
                     vs: seq<InstanceId>, ws: seq<InstanceId>)
    returns (s': Network)
    requires Reachable(h, ids, s) && NodesOf(s, q) && k1 != k2 && Undecided(s, k1, a, true) && Undecided(s, k2, b, true)
    requires Distinct(vs) && Distinct(ws) && 2 * |vs| > |q| && 2 * |ws| > |q|
    requires forall id :: id in vs ==> id in s.nodes && Envelope(id, Approval(k1, a)) in s.sent
    requires forall id :: id in ws ==> id in s.nodes && Envelope(id, Approval(k2, b)) in s.sent
    ensures Reachable(h, ids, s') && Disagrees(s', k1, k2, a, b)
  {
    var m := Conclude(h, ids, s, q, k1, a, vs);
    s' := Conclude(h, ids, m, q, k2, b, ws);
    ApprovedByMost(s', vs, k1, a);
    ApprovedByMost(s', ws, k2, b);
  }

  /** From two decisions on, the first of which its proposer announces although it promised the second ballot. */
  lemma BothGoThrough(ids: set<InstanceId>, s: Network, q: seq<InstanceId>, k1: Key, k2: Key, a: Address, b: Address)
    returns (s': Network)
    requires Reachable(Contended, ids, s) && BothDecided(s, q, k1, k2, a, b) && ProposalIsNewer(k1.ballot, k2.ballot)
    ensures Reachable(Contended, ids, s') && Disagrees(s', k1, k2, a, b)
  {
    var c := FirstApproved(ids, s, q, k1, k2, a);
    var m, rs := LatePromises(ids, c, q, k1, k2, a);
    var w := Propose(Contended, ids, m, q, rs, 1, k2, b, q);
    FirstHalfIndices(q);
    InNodes(w, q);
    s' := BothConclude(Contended, ids, w, q, k1, k2, a, b, q[..Half(q) + 1], q);
  }

  /**
   * Contention: on any two nodes or more, two proposers can have two addresses chosen and returned for
   * one type because the first announces its proposal after it promised the second a newer ballot. No
   * promise dangles, all picks are honest, and peers, promises, approvals and ballots are right.
   */
  lemma ContentionDisagrees(ids: set<InstanceId>, t: TypeName, a: Address, b: Address)
    returns (s: Network, k1: Key, k2: Key)
    requires |ids| >= 2
    ensures Reachable(Contended, ids, s) && k1.typeName == k2.typeName == t && k1 != k2 && Disagrees(s, k1, k2, a, b)
  {
    var init, q;
    init, q, k1, k2 := BothBegin(Contended, ids, t);
    var m := FirstDecides(Contended, ids, init, q, k1, k2, a);
    var c := SecondDecides(Contended, ids, m, q, k1, k2, a, b);
    s := BothGoThrough(ids, c, q, k1, k2, a, b);
  }

  lemma InNodes(s: Network, q: seq<InstanceId>)
    requires NodesOf(s, q)
    ensures forall id :: id in q ==> id in s.nodes
  {
    forall id | id in q ensures id in s.nodes {
      assert id in Members(q);
    }
  }

  // ----- Promises to an attempt that timed out are counted toward the next one of the same proposer

  const NOTHING_YET := Record(Ballot(0, 0), None)

  function StalePromise(key: Key): PromiseMessage {
    Promise(key, NOTHING_YET.ballot, None)
  }

  /**
   * The first attempt was promised by everyone else and heard none of it; the promises are still under
   * way, and its proposer has sent the preparation of its next attempt `k3`.
   */
  ghost predicate TimedOut(s: Network, q: seq<InstanceId>, k1: Key, k2: Key, k3: Key) {
    && NodesOf(s, q) && k1.typeName == k2.typeName == k3.typeName
    && k1.ballot.instanceId == k3.ballot.instanceId == q[0] && k2.ballot.instanceId == q[1]
    && Ready(s, q[1], k2) && Ready(s, q[0], k3)
    && k1.typeName !in s.nodes[q[0]].proposals
    && (forall i :: 1 <= i < |q| ==> Keeps(s, q[i], k1.typeName, Record(k1.ballot, None)))
    && (forall i :: 1 <= i < |q| ==> Envelope(q[i], StalePromise(k1)) in s.sent)
  }

  lemma FreshPromise(s: Network, key: Key, vs: seq<InstanceId>, id: InstanceId)
    requires id in vs && id in s.nodes && key.typeName !in s.nodes[id].proposals
    requires s.nodes[id].id == id != key.ballot.instanceId
    ensures Keeps(PrepareAll(s, key, vs), id, key.typeName, Record(key.ballot, None))
    ensures Envelope(id, StalePromise(key)) in PrepareAll(s, key, vs).sent
  {
    assert PromiseOf(s, id, key) == StalePromise(key);
  }

  /** Everyone else promised the first attempt. */
  ghost predicate Unheard(m: Network, q: seq<InstanceId>, k1: Key) {
    && NodesOf(m, q) && k1.ballot.instanceId == q[0]
    && k1.typeName !in m.nodes[q[0]].proposals
    && (forall i :: 1 <= i < |q| ==> Keeps(m, q[i], k1.typeName, Record(k1.ballot, None)))
    && (forall i :: 1 <= i < |q| ==> Envelope(q[i], StalePromise(k1)) in m.sent)
  }

  lemma UnheardFacts(s: Network, q: seq<InstanceId>, k1: Key)
    requires NodesOf(s, q) && k1.ballot.instanceId == q[0]
    requires forall n :: n in s.nodes ==> k1.typeName !in s.nodes[n].proposals
    ensures Unheard(PrepareAll(s, k1, q[1..]), q, k1)
  {
    var m := PrepareAll(s, k1, q[1..]);
    SizeKept(s, m);
    TailMembers(q);
    InNodes(s, q);
    forall i | 1 <= i < |q|
      ensures Keeps(m, q[i], k1.typeName, Record(k1.ballot, None)) && Envelope(q[i], StalePromise(k1)) in m.sent
    {
      FreshPromise(s, k1, q[1..], q[i]);
    }
  }

  lemma EveryoneElsePromises(h: Hypothesis, ids: set<InstanceId>, s: Network, q: seq<InstanceId>, k1: Key)
    returns (m: Network)
    requires Reachable(h, ids, s) && NodesOf(s, q) && k1.ballot.instanceId == q[0]
    requires Envelope(q[0], Preparation(k1)) in s.sent
    requires forall n :: n in s.nodes ==> k1.typeName !in s.nodes[n].proposals
    ensures Reachable(h, ids, m) && m == PrepareAll(s, k1, q[1..])
  {
    TailMembers(q);
    InNodes(s, q);
    m := PrepareAll(s, k1, q[1..]);
    PrepareRun(h, s, k1, q[1..]);
    ReachFurther(h, ids, s, PrepareEvents(k1, q[1..]), m);
  }

  /** A wait that heard too few promises ends without a decision. */
  lemma TimeOut(h: Hypothesis, ids: set<InstanceId>, s: Network, p: InstanceId, key: Key) returns (m: Network)
    requires Reachable(h, ids, s) && Ready(s, p, key) && |s.nodes| >= 1
    ensures Reachable(h, ids, m)
    ensures m == DoClosePromises(s, p, key, None) && m.sent == s.sent && m.log == s.log.(closed := s.log.closed + {key})
    ensures m.nodes == s.nodes[p := TakePromises(s.nodes[p], key.typeName)]
    ensures Idle(m, p, key.typeName)
    ensures forall n, k :: k != key && Ready(s, n, k) ==> Ready(m, n, k)
    ensures forall k :: k != key && Unused(s, k) ==> Unused(m, k)
  {
    m := DoClosePromises(s, p, key, None);
    TimeOutLeads(h, s, p, key);
    SizeKept(s, m);
    RunOne(h, s, ClosePromises(p, key, None), m);
    ReachFurther(h, ids, s, [ClosePromises(p, key, None)], m);
  }

  lemma TimeOutLeads(h: Hypothesis, s: Network, p: InstanceId, key: Key)
    requires Ready(s, p, key) && |s.nodes| >= 1
    ensures Leads(h, s, ClosePromises(p, key, None), DoClosePromises(s, p, key, None))
  {
  }

  lemma FirstTimesOut(ids: set<InstanceId>, s: Network, q: seq<InstanceId>, k1: Key, k2: Key, k3: Key)
    returns (s': Network)
    requires Reachable(Miscounted, ids, s) && Begun(s, q, k1, k2) && Unused(s, k3)
    requires k3.typeName == k1.typeName && k3.ballot.instanceId == q[0] && k3 != k1 && k3 != k2
    ensures Reachable(Miscounted, ids, s') && TimedOut(s', q, k1, k2, k3)
  {
    BegunNodes(s, q, k1, k2);
    var m := EveryoneElsePromises(Miscounted, ids, s, q, k1);
    UnheardFacts(s, q, k1);
    PromisedReady(s, k1, q[1..]);
    var c := TimeOut(Miscounted, ids, m, q[0], k1);
    UnheardAfter(m, c, q, k1);
    s' := BeginOne(Miscounted, ids, c, k3);
    UnheardAfter(c, s', q, k1);
  }

  lemma UnheardAfter(m: Network, c: Network, q: seq<InstanceId>, k1: Key)
    requires Unheard(m, q, k1) && m.sent <= c.sent
    requires c.nodes == m.nodes || c.nodes == m.nodes[q[0] := TakePromises(m.nodes[q[0]], k1.typeName)]
    ensures Unheard(c, q, k1)
  {
    SizeKept(m, c);
    forall i | 1 <= i < |q| ensures Keeps(c, q[i], k1.typeName, Record(k1.ballot, None)) {
      assert Keeps(m, q[i], k1.typeName, Record(k1.ballot, None));
    }
  }

  function WholePlan(q: seq<InstanceId>, key: Key, draw: Address): Plan
    requires |q| >= 2
  {
    Plan(key, draw, Without(q, 1), Without(q, 1), q, q)
  }

  lemma WholePromises(h: Hypothesis, s: Network, q: seq<InstanceId>, k1: Key, k2: Key)
    requires Unheard(s, q, k1) && k2.typeName == k1.typeName && k2.ballot.instanceId == q[1]
    requires ProposalIsNewer(k1.ballot, k2.ballot)
    ensures forall id :: id in Without(q, 1) ==>
                WillPromise(h, s, k2, id) && Reported(s.nodes[id], k2.typeName).multicastIp == None
    ensures k2.typeName in s.nodes[q[1]].proposals && AtMost(s.nodes[q[1]].proposals[k2.typeName].ballot, k2.ballot)
  {
    WithoutContents(q, 1);
    InNodes(s, q);
    forall id | id in Without(q, 1)
      ensures WillPromise(h, s, k2, id) && Reported(s.nodes[id], k2.typeName).multicastIp == None
    {
      var i :| 0 <= i < |q| && q[i] == id;
      assert i > 0 ==> Keeps(s, q[i], k1.typeName, Record(k1.ballot, None));
    }
    assert Keeps(s, q[1], k1.typeName, Record(k1.ballot, None));
  }

  lemma WholeFeasible(h: Hypothesis, s: Network, q: seq<InstanceId>, k1: Key, k2: Key, b: Address)
    requires Unheard(s, q, k1) && k2.typeName == k1.typeName && k2.ballot.instanceId == q[1] && Ready(s, q[1], k2)
    requires ProposalIsNewer(k1.ballot, k2.ballot)
    ensures Feasible(h, s, WholePlan(q, k2, b)) && Picked(Reports(s, WholePlan(q, k2, b)), b) == b
  {
    WholePromises(h, s, q, k1, k2);
    WithoutContents(q, 1);
    InNodes(s, q);
    PicksDraw(s, WholePlan(q, k2, b));
  }

  function AllHold(q: seq<InstanceId>, key: Key, a: Address): seq<Record> {
    seq(|q|, i requires 0 <= i < |q| => Record(key.ballot, Some(a)))
  }

  /** The second attempt went through: everyone approved it and holds its address. */
  ghost predicate SecondThrough(s: Network, q: seq<InstanceId>, k2: Key, b: Address) {
    && NodesOf(s, q)
    && Records(s, q, k2.typeName, AllHold(q, k2, b))
    && k2 in s.log.decisions && s.log.decisions[k2].address == b
    && k2 in s.log.returned && s.log.returned[k2] == b
    && forall id :: id in q ==> Envelope(id, Approval(k2, b)) in s.sent
  }

  lemma SecondThroughFacts(s: Network, s': Network, q: seq<InstanceId>, k2: Key, b: Address)
    requires NodesOf(s, q) && AttemptOver(s, s', WholePlan(q, k2, b), b)
    ensures SecondThrough(s', q, k2, b)
  {
    SizeKept(s, s');
    InNodes(s, q);
    forall i | 0 <= i < |q| ensures Keeps(s', q[i], k2.typeName, Record(k2.ballot, Some(b))) {
      assert q[i] in q;
      assert s'.nodes[q[i]].proposals == RecordsAfter(s, WholePlan(q, k2, b), b, q[i]);
    }
  }

  lemma SecondGoesThrough(ids: set<InstanceId>, s: Network, q: seq<InstanceId>, k1: Key, k2: Key, k3: Key, b: Address)
    returns (s': Network)
    requires Reachable(Miscounted, ids, s) && TimedOut(s, q, k1, k2, k3) && ProposalIsNewer(k1.ballot, k2.ballot)
    requires k3 != k2
    ensures Reachable(Miscounted, ids, s') && SecondThrough(s', q, k2, b) && Ready(s', q[0], k3) && s.sent <= s'.sent
  {
    WholeFeasible(Miscounted, s, q, k1, k2, b);
    s' := AttemptReaches(Miscounted, ids, s, WholePlan(q, k2, b));
    SecondThroughFacts(s, s', q, k2, b);
  }

  /** The proposer of `key` has heard `ms`, from `ids`, and nothing else changed. */
  ghost predicate HasHeard(s: Network, m: Network, q: seq<InstanceId>, key: Key, ids: seq<InstanceId>,
                           ms: seq<PromiseMessage>) {
    var p := key.ballot.instanceId;
    && p in s.nodes && p in m.nodes
    && NodesOf(m, q) && m.sent == s.sent && m.log == s.log && m.books.counted == s.books.counted
    && PromisesFor(m.nodes[p], key.typeName) == ms && PromisersOf(m, p, key.typeName) == ids
    && RejectionsFor(m.nodes[p], key.typeName) == 0 && m.nodes[p].approvals == s.nodes[p].approvals
    && forall n :: n in m.nodes ==> n in s.nodes && m.nodes[n].proposals == s.nodes[n].proposals
  }

  lemma HearShows(s: Network, q: seq<InstanceId>, key: Key, ids: seq<InstanceId>, ms: seq<PromiseMessage>)
    requires NodesOf(s, q) && Ready(s, key.ballot.instanceId, key) && |ms| == |ids| > 0
    ensures HasHeard(s, HearAll(s, key.ballot.instanceId, key.typeName, ids, ms), q, key, ids, ms)
  {
    SizeKept(s, HearAll(s, key.ballot.instanceId, key.typeName, ids, ms));
  }

  /** Promises that answered an earlier ballot `k` of the proposer, or this one, are heard. */
  lemma Hear(h: Hypothesis, reached: set<InstanceId>, s: Network, q: seq<InstanceId>, k: Key, key: Key,
             ids: seq<InstanceId>, ms: seq<PromiseMessage>)
    returns (m: Network)
    requires Reachable(h, reached, s) && NodesOf(s, q) && Ready(s, key.ballot.instanceId, key)
    requires k.typeName == key.typeName && k.ballot.instanceId == key.ballot.instanceId
    requires |ms| == |ids| > 0
    requires forall i :: 0 <= i < |ms| ==> ms[i].key == k && Envelope(ids[i], ms[i]) in s.sent
    ensures Reachable(h, reached, m) && HasHeard(s, m, q, key, ids, ms)
  {
    var p := key.ballot.instanceId;
    m := HearAll(s, p, key.typeName, ids, ms);
    HearRun(h, s, p, k, ids, ms);
    HearShows(s, q, key, ids, ms);
    ReachFurther(h, reached, s, HearEvents(p, ids, ms), m);
  }

  /** The stale promises are counted toward the third attempt, which therefore decides on its own draw. */
  lemma StaleCounted(s: Network, m: Network, q: seq<InstanceId>, k3: Key, ms: seq<PromiseMessage>, a: Address)
    requires |q| >= 2 && Ready(s, q[0], k3) && HasHeard(s, m, q, k3, q[1..], ms)
    requires forall r :: r in ms ==> r.multicastIp == None
    ensures Leads(Miscounted, m, ClosePromises(q[0], k3, Some(a)), DoClosePromises(m, q[0], k3, Some(a)))
  {
    TailMembers(q);
    WithDataNone(ms);
  }

  /** What ending the wait leaves alone. */
  lemma HeardDecides(s: Network, m: Network, q: seq<InstanceId>, key: Key, ids: seq<InstanceId>,
                     ms: seq<PromiseMessage>, a: Address)
    requires Ready(s, key.ballot.instanceId, key) && HasHeard(s, m, q, key, ids, ms)
    requires 2 * |ms| >= |q| && forall r :: r in ms ==> r.multicastIp == None
    ensures var c := DoClosePromises(m, key.ballot.instanceId, key, Some(a));
            && NodesOf(c, q) && Undecided(c, key, a, false) && c.sent == s.sent
            && (forall k :: k in s.log.decisions ==> k in c.log.decisions && c.log.decisions[k] == s.log.decisions[k])
            && c.log.returned == s.log.returned
            && forall n :: n in c.nodes ==> n in s.nodes && c.nodes[n].proposals == s.nodes[n].proposals
  {
    var p := key.ballot.instanceId;
    WithDataNone(ms);
    CloseDecides(m, p, key, a);
    SizeKept(m, DoClosePromises(m, p, key, Some(a)));
  }

  lemma SameRecords(s: Network, c: Network, q: seq<InstanceId>, t: TypeName, rs: seq<Record>)
    requires Records(s, q, t, rs) && c.nodes.Keys == s.nodes.Keys
    requires forall n :: n in c.nodes ==> n in s.nodes && c.nodes[n].proposals == s.nodes[n].proposals
    ensures Records(c, q, t, rs)
  {
    forall i | 0 <= i < |q| ensures Keeps(c, q[i], t, rs[i]) {
      assert Keeps(s, q[i], t, rs[i]);
    }
  }

  /** The attempt decides on its own draw, and no record changes. */
  lemma DecidesOnDraw(h: Hypothesis, ids: set<InstanceId>, s: Network, m: Network, q: seq<InstanceId>, rs: seq<Record>,
                      key: Key, from: seq<InstanceId>, ms: seq<PromiseMessage>, a: Address)
    returns (c: Network)
    requires Reachable(h, ids, m) && Ready(s, key.ballot.instanceId, key) && HasHeard(s, m, q, key, from, ms)
    requires Records(s, q, key.typeName, rs) && s.nodes.Keys == m.nodes.Keys
    requires 2 * |ms| >= |q| && forall r :: r in ms ==> r.multicastIp == None
    requires var p := key.ballot.instanceId;
             Leads(h, m, ClosePromises(p, key, Some(a)), DoClosePromises(m, p, key, Some(a)))
    ensures Reachable(h, ids, c) && NodesOf(c, q) && Records(c, q, key.typeName, rs) && Undecided(c, key, a, false)
    ensures forall k :: k in s.log.decisions ==> k in c.log.decisions && c.log.decisions[k] == s.log.decisions[k]
    ensures c.sent == s.sent && c.log.returned == s.log.returned
  {
    var p := key.ballot.instanceId;
    c := DoClosePromises(m, p, key, Some(a));
    RunOne(h, m, ClosePromises(p, key, Some(a)), c);
    ReachFurther(h, ids, m, [ClosePromises(p, key, Some(a))], c);
    HeardDecides(s, m, q, key, from, ms, a);
    SameRecords(s, c, q, key.typeName, rs);
  }

  lemma HearStale(ids: set<InstanceId>, s: Network, q: seq<InstanceId>, k1: Key, k3: Key)
    returns (m: Network, ms: seq<PromiseMessage>)
    requires Reachable(Miscounted, ids, s) && NodesOf(s, q) && Ready(s, q[0], k3)
    requires k1.typeName == k3.typeName && k1.ballot.instanceId == q[0]
    requires forall i :: 1 <= i < |q| ==> Envelope(q[i], StalePromise(k1)) in s.sent
    ensures Reachable(Miscounted, ids, m) && HasHeard(s, m, q, k3, q[1..], ms) && m.nodes.Keys == s.nodes.Keys
    ensures 2 * |ms| >= |q| && forall r :: r in ms ==> r.multicastIp == None
  {
    ms := seq<PromiseMessage>(|q| - 1, i requires 0 <= i < |q| - 1 => StalePromise(k1));
    forall i | 0 <= i < |ms| ensures ms[i].key == k1 && Envelope(q[1..][i], ms[i]) in s.sent {
      assert q[1..][i] == q[i + 1];
    }
    m := Hear(Miscounted, ids, s, q, k1, k3, q[1..], ms);
  }

  lemma ThirdDecides(ids: set<InstanceId>, s: Network, q: seq<InstanceId>, rs: seq<Record>, k1: Key, k3: Key,
                     a: Address) returns (c: Network)
    requires Reachable(Miscounted, ids, s) && NodesOf(s, q) && Ready(s, q[0], k3) && Records(s, q, k3.typeName, rs)
    requires k1.typeName == k3.typeName && k1.ballot.instanceId == q[0]
    requires forall i :: 1 <= i < |q| ==> Envelope(q[i], StalePromise(k1)) in s.sent
    ensures Reachable(Miscounted, ids, c) && NodesOf(c, q) && Records(c, q, k3.typeName, rs)
    ensures Undecided(c, k3, a, false)
    ensures forall k :: k in s.log.decisions ==> k in c.log.decisions && c.log.decisions[k] == s.log.decisions[k]
    ensures c.sent == s.sent && c.log.returned == s.log.returned
  {
    var m, ms := HearStale(ids, s, q, k1, k3);
    StaleCounted(s, m, q, k3, ms, a);
    c := DecidesOnDraw(Miscounted, ids, s, m, q, rs, k3, q[1..], ms, a);
  }

  lemma SecondAccepted(s: Network, q: seq<InstanceId>, k2: Key, b: Address)
    requires SecondThrough(s, q, k2, b)
    ensures forall i :: 0 <= i < |q| ==> Accepted(s, q[i], Key(k2.typeName, AllHold(q, k2, b)[i].ballot))
  {
    forall i | 0 <= i < |q| ensures Accepted(s, q[i], Key(k2.typeName, AllHold(q, k2, b)[i].ballot)) {
      HalfAccepts(s, q, k2, b, q[i]);
    }
  }

  lemma PromisedTail(q: seq<InstanceId>, k2: Key, k3: Key, b: Address)
    requires Distinct(q) && |q| >= 2 && ProposalIsNewer(k2.ballot, k3.ballot)
    ensures var rs := Changed(q, AllHold(q, k2, b), q[1..], k3, None);
            AtMost(rs[0].ballot, k3.ballot) && forall i :: 1 <= i < |q| ==> rs[i].ballot == k3.ballot
  {
    TailMembers(q);
  }

  /** Everyone else promises the third attempt, too late to be heard. */
  lemma ThirdPromised(ids: set<InstanceId>, s: Network, q: seq<InstanceId>, k2: Key, k3: Key, b: Address)
    returns (m: Network, rs: seq<Record>)
    requires Reachable(Miscounted, ids, s) && SecondThrough(s, q, k2, b) && Ready(s, q[0], k3)
    requires k2.typeName == k3.typeName && ProposalIsNewer(k2.ballot, k3.ballot)
    ensures Reachable(Miscounted, ids, m) && NodesOf(m, q) && Ready(m, q[0], k3) && s.sent <= m.sent && m.log == s.log
    ensures Records(m, q, k3.typeName, rs) && AtMost(rs[0].ballot, k3.ballot)
    ensures forall i :: 1 <= i < |q| ==> rs[i].ballot == k3.ballot
  {
    TailMembers(q);
    SecondAccepted(s, q, k2, b);
    PromisedTail(q, k2, k3, b);
    m := PromiseBy(Miscounted, ids, s, q, AllHold(q, k2, b), k3, q[1..]);
    rs := Changed(q, AllHold(q, k2, b), q[1..], k3, None);
  }

  /** The third attempt, on promises made to the first. */
  lemma ThirdGoesThrough(ids: set<InstanceId>, m: Network, q: seq<InstanceId>, rs: seq<Record>, k1: Key, k3: Key,
                         a: Address)
    returns (s': Network)
    requires Reachable(Miscounted, ids, m) && NodesOf(m, q) && Ready(m, q[0], k3) && Records(m, q, k3.typeName, rs)
    requires AtMost(rs[0].ballot, k3.ballot) && forall i :: 1 <= i < |q| ==> rs[i].ballot == k3.ballot
    requires k1.typeName == k3.typeName && k1.ballot.instanceId == q[0]
    requires forall i :: 1 <= i < |q| ==> Envelope(q[i], StalePromise(k1)) in m.sent
    ensures Reachable(Miscounted, ids, s') && Through(m, s', q, k3, a)
  {
    var c := ThirdDecides(ids, m, q, rs, k1, k3, a);
    var w := Propose(Miscounted, ids, c, q, rs, 0, k3, a, q);
    s' := Conclude(Miscounted, ids, w, q, k3, a, q);
  }

  /** From `m` on, everyone approved the attempt and its address was returned; nothing was taken back. */
  ghost predicate Through(m: Network, s': Network, q: seq<InstanceId>, key: Key, a: Address) {
    && NodesOf(s', q) && m.sent <= s'.sent
    && (forall k :: k in m.log.decisions ==> k in s'.log.decisions && s'.log.decisions[k] == m.log.decisions[k])
    && (forall k :: k in m.log.returned && k != key ==> k in s'.log.returned && s'.log.returned[k] == m.log.returned[k])
    && key in s'.log.decisions && s'.log.decisions[key].address == a
    && key in s'.log.returned && s'.log.returned[key] == a
    && forall id :: id in q ==> Envelope(id, Approval(key, a)) in s'.sent
  }

  lemma BothThrough(s: Network, m: Network, s': Network, q: seq<InstanceId>, k2: Key, k3: Key, a: Address, b: Address)
    requires SecondThrough(s, q, k2, b) && s.sent <= m.sent && m.log == s.log && Through(m, s', q, k3, a) && k2 != k3
    ensures Disagrees(s', k2, k3, b, a)
  {
    InNodes(s', q);
    ApprovedByMost(s', q, k2, b);
    ApprovedByMost(s', q, k3, a);
  }

  /**
   * Miscounting: on any two nodes or more, two addresses can be chosen and returned for one type because
   * promises that were sent to a proposer's timed-out attempt are counted toward its next one.
   */
  lemma MiscountDisagrees(ids: set<InstanceId>, t: TypeName, a: Address, b: Address)
    returns (s: Network, k2: Key, k3: Key)
    requires |ids| >= 2
    ensures Reachable(Miscounted, ids, s) && k2.typeName == k3.typeName == t && k2 != k3 && Disagrees(s, k2, k3, b, a)
  {
    var init, q, k1;
    init, q, k1, k2 := BothBegin(Miscounted, ids, t);
    k3 := Key(t, Ballot(3, q[0]));
    BegunNodes(init, q, k1, k2);
    var m := FirstTimesOut(ids, init, q, k1, k2, k3);
    var c := SecondGoesThrough(ids, m, q, k1, k2, k3, b);
    var w, rs := ThirdPromised(ids, c, q, k2, k3, b);
    s := ThirdGoesThrough(ids, w, q, rs, k1, k3, a);
    BothThrough(c, w, s, q, k2, k3, a, b);
  }
}
