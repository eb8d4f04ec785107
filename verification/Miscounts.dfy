/**
 * What else agreement needs: that a node counts no promise and no approval twice, and that it knows of all its
 * peers. The code guarantees none of it: answers are counted without their sender, a node counts its own
 * approval at once although the one it sends may come back to it, and the number of peers starts at zero and
 * follows heartbeats.
 */
module Miscounts {
  import opened Wrappers
  import opened Ballots
  import opened ConsensusNode
  import opened ConsensusNetwork
  import opened ConsensusInvariants
  import opened Agreement
  import opened Rounds
  import opened Attempts
  import opened Beginnings
  import opened Limits
  import opened Necessity

  // ----- A promise is counted again and again

  /** Everyone but the last of `q` accepts the proposal, although all promised it. */
  function AllButLast(q: seq<InstanceId>, key: Key, draw: Address): Plan
    requires |q| >= 2
  {
    Plan(key, draw, q[1..], q[1..], q[..|q| - 1], q[..|q| - 1])
  }

  function HeldByMost(q: seq<InstanceId>, key: Key, a: Address): seq<Record> {
    seq(|q|, i requires 0 <= i < |q| => Record(key.ballot, if i < |q| - 1 then Some(a) else None))
  }

  lemma InitMembers(q: seq<InstanceId>)
    requires Distinct(q) && |q| >= 2
    ensures Distinct(q[..|q| - 1]) && forall i :: 0 <= i < |q| ==> (q[i] in q[..|q| - 1] <==> i < |q| - 1)
    ensures forall id :: id in q[..|q| - 1] ==> id in q
  {
    assert forall i :: 0 <= i < |q| - 1 ==> q[..|q| - 1][i] == q[i];
  }

  lemma AllButLastFeasible(s: Network, q: seq<InstanceId>, key: Key, a: Address)
    requires NodesOf(s, q) && key.ballot.instanceId == q[0] && Ready(s, q[0], key)
    requires forall n :: n in s.nodes ==> key.typeName !in s.nodes[n].proposals
    ensures Feasible(Repeated, s, AllButLast(q, key, a)) && Picked(Reports(s, AllButLast(q, key, a)), a) == a
  {
    TailMembers(q);
    InitMembers(q);
    InNodes(s, q);
    PicksDraw(s, AllButLast(q, key, a));
  }

  /** The first attempt was approved by all but the last node, which holds no address. */
  ghost predicate MostHold(m: Network, q: seq<InstanceId>, key: Key, a: Address) {
    && NodesOf(m, q) && Records(m, q, key.typeName, HeldByMost(q, key, a))
    && key in m.log.decisions && m.log.decisions[key].address == a
    && key in m.log.returned && m.log.returned[key] == a
    && forall id :: id in q[..|q| - 1] ==> Envelope(id, Approval(key, a)) in m.sent
  }

  lemma MostHoldRecord(s: Network, m: Network, q: seq<InstanceId>, key: Key, a: Address, i: nat)
    requires NodesOf(s, q) && key.ballot.instanceId == q[0] && NodesAfter(s, m, AllButLast(q, key, a), a)
    requires i < |q| && q[i] in s.nodes && key.typeName !in s.nodes[q[i]].proposals
    ensures Keeps(m, q[i], key.typeName, HeldByMost(q, key, a)[i])
  {
    TailMembers(q);
    InitMembers(q);
    assert m.nodes[q[i]].proposals == RecordsAfter(s, AllButLast(q, key, a), a, q[i]);
  }

  lemma FirstHeld(ids: set<InstanceId>, s: Network, q: seq<InstanceId>, k1: Key, k2: Key, a: Address)
    returns (m: Network)
    requires Reachable(Repeated, ids, s) && Begun(s, q, k1, k2)
    ensures Reachable(Repeated, ids, m) && MostHold(m, q, k1, a) && Ready(m, q[1], k2)
  {
    BegunNodes(s, q, k1, k2);
    AllButLastFeasible(s, q, k1, a);
    m := AttemptReaches(Repeated, ids, s, AllButLast(q, k1, a));
    MostHoldShows(s, m, q, k1, a);
  }

  lemma MostHoldShows(s: Network, m: Network, q: seq<InstanceId>, key: Key, a: Address)
    requires NodesOf(s, q) && key.ballot.instanceId == q[0]
    requires forall n :: n in s.nodes ==> key.typeName !in s.nodes[n].proposals
    requires NodesAfter(s, m, AllButLast(q, key, a), a) && LogAfter(s, m, AllButLast(q, key, a), a)
    ensures MostHold(m, q, key, a)
  {
    SizeKept(s, m);
    InNodes(s, q);
    forall i | 0 <= i < |q| ensures Keeps(m, q[i], key.typeName, HeldByMost(q, key, a)[i]) {
      assert q[i] in q;
      MostHoldRecord(s, m, q, key, a, i);
    }
  }

  lemma MostAccepted(m: Network, q: seq<InstanceId>, k1: Key, a: Address, i: nat)
    requires MostHold(m, q, k1, a) && i < |q| - 1
    ensures Accepted(m, q[i], Key(k1.typeName, HeldByMost(q, k1, a)[i].ballot))
  {
    assert q[..|q| - 1][i] == q[i];
    HalfAccepts(m, q, k1, a, q[i]);
  }

  /** All promise the second attempt; only the last node's promise is heard, as often as there are nodes. */
  lemma SecondPromised(ids: set<InstanceId>, m: Network, q: seq<InstanceId>, k1: Key, k2: Key, a: Address)
    returns (c: Network, rs: seq<Record>)
    requires Reachable(Repeated, ids, m) && MostHold(m, q, k1, a) && Ready(m, q[1], k2) && |q| >= 3
    requires k1.typeName == k2.typeName && ProposalIsNewer(k1.ballot, k2.ballot)
    ensures Reachable(Repeated, ids, c) && NodesOf(c, q) && Ready(c, q[1], k2) && m.sent <= c.sent && c.log == m.log
    ensures Records(c, q, k2.typeName, rs) && AtMost(rs[1].ballot, k2.ballot)
    ensures forall i :: 0 <= i < |q| && i != 1 ==> rs[i].ballot == k2.ballot
    ensures Envelope(q[|q| - 1], Promise(k2, k1.ballot, None)) in c.sent
  {
    WithoutContents(q, 1);
    forall i | 0 <= i < |q| - 1 ensures Accepted(m, q[i], Key(k1.typeName, HeldByMost(q, k1, a)[i].ballot)) {
      MostAccepted(m, q, k1, a, i);
    }
    LastReports(m, q, k1, k2, a);
    c := PromiseBy(Repeated, ids, m, q, HeldByMost(q, k1, a), k2, Without(q, 1));
    rs := Changed(q, HeldByMost(q, k1, a), Without(q, 1), k2, None);
    AllPromisedSecond(q, k1, k2, a);
  }

  lemma LastReports(m: Network, q: seq<InstanceId>, k1: Key, k2: Key, a: Address)
    requires MostHold(m, q, k1, a) && k1.typeName == k2.typeName && |q| >= 3
    ensures var last := q[|q| - 1];
            last in Without(q, 1) && last in m.nodes && PromiseOf(m, last, k2) == Promise(k2, k1.ballot, None)
  {
    WithoutContents(q, 1);
    assert Keeps(m, q[|q| - 1], k1.typeName, HeldByMost(q, k1, a)[|q| - 1]);
  }

  lemma AllPromisedSecond(q: seq<InstanceId>, k1: Key, k2: Key, a: Address)
    requires Distinct(q) && |q| >= 3 && ProposalIsNewer(k1.ballot, k2.ballot)
    ensures var rs := Changed(q, HeldByMost(q, k1, a), Without(q, 1), k2, None);
            && AtMost(rs[1].ballot, k2.ballot)
            && forall i :: 0 <= i < |q| && i != 1 ==> rs[i].ballot == k2.ballot
  {
    WithoutContents(q, 1);
  }

  lemma RepeatedCounted(s: Network, m: Network, q: seq<InstanceId>, key: Key, ids: seq<InstanceId>,
                        ms: seq<PromiseMessage>, b: Address)
    requires Ready(s, key.ballot.instanceId, key) && HasHeard(s, m, q, key, ids, ms)
    requires forall r :: r in ms ==> r.multicastIp == None && r.key == key
    ensures var p := key.ballot.instanceId;
            Leads(Repeated, m, ClosePromises(p, key, Some(b)), DoClosePromises(m, p, key, Some(b)))
  {
    WithDataNone(ms);
  }

  lemma SecondDraws(ids: set<InstanceId>, s: Network, q: seq<InstanceId>, rs: seq<Record>, k1: Key, k2: Key, b: Address)
    returns (c: Network)
    requires Reachable(Repeated, ids, s) && NodesOf(s, q) && Ready(s, q[1], k2) && Records(s, q, k2.typeName, rs)
    requires Envelope(q[|q| - 1], Promise(k2, k1.ballot, None)) in s.sent
    ensures Reachable(Repeated, ids, c) && NodesOf(c, q) && Records(c, q, k2.typeName, rs)
    ensures Undecided(c, k2, b, false)
    ensures forall k :: k in s.log.decisions ==> k in c.log.decisions && c.log.decisions[k] == s.log.decisions[k]
    ensures c.sent == s.sent && c.log.returned == s.log.returned
  {
    var heard := seq(|q|, i requires 0 <= i < |q| => q[|q| - 1]);
    var ms := seq<PromiseMessage>(|q|, i requires 0 <= i < |q| => Promise(k2, k1.ballot, None));
    var m := Hear(Repeated, ids, s, q, k2, k2, heard, ms);
    RepeatedCounted(s, m, q, k2, heard, ms, b);
    c := DecidesOnDraw(Repeated, ids, s, m, q, rs, k2, heard, ms, b);
  }

  lemma SecondThroughToo(ids: set<InstanceId>, s: Network, q: seq<InstanceId>, rs: seq<Record>, k1: Key, k2: Key,
                         b: Address)
    returns (s': Network)
    requires Reachable(Repeated, ids, s) && NodesOf(s, q) && Ready(s, q[1], k2) && Records(s, q, k2.typeName, rs)
    requires AtMost(rs[1].ballot, k2.ballot) && forall i :: 0 <= i < |q| && i != 1 ==> rs[i].ballot == k2.ballot
    requires Envelope(q[|q| - 1], Promise(k2, k1.ballot, None)) in s.sent
    ensures Reachable(Repeated, ids, s') && Through(s, s', q, k2, b)
  {
    var c := SecondDraws(ids, s, q, rs, k1, k2, b);
    var w := Propose(Repeated, ids, c, q, rs, 1, k2, b, q);
    s' := Conclude(Repeated, ids, w, q, k2, b, q);
  }

  lemma MostAndAllDisagree(m: Network, c: Network, s: Network, q: seq<InstanceId>, k1: Key, k2: Key,
                           a: Address, b: Address)
    requires MostHold(m, q, k1, a) && |q| >= 3 && k1 != k2
    requires m.sent <= c.sent && m.log == c.log && Through(c, s, q, k2, b)
    ensures Disagrees(s, k1, k2, a, b)
  {
    InNodes(s, q);
    InitMembers(q);
    ApprovedByMost(s, q[..|q| - 1], k1, a);
    ApprovedByMost(s, q, k2, b);
  }

  /**
   * Counting a promise again: on any three nodes or more, two addresses can be chosen and returned for one type,
   * because the promise of the one node that missed the first proposal counts for half of the nodes.
   */
  lemma RepeatDisagrees(ids: set<InstanceId>, t: TypeName, a: Address, b: Address)
    returns (s: Network, k1: Key, k2: Key)
    requires |ids| >= 3
    ensures Reachable(Repeated, ids, s) && k1.typeName == k2.typeName == t && k1 != k2 && Disagrees(s, k1, k2, a, b)
  {
    var init, q;
    init, q, k1, k2 := BothBegin(Repeated, ids, t);
    BegunNodes(init, q, k1, k2);
    var m := FirstHeld(ids, init, q, k1, k2, a);
    var c, rs := SecondPromised(ids, m, q, k1, k2, a);
    s := SecondThroughToo(ids, c, q, rs, k1, k2, b);
    MostAndAllDisagree(m, c, s, q, k1, k2, a, b);
  }

  // ----- An approval is counted again and again

  /** From `s` to `c` node `p` has counted `n` more approvals of its own ballot `key`, and done nothing else. */
  ghost predicate OnlyCounted(s: Network, c: Network, key: Key, n: nat) {
    var p := key.ballot.instanceId;
    && p in s.nodes && p in c.nodes
    && c.nodes == s.nodes[p := s.nodes[p].(approvals := c.nodes[p].approvals)]
    && ApprovalsFor(c.nodes[p], key) == ApprovalsFor(s.nodes[p], key) + n
    && (forall k :: k != key ==> ApprovalsFor(c.nodes[p], k) == ApprovalsFor(s.nodes[p], k))
    && c.sent == s.sent && c.log == s.log
    && c.books == s.books.(counted := c.books.counted)
    && (forall x :: x in c.books.counted ==> x in s.books.counted || x.key == key)
  }

  lemma CountOnceMore(s: Network, key: Key, env: Envelope)
    requires key.ballot.instanceId in s.nodes && s.nodes[key.ballot.instanceId].id == key.ballot.instanceId
    requires |s.nodes| <= s.nodes[key.ballot.instanceId].numPeers
    requires env in s.sent && env.msg.Approval? && env.msg.key == key
    ensures var c := DoReceiveApproval(s, key.ballot.instanceId, env.from, key, env.msg.address, true);
            && Leads(Recounted, s, ReceiveApproval(key.ballot.instanceId, env, true), c)
            && OnlyCounted(s, c, key, 1)
  {
  }

  lemma OnlyCountedTwice(s: Network, m: Network, c: Network, key: Key, i: nat, j: nat)
    requires OnlyCounted(s, m, key, i) && OnlyCounted(m, c, key, j)
    ensures OnlyCounted(s, c, key, i + j)
  {
  }

  lemma {:induction false} CountAgain(ids: set<InstanceId>, s: Network, key: Key, env: Envelope, n: nat)
    returns (c: Network)
    requires Reachable(Recounted, ids, s)
    requires key.ballot.instanceId in s.nodes && s.nodes[key.ballot.instanceId].id == key.ballot.instanceId
    requires |s.nodes| <= s.nodes[key.ballot.instanceId].numPeers
    requires env in s.sent && env.msg.Approval? && env.msg.key == key
    ensures Reachable(Recounted, ids, c) && OnlyCounted(s, c, key, n)
    decreases n
  {
    if n == 0 {
      c := s;
    } else {
      var m := CountAgain(ids, s, key, env, n - 1);
      SameSize(s.nodes, m.nodes);
      CountOnceMore(m, key, env);
      c := DoReceiveApproval(m, key.ballot.instanceId, env.from, key, env.msg.address, true);
      RunOne(Recounted, m, ReceiveApproval(key.ballot.instanceId, env, true), c);
      ReachFurther(Recounted, ids, m, [ReceiveApproval(key.ballot.instanceId, env, true)], c);
      OnlyCountedTwice(s, m, c, key, n - 1, 1);
    }
  }

  /** The proposer hears everyone else, but only it accepts its proposal, and it counts nothing yet. */
  function SelfishPlan(q: seq<InstanceId>, key: Key, draw: Address): Plan
    requires q != []
  {
    Plan(key, draw, q[1..], q[1..], [q[0]], [])
  }

  lemma SelfishFeasible(s: Network, q: seq<InstanceId>, key: Key, a: Address)
    requires NodesOf(s, q) && key.ballot.instanceId == q[0] && Ready(s, q[0], key)
    requires forall n :: n in s.nodes ==> key.typeName !in s.nodes[n].proposals
    ensures Feasible(Recounted, s, SelfishPlan(q, key, a)) && Picked(Reports(s, SelfishPlan(q, key, a)), a) == a
  {
    var x := SelfishPlan(q, key, a);
    TailMembers(q);
    InNodes(s, q);
    PicksDraw(s, x);
  }

  lemma SelfishVotes(ids: set<InstanceId>, s: Network, q: seq<InstanceId>, key: Key, a: Address) returns (c: Network)
    requires Reachable(Recounted, ids, s) && NodesOf(s, q) && key.ballot.instanceId == q[0] && Ready(s, q[0], key)
    requires forall n :: n in s.nodes ==> key.typeName !in s.nodes[n].proposals
    ensures Reachable(Recounted, ids, c) && VotesIn(s, c, SelfishPlan(q, key, a), a, 0)
  {
    var x := SelfishPlan(q, key, a);
    SelfishFeasible(s, q, key, a);
    var m := AnnouncedRun(Recounted, s, x);
    ReachFurther(Recounted, ids, s, ProposalEvents(s, x), m);
    c := VotingRun(Recounted, s, m, x, a);
    ReachFurther(Recounted, ids, m, AcceptEvents(key, a, x.acceptors) + CountEvents(key, a, x.voters), c);
  }

  /** After the first attempt: only its proposer holds its address, which was returned all the same. */
  ghost predicate OnlyProposerHolds(m: Network, q: seq<InstanceId>, key: Key, a: Address) {
    && NodesOf(m, q) && key.ballot.instanceId == q[0]
    && key in m.log.returned && m.log.returned[key] == a
    && Keeps(m, q[0], key.typeName, Record(key.ballot, Some(a)))
    && (forall i :: 1 <= i < |q| ==> Keeps(m, q[i], key.typeName, Record(key.ballot, None)))
    && Idle(m, q[0], key.typeName)
  }

  lemma SelfishRecords(s: Network, c: Network, q: seq<InstanceId>, key: Key, a: Address)
    requires NodesOf(s, q) && key.ballot.instanceId == q[0] && NodesAfter(s, c, SelfishPlan(q, key, a), a)
    requires forall n :: n in s.nodes ==> key.typeName !in s.nodes[n].proposals
    ensures NodesOf(c, q) && Keeps(c, q[0], key.typeName, Record(key.ballot, Some(a)))
    ensures forall i :: 1 <= i < |q| ==> Keeps(c, q[i], key.typeName, Record(key.ballot, None))
  {
    SizeKept(s, c);
    TailMembers(q);
    InNodes(s, q);
    forall i | 0 <= i < |q| ensures Keeps(c, q[i], key.typeName, Record(key.ballot, if i == 0 then Some(a) else None)) {
      assert q[i] in q && (i > 0 ==> q[i] in q[1..]);
      SelfishRecord(s, c, q, key, a, q[i]);
    }
  }

  lemma SelfishRecord(s: Network, c: Network, q: seq<InstanceId>, key: Key, a: Address, n: InstanceId)
    requires q != [] && key.ballot.instanceId == q[0] && NodesAfter(s, c, SelfishPlan(q, key, a), a)
    requires n in s.nodes && key.typeName !in s.nodes[n].proposals && (n == q[0] || n in q[1..])
    ensures Keeps(c, n, key.typeName, Record(key.ballot, if n == q[0] then Some(a) else None))
  {
    assert c.nodes[n].proposals == RecordsAfter(s, SelfishPlan(q, key, a), a, n);
  }

  lemma CountedRecords(c: Network, d: Network, q: seq<InstanceId>, key: Key, a: Address, n: nat)
    requires NodesOf(c, q) && key.ballot.instanceId == q[0] && OnlyCounted(c, d, key, n)
    requires Keeps(c, q[0], key.typeName, Record(key.ballot, Some(a)))
    requires forall i :: 1 <= i < |q| ==> Keeps(c, q[i], key.typeName, Record(key.ballot, None))
    ensures NodesOf(d, q) && Keeps(d, q[0], key.typeName, Record(key.ballot, Some(a)))
    ensures forall i :: 1 <= i < |q| ==> Keeps(d, q[i], key.typeName, Record(key.ballot, None))
  {
    SizeKept(c, d);
    forall i | 1 <= i < |q| ensures Keeps(d, q[i], key.typeName, Record(key.ballot, None)) {
      assert Keeps(c, q[i], key.typeName, Record(key.ballot, None));
    }
  }

  /** Nothing waits at the proposer after its counting, and no other ballot of it was touched. */
  lemma CountedIdle(s: Network, c: Network, d: Network, x: Plan, a: Address, n: nat, k: Key)
    requires VotesIn(s, c, x, a, 0) && OnlyCounted(c, d, x.key, n) && Ready(s, x.key.ballot.instanceId, x.key)
    requires k != x.key && k.ballot.instanceId == x.key.ballot.instanceId && Unused(s, k)
    ensures Idle(d, x.key.ballot.instanceId, x.key.typeName) && Unused(d, k)
  {
    SameSize(s.nodes, c.nodes);
    SameSize(c.nodes, d.nodes);
  }

  /** The attempt waits for its end with as many approvals counted as there are nodes, all of them its own. */
  ghost predicate SelfishCounted(d: Network, q: seq<InstanceId>, key: Key, a: Address) {
    && NodesOf(d, q) && key.ballot.instanceId == q[0]
    && q[0] in d.nodes && ApprovalsFor(d.nodes[q[0]], key) >= |q|
    && key in d.log.proposed && key in d.log.decisions && key !in d.log.finished
    && d.log.decisions[key].address == a
  }

  lemma CountedEnough(s: Network, c: Network, d: Network, q: seq<InstanceId>, key: Key, a: Address)
    requires NodesOf(d, q) && key.ballot.instanceId == q[0] && Ready(s, q[0], key)
    requires CountersAfter(s, c, SelfishPlan(q, key, a), 0) && LogProposed(s, c, SelfishPlan(q, key, a), a)
    requires OnlyCounted(c, d, key, |q|)
    ensures SelfishCounted(d, q, key, a)
  {
  }

  lemma SelfishVoted(ids: set<InstanceId>, s: Network, q: seq<InstanceId>, key: Key, k: Key, a: Address)
    returns (d: Network)
    requires Reachable(Recounted, ids, s) && NodesOf(s, q) && key.ballot.instanceId == q[0] && Ready(s, q[0], key)
    requires forall n :: n in s.nodes ==> key.typeName !in s.nodes[n].proposals
    requires k != key && k.ballot.instanceId == q[0] && Unused(s, k)
    ensures Reachable(Recounted, ids, d) && SelfishCounted(d, q, key, a)
    ensures Keeps(d, q[0], key.typeName, Record(key.ballot, Some(a)))
    ensures forall i :: 1 <= i < |q| ==> Keeps(d, q[i], key.typeName, Record(key.ballot, None))
    ensures Idle(d, q[0], key.typeName) && Unused(d, k)
  {
    var c := SelfishVotes(ids, s, q, key, a);
    SelfishRecords(s, c, q, key, a);
    assert q[0] in SelfishPlan(q, key, a).acceptors;
    d := CountAgain(ids, c, key, Envelope(q[0], Approval(key, a)), |q|);
    CountedRecords(c, d, q, key, a, |q|);
    CountedIdle(s, c, d, SelfishPlan(q, key, a), a, |q|, k);
    CountedEnough(s, c, d, q, key, a);
  }

  lemma SelfishEnd(ids: set<InstanceId>, d: Network, q: seq<InstanceId>, key: Key, a: Address) returns (m: Network)
    requires Reachable(Recounted, ids, d) && SelfishCounted(d, q, key, a)
    ensures Reachable(Recounted, ids, m) && m.nodes == d.nodes && m.sent == d.sent && m.books == d.books
    ensures m.log == d.log.(finished := d.log.finished + {key}, returned := d.log.returned[key := a])
  {
    m := DoCloseApprovals(d, q[0], key);
    RunOne(Recounted, d, CloseApprovals(q[0], key), m);
    ReachFurther(Recounted, ids, d, [CloseApprovals(q[0], key)], m);
  }

  lemma SelfishAttempt(ids: set<InstanceId>, s: Network, q: seq<InstanceId>, key: Key, k: Key, a: Address)
    returns (m: Network)
    requires Reachable(Recounted, ids, s) && NodesOf(s, q) && key.ballot.instanceId == q[0] && Ready(s, q[0], key)
    requires forall n :: n in s.nodes ==> key.typeName !in s.nodes[n].proposals
    requires k != key && k.ballot.instanceId == q[0] && Unused(s, k)
    ensures Reachable(Recounted, ids, m) && OnlyProposerHolds(m, q, key, a) && Unused(m, k)
  {
    var d := SelfishVoted(ids, s, q, key, k, a);
    m := SelfishEnd(ids, d, q, key, a);
    SelfishOver(d, m, q, key, a);
  }

  lemma SelfishOver(d: Network, m: Network, q: seq<InstanceId>, key: Key, a: Address)
    requires SelfishCounted(d, q, key, a) && m.nodes == d.nodes && m.books == d.books
    requires key in m.log.returned && m.log.returned[key] == a && Idle(d, q[0], key.typeName)
    requires Keeps(d, q[0], key.typeName, Record(key.ballot, Some(a)))
    requires forall i :: 1 <= i < |q| ==> Keeps(d, q[i], key.typeName, Record(key.ballot, None))
    ensures OnlyProposerHolds(m, q, key, a)
  {
    forall i | 1 <= i < |q| ensures Keeps(m, q[i], key.typeName, Record(key.ballot, None)) {
      assert Keeps(d, q[i], key.typeName, Record(key.ballot, None));
    }
  }

  // ----- The same proposer's next attempt: nobody it hears holds an address

  function NextPlan(q: seq<InstanceId>, k: Key, draw: Address): Plan
    requires q != []
  {
    Plan(k, draw, q[1..], q[1..], q, q)
  }

  lemma NextFeasible(m: Network, q: seq<InstanceId>, key: Key, k: Key, a: Address, b: Address)
    requires OnlyProposerHolds(m, q, key, a) && k.typeName == key.typeName && Ready(m, q[0], k)
    requires ProposalIsNewer(key.ballot, k.ballot)
    ensures Feasible(Recounted, m, NextPlan(q, k, b)) && Picked(Reports(m, NextPlan(q, k, b)), b) == b
  {
    var x := NextPlan(q, k, b);
    TailMembers(q);
    InNodes(m, q);
    forall id | id in x.promisers
      ensures WillPromise(Recounted, m, k, id) && Reported(m.nodes[id], k.typeName).multicastIp == None
    {
      var i :| 0 <= i < |q| && q[i] == id;
      assert Keeps(m, q[i], key.typeName, Record(key.ballot, None));
    }
    PicksDraw(m, x);
  }

  lemma NextReturns(ids: set<InstanceId>, m: Network, q: seq<InstanceId>, key: Key, k: Key, a: Address, b: Address)
    returns (s: Network)
    requires Reachable(Recounted, ids, m) && OnlyProposerHolds(m, q, key, a) && Ready(m, q[0], k)
    requires k.typeName == key.typeName && ProposalIsNewer(key.ballot, k.ballot)
    ensures Reachable(Recounted, ids, s)
    ensures key in s.log.returned && s.log.returned[key] == a && k in s.log.returned && s.log.returned[k] == b
  {
    NextFeasible(m, q, key, k, a, b);
    s := AttemptReaches(Recounted, ids, m, NextPlan(q, k, b));
    NextLogged(m, s, q, key, k, a, b);
  }

  lemma NextLogged(m: Network, s: Network, q: seq<InstanceId>, key: Key, k: Key, a: Address, b: Address)
    requires q != [] && |q| == |m.nodes| && key != k && LogAfter(m, s, NextPlan(q, k, b), b)
    requires key in m.log.returned && m.log.returned[key] == a
    ensures key in s.log.returned && s.log.returned[key] == a && k in s.log.returned && s.log.returned[k] == b
  {
  }

  lemma StillOnlyProposer(m: Network, s: Network, q: seq<InstanceId>, key: Key, a: Address)
    requires OnlyProposerHolds(m, q, key, a) && s.nodes == m.nodes && s.log.returned == m.log.returned
    requires Idle(s, q[0], key.typeName)
    ensures OnlyProposerHolds(s, q, key, a)
  {
    forall i | 1 <= i < |q| ensures Keeps(s, q[i], key.typeName, Record(key.ballot, None)) {
      assert Keeps(m, q[i], key.typeName, Record(key.ballot, None));
    }
  }

  /**
   * Counting again: on any two nodes or more, one proposer can be returned two addresses for one type, the
   * first on its own approval alone because that was counted over and over.
   */
  lemma RecountDisagrees(ids: set<InstanceId>, t: TypeName, a: Address, b: Address)
    returns (s: Network, k1: Key, k2: Key)
    requires |ids| >= 2
    ensures Reachable(Recounted, ids, s) && k1.typeName == k2.typeName == t && k1 != k2
    ensures k1.ballot.instanceId == k2.ballot.instanceId
    ensures k1 in s.log.returned && s.log.returned[k1] == a && k2 in s.log.returned && s.log.returned[k2] == b
  {
    var init, q, other;
    init, q, k1, other := BothBegin(Recounted, ids, t);
    k2 := Key(t, Ballot(3, q[0]));
    BegunNodes(init, q, k1, other);
    var m := SelfishAttempt(ids, init, q, k1, k2, a);
    var c := BeginOne(Recounted, ids, m, k2);
    StillOnlyProposer(m, c, q, k1, a);
    s := NextReturns(ids, c, q, k1, k2, a, b);
  }

  // ----- Nodes that have heard from nobody

  /** No node knows of a peer or waits for answers; either nobody has a record, or all accepted the same one. */
  ghost predicate Unaware(s: Network, q: seq<InstanceId>, t: TypeName, r: Option<Record>) {
    && q != [] && Distinct(q) && Members(q) == s.nodes.Keys
    && forall n :: n in s.nodes ==> UnawareNode(s, n, t) && UnawareRecord(s, n, t, r)
  }

  predicate UnawareNode(s: Network, n: InstanceId, t: TypeName)
    requires n in s.nodes
  {
    && s.nodes[n].id == n && s.nodes[n].numPeers == 0
    && PromisesFor(s.nodes[n], t) == [] && PromisersOf(s, n, t) == [] && RejectionsFor(s.nodes[n], t) == 0
  }

  predicate UnawareRecord(s: Network, n: InstanceId, t: TypeName, r: Option<Record>)
    requires n in s.nodes
  {
    match r
    case None => t !in s.nodes[n].proposals
    case Some(record) =>
      t in s.nodes[n].proposals && s.nodes[n].proposals[t] == record && Accepted(s, n, Key(t, record.ballot))
  }

  ghost predicate NewKey(s: Network, k: Key) {
    && k !in s.log.prepared && k !in s.log.closed && k !in s.log.decisions
    && k !in s.log.proposed && k !in s.log.finished && k !in s.log.returned
  }

  /** Nothing another attempt than `key` achieved was taken back or added to. */
  ghost predicate Preserves(s: Network, m: Network, key: Key) {
    && m.nodes.Keys == s.nodes.Keys && s.sent <= m.sent
    && (forall k :: k != key && NewKey(s, k) ==> NewKey(m, k))
    && (forall k :: k in s.log.decisions ==> k in m.log.decisions && m.log.decisions[k] == s.log.decisions[k])
    && (forall k :: k in s.log.returned ==> k in m.log.returned && m.log.returned[k] == s.log.returned[k])
  }

  /** Everyone else has promised the attempt; its proposer has heard nobody. */
  ghost predicate AllPromised(s: Network, m: Network, q: seq<InstanceId>, k: Key) {
    && q != [] && Distinct(q) && Members(q) == m.nodes.Keys && k.ballot.instanceId == q[0]
    && Preserves(s, m, k) && k in m.log.prepared
    && k !in m.log.closed && k !in m.log.decisions && k !in m.log.proposed && k !in m.log.finished
    && k !in m.log.returned
    && (forall n :: n in m.nodes ==> UnawareNode(m, n, k.typeName) && AtBallot(m, n, k))
  }

  predicate AtBallot(m: Network, n: InstanceId, k: Key)
    requires n in m.nodes
  {
    if n == k.ballot.instanceId
    then k.typeName in m.nodes[n].proposals ==> AtMost(m.nodes[n].proposals[k.typeName].ballot, k.ballot)
    else k.typeName in m.nodes[n].proposals && m.nodes[n].proposals[k.typeName].ballot == k.ballot
  }

  lemma UnawareBegins(ids: set<InstanceId>, s: Network, k: Key) returns (m: Network)
    requires Reachable(Undercounted, ids, s) && k.ballot.instanceId in s.nodes
    ensures Reachable(Undercounted, ids, m) && m == DoStartAttempt(s, k.ballot.instanceId, k)
  {
    var p := k.ballot.instanceId;
    m := DoStartAttempt(s, p, k);
    RunOne(Undercounted, s, StartAttempt(p, k), m);
    ReachFurther(Undercounted, ids, s, [StartAttempt(p, k)], m);
  }

  lemma UnawarePromise(s: Network, q: seq<InstanceId>, k: Key, r: Option<Record>, n: InstanceId)
    requires Unaware(s, q, k.typeName, r) && k.ballot.instanceId == q[0] && n in q[1..]
    requires r.Some? ==> ProposalIsNewer(r.value.ballot, k.ballot)
    ensures WillPromise(Undercounted, DoStartAttempt(s, q[0], k), k, n)
  {
    TailMembers(q);
    assert n in Members(q) && UnawareNode(s, n, k.typeName) && UnawareRecord(s, n, k.typeName, r);
  }

  lemma UnawarePromised(s: Network, q: seq<InstanceId>, k: Key, r: Option<Record>)
    requires Unaware(s, q, k.typeName, r) && k.ballot.instanceId == q[0] && NewKey(s, k)
    requires r.Some? ==> ProposalIsNewer(r.value.ballot, k.ballot)
    ensures AllPromised(s, PrepareAll(DoStartAttempt(s, q[0], k), k, q[1..]), q, k)
  {
    var m := PrepareAll(DoStartAttempt(s, q[0], k), k, q[1..]);
    TailMembers(q);
    forall n | n in m.nodes ensures UnawareNode(m, n, k.typeName) && AtBallot(m, n, k) {
      assert UnawareNode(s, n, k.typeName) && UnawareRecord(s, n, k.typeName, r);
      assert n in Members(q);
    }
  }

  lemma UnawarePrepares(ids: set<InstanceId>, s: Network, q: seq<InstanceId>, k: Key, r: Option<Record>)
    returns (m: Network)
    requires Reachable(Undercounted, ids, s) && Unaware(s, q, k.typeName, r) && NewKey(s, k)
    requires k.ballot.instanceId == q[0] && (r.Some? ==> ProposalIsNewer(r.value.ballot, k.ballot))
    ensures Reachable(Undercounted, ids, m) && AllPromised(s, m, q, k)
  {
    assert q[0] in Members(q);
    var c := UnawareBegins(ids, s, k);
    TailMembers(q);
    forall i | 0 <= i < |q[1..]| ensures WillPromise(Undercounted, c, k, q[1..][i]) {
      UnawarePromise(s, q, k, r, q[1..][i]);
    }
    m := PrepareAll(c, k, q[1..]);
    PrepareRun(Undercounted, c, k, q[1..]);
    ReachFurther(Undercounted, ids, c, PrepareEvents(k, q[1..]), m);
    UnawarePromised(s, q, k, r);
  }

  /** The proposer ends its wait, which needs nobody, and announces its own draw. */
  ghost predicate AloneProposed(s: Network, m: Network, q: seq<InstanceId>, k: Key, a: Address) {
    && q != [] && Distinct(q) && Members(q) == m.nodes.Keys && k.ballot.instanceId == q[0]
    && Preserves(s, m, k) && Envelope(q[0], Proposal(k, a)) in m.sent
    && k in m.log.decisions && m.log.decisions[k].address == a && k in m.log.proposed
    && k !in m.log.finished && k !in m.log.returned
    && (forall n :: n in m.nodes ==>
          && UnawareNode(m, n, k.typeName)
          && k.typeName in m.nodes[n].proposals && m.nodes[n].proposals[k.typeName].ballot == k.ballot)
  }

  lemma PreservesTwice(s: Network, m: Network, d: Network, k: Key)
    requires Preserves(s, m, k) && Preserves(m, d, k)
    ensures Preserves(s, d, k)
  {
  }

  /** Ending the wait takes no answer, so the proposer decides on its own draw. */
  ghost predicate AloneDecided(m: Network, c: Network, k: Key, a: Address) {
    var p, t := k.ballot.instanceId, k.typeName;
    && p in m.nodes && k in c.log.decisions && c.log.decisions[k].address == a
    && c.nodes == m.nodes[p := TakePromises(m.nodes[p], t)]
    && c.books == m.books.(promisers := m.books.promisers - {(p, t)})
    && c.sent == m.sent
    && c.log == m.log.(closed := m.log.closed + {k}, decisions := m.log.decisions[k := c.log.decisions[k]],
                       drawn := c.log.drawn)
  }

  lemma AloneDecides(m: Network, k: Key, a: Address)
    requires k.ballot.instanceId in m.nodes && UnawareNode(m, k.ballot.instanceId, k.typeName)
    requires k in m.log.prepared && k !in m.log.closed
    ensures var p := k.ballot.instanceId;
            var c := DoClosePromises(m, p, k, Some(a));
            Leads(Undercounted, m, ClosePromises(p, k, Some(a)), c) && AloneDecided(m, c, k, a)
  {
  }

  lemma AloneAnnounces(m: Network, c: Network, k: Key, a: Address)
    requires AloneDecided(m, c, k, a) && AtBallot(m, k.ballot.instanceId, k) && k !in m.log.proposed
    ensures var p := k.ballot.instanceId;
            Leads(Undercounted, c, SendProposal(p, k), DoSendProposal(c, p, k))
  {
  }

  lemma AloneProposedNode(m: Network, c: Network, k: Key, a: Address, n: InstanceId)
    requires n in m.nodes && UnawareNode(m, n, k.typeName) && AtBallot(m, n, k) && AloneDecided(m, c, k, a)
    ensures var d := DoSendProposal(c, k.ballot.instanceId, k);
            && n in d.nodes && UnawareNode(d, n, k.typeName)
            && k.typeName in d.nodes[n].proposals && d.nodes[n].proposals[k.typeName].ballot == k.ballot
  {
  }

  lemma AlonePreserves(m: Network, c: Network, k: Key, a: Address)
    requires AloneDecided(m, c, k, a) && k !in m.log.decisions
    ensures Preserves(m, DoSendProposal(c, k.ballot.instanceId, k), k)
  {
  }

  lemma AloneShows(s: Network, m: Network, c: Network, q: seq<InstanceId>, k: Key, a: Address)
    requires AllPromised(s, m, q, k) && AloneDecided(m, c, k, a)
    ensures AloneProposed(s, DoSendProposal(c, q[0], k), q, k, a)
  {
    var d := DoSendProposal(c, q[0], k);
    AlonePreserves(m, c, k, a);
    PreservesTwice(s, m, d, k);
    forall n | n in d.nodes
      ensures UnawareNode(d, n, k.typeName)
      ensures k.typeName in d.nodes[n].proposals && d.nodes[n].proposals[k.typeName].ballot == k.ballot
    {
      AloneProposedNode(m, c, k, a, n);
    }
  }

  lemma AloneRuns(ids: set<InstanceId>, m: Network, k: Key, a: Address) returns (c: Network)
    requires Reachable(Undercounted, ids, m)
    requires k.ballot.instanceId in m.nodes && UnawareNode(m, k.ballot.instanceId, k.typeName)
    requires AtBallot(m, k.ballot.instanceId, k)
    requires k in m.log.prepared && k !in m.log.closed && k !in m.log.proposed
    ensures AloneDecided(m, c, k, a) && Reachable(Undercounted, ids, DoSendProposal(c, k.ballot.instanceId, k))
  {
    var p := k.ballot.instanceId;
    c := DoClosePromises(m, p, k, Some(a));
    AloneDecides(m, k, a);
    RunOne(Undercounted, m, ClosePromises(p, k, Some(a)), c);
    ReachFurther(Undercounted, ids, m, [ClosePromises(p, k, Some(a))], c);
    AloneAnnounces(m, c, k, a);
    var d := DoSendProposal(c, p, k);
    RunOne(Undercounted, c, SendProposal(p, k), d);
    ReachFurther(Undercounted, ids, c, [SendProposal(p, k)], d);
  }

  lemma AloneProposes(ids: set<InstanceId>, s: Network, m: Network, q: seq<InstanceId>, k: Key, a: Address)
    returns (d: Network)
    requires Reachable(Undercounted, ids, m) && AllPromised(s, m, q, k)
    ensures Reachable(Undercounted, ids, d) && AloneProposed(s, d, q, k, a)
  {
    assert q[0] in Members(q) && UnawareNode(m, q[0], k.typeName) && AtBallot(m, q[0], k);
    var c := AloneRuns(ids, m, k, a);
    AloneShows(s, m, c, q, k, a);
    d := DoSendProposal(c, q[0], k);
  }

  /** The attempt is over: all approved it, and its address was returned. */
  ghost predicate AloneOver(s: Network, m: Network, q: seq<InstanceId>, k: Key, a: Address) {
    && Preserves(s, m, k) && Unaware(m, q, k.typeName, Some(Record(k.ballot, Some(a))))
    && k in m.log.decisions && m.log.decisions[k].address == a
    && k in m.log.returned && m.log.returned[k] == a
    && Chosen(m, k)
  }

  lemma AloneApprovedNode(m: Network, q: seq<InstanceId>, k: Key, a: Address, n: InstanceId)
    requires n in m.nodes && n in q && UnawareNode(m, n, k.typeName)
    requires k in m.log.decisions && m.log.decisions[k].address == a
    ensures var c := AcceptAll(m, k, a, q);
            && n in c.nodes && UnawareNode(c, n, k.typeName) && ApprovedBy(c, n, k)
            && UnawareRecord(c, n, k.typeName, Some(Record(k.ballot, Some(a))))
  {
  }

  lemma AloneApproved(s: Network, m: Network, q: seq<InstanceId>, k: Key, a: Address)
    requires AloneProposed(s, m, q, k, a)
    ensures var c := AcceptAll(m, k, a, q);
            && Unaware(c, q, k.typeName, Some(Record(k.ballot, Some(a)))) && Approvers(c, k) == c.nodes.Keys
  {
    var c := AcceptAll(m, k, a, q);
    forall n | n in c.nodes
      ensures UnawareNode(c, n, k.typeName) && UnawareRecord(c, n, k.typeName, Some(Record(k.ballot, Some(a))))
      ensures ApprovedBy(c, n, k)
    {
      assert n in Members(q);
      AloneApprovedNode(m, q, k, a, n);
    }
  }

  lemma AllApproved(c: Network, k: Key, p: InstanceId)
    requires p in c.nodes && k in c.log.decisions && Approvers(c, k) == c.nodes.Keys
    ensures Chosen(c, k)
  {
    SubsetSize({p}, c.nodes.Keys);
    assert |c.nodes.Keys| == |c.nodes|;
  }

  lemma AloneReturns(c: Network, k: Key, a: Address)
    requires k.ballot.instanceId in c.nodes && UnawareNode(c, k.ballot.instanceId, k.typeName)
    requires k in c.log.decisions && c.log.decisions[k].address == a && k in c.log.proposed && k !in c.log.finished
    ensures var d := DoCloseApprovals(c, k.ballot.instanceId, k);
            && Leads(Undercounted, c, CloseApprovals(k.ballot.instanceId, k), d)
            && d == c.(log := c.log.(finished := c.log.finished + {k}, returned := c.log.returned[k := a]))
  {
  }

  lemma AcceptPreserves(m: Network, q: seq<InstanceId>, k: Key, a: Address)
    requires k in m.log.decisions && k !in m.log.returned
    ensures var c := AcceptAll(m, k, a, q);
            Preserves(m, c.(log := c.log.(finished := c.log.finished + {k}, returned := c.log.returned[k := a])), k)
  {
  }

  /** Ending the approval wait changes no record and no message. */
  lemma AloneStays(c: Network, q: seq<InstanceId>, k: Key, a: Address)
    requires Unaware(c, q, k.typeName, Some(Record(k.ballot, Some(a)))) && Approvers(c, k) == c.nodes.Keys
    requires k in c.log.decisions
    ensures var d := c.(log := c.log.(finished := c.log.finished + {k}, returned := c.log.returned[k := a]));
            Unaware(d, q, k.typeName, Some(Record(k.ballot, Some(a)))) && Chosen(d, k)
  {
    var d := c.(log := c.log.(finished := c.log.finished + {k}, returned := c.log.returned[k := a]));
    assert q[0] in Members(q);
    forall n | n in d.nodes
      ensures UnawareNode(d, n, k.typeName) && UnawareRecord(d, n, k.typeName, Some(Record(k.ballot, Some(a))))
    {
      assert UnawareNode(c, n, k.typeName) && UnawareRecord(c, n, k.typeName, Some(Record(k.ballot, Some(a))));
    }
    assert Approvers(d, k) == Approvers(c, k);
    AllApproved(d, k, q[0]);
  }

  lemma AloneEnds(s: Network, m: Network, q: seq<InstanceId>, k: Key, a: Address) returns (d: Network)
    requires AloneProposed(s, m, q, k, a)
    ensures q[0] in m.nodes && Leads(Undercounted, AcceptAll(m, k, a, q), CloseApprovals(q[0], k), d)
    ensures AloneOver(s, d, q, k, a)
  {
    var c := AcceptAll(m, k, a, q);
    AloneApproved(s, m, q, k, a);
    assert q[0] in Members(q) && UnawareNode(c, q[0], k.typeName);
    AloneReturns(c, k, a);
    d := DoCloseApprovals(c, q[0], k);
    AloneStays(c, q, k, a);
    AcceptPreserves(m, q, k, a);
    PreservesTwice(s, m, d, k);
  }

  lemma AloneAttempt(ids: set<InstanceId>, s: Network, q: seq<InstanceId>, k: Key, r: Option<Record>, a: Address)
    returns (d: Network)
    requires Reachable(Undercounted, ids, s) && Unaware(s, q, k.typeName, r) && NewKey(s, k)
    requires k.ballot.instanceId == q[0] && (r.Some? ==> ProposalIsNewer(r.value.ballot, k.ballot))
    ensures Reachable(Undercounted, ids, d) && AloneOver(s, d, q, k, a)
  {
    var m := UnawarePrepares(ids, s, q, k, r);
    var c := AloneProposes(ids, s, m, q, k, a);
    forall i | 0 <= i < |q| ensures q[i] in c.nodes {
      assert q[i] in Members(q);
    }
    AcceptRun(Undercounted, c, k, a, q);
    ReachFurther(Undercounted, ids, c, AcceptEvents(k, a, q), AcceptAll(c, k, a, q));
    d := AloneEnds(s, c, q, k, a);
    RunOne(Undercounted, AcceptAll(c, k, a, q), CloseApprovals(q[0], k), d);
    ReachFurther(Undercounted, ids, AcceptAll(c, k, a, q), [CloseApprovals(q[0], k)], d);
  }

  lemma BothOver(s: Network, m: Network, d: Network, q: seq<InstanceId>, k1: Key, k2: Key, a: Address, b: Address)
    requires AloneOver(s, m, q, k1, a) && AloneOver(m, d, q, k2, b) && k1 != k2
    ensures Disagrees(d, k1, k2, a, b)
  {
    forall n | n in Approvers(m, k1) ensures n in Approvers(d, k1) {
    }
    SubsetSize(Approvers(m, k1), Approvers(d, k1));
    SizeKept(m, d);
  }

  lemma TwiceAlone(ids: set<InstanceId>, s: Network, q: seq<InstanceId>, k1: Key, k2: Key, a: Address, b: Address)
    returns (d: Network)
    requires Reachable(Undercounted, ids, s) && Unaware(s, q, k1.typeName, None) && NewKey(s, k1) && NewKey(s, k2)
    requires k1.typeName == k2.typeName && k1.ballot.instanceId == k2.ballot.instanceId == q[0]
    requires ProposalIsNewer(k1.ballot, k2.ballot)
    ensures Reachable(Undercounted, ids, d) && Disagrees(d, k1, k2, a, b)
  {
    var m := AloneAttempt(ids, s, q, k1, None, a);
    d := AloneAttempt(ids, m, q, k2, Some(Record(k1.ballot, Some(a))), b);
    BothOver(s, m, d, q, k1, k2, a, b);
  }

  lemma UnawareStart(ids: set<InstanceId>, q: seq<InstanceId>, t: TypeName)
    requires q != [] && Distinct(q) && Members(q) == ids
    ensures Reachable(Undercounted, ids, Start(ids)) && Unaware(Start(ids), q, t, None)
    ensures forall k: Key :: NewKey(Start(ids), k)
  {
    RunNothing(Undercounted, Start(ids));
  }

  /**
   * Under-counting: on any nodes that have not heard of each other, a proposer has two addresses chosen and
   * returned for one type, because it takes no answer at all for at least half of its peers.
   */
  lemma UndercountDisagrees(ids: set<InstanceId>, t: TypeName, a: Address, b: Address)
    returns (s: Network, k1: Key, k2: Key)
    requires |ids| >= 1
    ensures Reachable(Undercounted, ids, s) && k1.typeName == k2.typeName == t && k1 != k2
    ensures Disagrees(s, k1, k2, a, b)
  {
    var q := Enumerate(ids);
    k1, k2 := Key(t, Ballot(1, q[0])), Key(t, Ballot(2, q[0]));
    UnawareStart(ids, q, t);
    s := TwiceAlone(ids, Start(ids), q, k1, k2, a, b);
  }
}
