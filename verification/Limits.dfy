/**
 * How far agreement reaches under all that Basic assumes: two families of runs that disagree, one for every
 * even number of nodes and one for every number of nodes above three.
 */
module Limits {
  import opened Wrappers
  import opened Ballots
  import opened ConsensusNode
  import opened ConsensusNetwork
  import opened ConsensusInvariants
  import opened Agreement
  import opened SmallNetworks
  import opened Rounds
  import opened Attempts
  import opened Beginnings

  lemma {:induction false} Enumerate(ids: set<InstanceId>) returns (q: seq<InstanceId>)
    ensures Distinct(q) && Members(q) == ids && |q| == |ids|
    decreases |ids|
  {
    if ids == {} {
      q := [];
      assert Members(q) == {};
    } else {
      var i :| i in ids;
      var rest := Enumerate(ids - {i});
      assert i !in Members(rest);
      q := rest + [i];
      assert Members(q) == Members(rest) + {i};
    }
  }

  function Without(q: seq<InstanceId>, j: nat): seq<InstanceId>
    requires j < |q|
  {
    q[..j] + q[j + 1..]
  }

  lemma WithoutContents(q: seq<InstanceId>, j: nat)
    requires j < |q| && Distinct(q)
    ensures Distinct(Without(q, j)) && |Without(q, j)| == |q| - 1
    ensures forall id :: id in Without(q, j) <==> id in q && id != q[j]
  {
  }

  /** The nodes are those of `q` and nothing has happened yet about type `t`. */
  ghost predicate Blank(s: Network, q: seq<InstanceId>, t: TypeName) {
    && Distinct(q) && Members(q) == s.nodes.Keys && |q| == |s.nodes|
    && Settled(s, t, None)
  }

  /** Node `n` keeps exactly this record for the type. */
  predicate Keeps(s: Network, n: InstanceId, t: TypeName, r: Record) {
    n in s.nodes && t in s.nodes[n].proposals && s.nodes[n].proposals[t] == r
  }

  /** Once all nodes have met: the start of every schedule below. */
  lemma MetBlank(h: Hypothesis, ids: set<InstanceId>, t: TypeName) returns (s: Network)
    ensures Reachable(h, ids, s) && Settled(s, t, None) && s.nodes.Keys == ids
    ensures forall key: Key :: key.ballot.instanceId in ids ==> Unused(s, key)
  {
    s := Met(ids, ids);
    MetSettled(h, ids, t);
  }

  lemma BeginOne(h: Hypothesis, ids: set<InstanceId>, s: Network, k: Key) returns (s': Network)
    requires Reachable(h, ids, s) && Idle(s, k.ballot.instanceId, k.typeName) && Unused(s, k)
    ensures Reachable(h, ids, s') && Ready(s', k.ballot.instanceId, k)
    ensures s'.nodes == s.nodes && s'.books == s.books
    ensures s'.sent == s.sent + {Envelope(k.ballot.instanceId, Preparation(k))}
    ensures s'.log == s.log.(prepared := s.log.prepared + {k})
    ensures forall q, k' :: Ready(s, q, k') ==> Ready(s', q, k')
    ensures forall k' :: k' != k && Unused(s, k') ==> Unused(s', k')
    ensures forall q, t :: Idle(s, q, t) ==> Idle(s', q, t)
  {
    var p := k.ballot.instanceId;
    s' := DoStartAttempt(s, p, k);
    Begin(h, s, k);
    RunOne(h, s, StartAttempt(p, k), s');
    ReachFurther(h, ids, s, [StartAttempt(p, k)], s');
  }

  lemma BeginTwo(h: Hypothesis, ids: set<InstanceId>, s: Network, k1: Key, k2: Key) returns (s': Network)
    requires Reachable(h, ids, s) && Settled(s, k1.typeName, None) && k1.typeName == k2.typeName && k1 != k2
    requires Unused(s, k1) && Unused(s, k2)
    ensures Reachable(h, ids, s') && s'.nodes == s.nodes && Settled(s', k1.typeName, None)
    ensures Ready(s', k1.ballot.instanceId, k1) && Ready(s', k2.ballot.instanceId, k2)
    ensures forall k :: k != k1 && k != k2 && Unused(s, k) ==> Unused(s', k)
  {
    assert Idle(s, k1.ballot.instanceId, k1.typeName) && Idle(s, k2.ballot.instanceId, k1.typeName);
    var m := BeginOne(h, ids, s, k1);
    s' := BeginOne(h, ids, m, k2);
  }

  // ----- An even number of nodes: one half promises, the other half approves

  ghost predicate Halves(s: Network, q: seq<InstanceId>, half: nat, j: nat) {
    && Distinct(q) && Members(q) == s.nodes.Keys && |q| == |s.nodes| == 2 * half
    && 1 <= half && j < half
  }

  /** Proposer `q[j]` hears the second half and is approved by the first, its own. */
  function HalfPlan(q: seq<InstanceId>, half: nat, j: nat, key: Key, draw: Address): Plan
    requires half <= |q| && j < |q|
  {
    Plan(key, draw, Without(q, j), q[half..], q[..half], q[..half])
  }

  lemma HalfFeasible(s: Network, q: seq<InstanceId>, half: nat, j: nat, key: Key, draw: Address)
    requires Halves(s, q, half, j) && key.ballot.instanceId == q[j] && Ready(s, q[j], key)
    requires forall n :: n in s.nodes && key.typeName in s.nodes[n].proposals ==>
               && ProposalIsNewer(s.nodes[n].proposals[key.typeName].ballot, key.ballot)
               && !Dangling(s, n, key.typeName)
    requires forall n :: n in s.nodes ==> s.nodes[n].id == n
    ensures Feasible(NoDangling, s, HalfPlan(q, half, j, key, draw))
  {
    var x := HalfPlan(q, half, j, key, draw);
    WithoutContents(q, j);
    forall id | id in q ensures id in s.nodes {
      assert id in Members(q);
    }
    forall id | id in x.promisers ensures WillPromise(NoDangling, s, key, id) {
    }
    forall id | id in x.heard ensures id in s.nodes && id in x.promisers {
      var i :| half <= i < |q| && q[i] == id;
    }
    forall id | id in x.acceptors ensures id in s.nodes && (id in x.promisers || id == q[j]) {
    }
  }

  /** No report carries an address, so the attempt proposes what it drew. */
  lemma PicksDraw(s: Network, x: Plan)
    requires forall id :: id in x.heard ==> id in s.nodes && Reported(s.nodes[id], x.key.typeName).multicastIp == None
    ensures WithData(Reports(s, x)) == [] && Picked(Reports(s, x), x.draw) == x.draw
  {
    var ms := Reports(s, x);
    forall m | m in ms ensures m.multicastIp == None {
      var i :| 0 <= i < |ms| && ms[i] == m;
      assert x.heard[i] in x.heard;
    }
    WithDataNone(ms);
  }

  lemma AttemptReaches(h: Hypothesis, ids: set<InstanceId>, s: Network, x: Plan) returns (s': Network)
    requires Reachable(h, ids, s) && Feasible(h, s, x)
    ensures Reachable(h, ids, s') && AttemptOver(s, s', x, Picked(Reports(s, x), x.draw))
  {
    s' := AttemptRun(h, s, x);
    ReachFurther(h, ids, s, AttemptEvents(s, x), s');
  }

  /** After the first half attempt: the first half holds its address, the second half only promised. */
  ghost predicate HalfDone(s: Network, q: seq<InstanceId>, half: nat, key: Key, a: Address)
    requires half <= |q|
  {
    && (forall i :: 0 <= i < half ==>
          Keeps(s, q[i], key.typeName, Record(key.ballot, Some(a))) && Accepted(s, q[i], key))
    && (forall i :: half <= i < |q| ==> Keeps(s, q[i], key.typeName, Record(key.ballot, None)))
  }

  lemma FirstHalf(ids: set<InstanceId>, s: Network, q: seq<InstanceId>, half: nat, key: Key, a: Address)
    returns (s': Network)
    requires Reachable(NoDangling, ids, s) && Halves(s, q, half, 0) && Settled(s, key.typeName, None)
    requires key.ballot.instanceId == q[0] && Ready(s, q[0], key)
    ensures Reachable(NoDangling, ids, s') && Halves(s', q, half, 0)
    ensures HalfDone(s', q, half, key, a)
    ensures key in s'.log.returned && s'.log.returned[key] == a
    ensures forall p, k :: k != key && Ready(s, p, k) ==> Ready(s', p, k)
    ensures forall n :: n in s'.nodes ==> s'.nodes[n].id == n
  {
    var x := HalfPlan(q, half, 0, key, a);
    forall n | n in s.nodes ensures s.nodes[n].id == n && key.typeName !in s.nodes[n].proposals {
      assert Idle(s, n, key.typeName);
    }
    HalfFeasible(s, q, half, 0, key, a);
    PicksDraw(s, x);
    s' := AttemptReaches(NoDangling, ids, s, x);
    SameSize(s.nodes, s'.nodes);
    HalfResult(s, s', q, half, key, a);
  }

  lemma HalfNode(s: Network, s': Network, q: seq<InstanceId>, half: nat, key: Key, a: Address, i: nat)
    requires Halves(s, q, half, 0) && Settled(s, key.typeName, None) && key.ballot.instanceId == q[0] && i < |q|
    requires NodesAfter(s, s', HalfPlan(q, half, 0, key, a), a)
    ensures Keeps(s', q[i], key.typeName, Record(key.ballot, if i < half then Some(a) else None))
  {
    var x := HalfPlan(q, half, 0, key, a);
    WithoutContents(q, 0);
    assert q[i] in Members(q) && Idle(s, q[i], key.typeName);
    assert s'.nodes[q[i]].proposals == RecordsAfter(s, x, a, q[i]);
    assert i < half ==> q[..half][i] in x.acceptors;
    assert i >= half ==> q[i] !in x.acceptors && q[i] in x.promisers;
  }

  ghost predicate HalfKept(s: Network, q: seq<InstanceId>, half: nat, key: Key, a: Address) {
    forall i :: 0 <= i < |q| ==> Keeps(s, q[i], key.typeName, Record(key.ballot, if i < half then Some(a) else None))
  }

  lemma HalfKeeps(s: Network, s': Network, q: seq<InstanceId>, half: nat, key: Key, a: Address)
    requires Halves(s, q, half, 0) && Settled(s, key.typeName, None) && key.ballot.instanceId == q[0]
    requires NodesAfter(s, s', HalfPlan(q, half, 0, key, a), a)
    ensures HalfKept(s', q, half, key, a)
  {
    forall i | 0 <= i < |q|
      ensures Keeps(s', q[i], key.typeName, Record(key.ballot, if i < half then Some(a) else None))
    {
      HalfNode(s, s', q, half, key, a, i);
    }
  }

  lemma HalfAccepted(s: Network, s': Network, q: seq<InstanceId>, half: nat, key: Key, a: Address)
    requires 0 < half <= |q|
    requires NodesAfter(s, s', HalfPlan(q, half, 0, key, a), a) && LogAfter(s, s', HalfPlan(q, half, 0, key, a), a)
    ensures forall i :: 0 <= i < half ==> Accepted(s', q[i], key)
  {
  }

  lemma HalfBoth(s: Network, q: seq<InstanceId>, half: nat, key: Key, a: Address)
    requires half <= |q| && HalfKept(s, q, half, key, a)
    requires forall i :: 0 <= i < half ==> Accepted(s, q[i], key)
    ensures HalfDone(s, q, half, key, a)
  {
  }

  lemma HalfResult(s: Network, s': Network, q: seq<InstanceId>, half: nat, key: Key, a: Address)
    requires Halves(s, q, half, 0) && Settled(s, key.typeName, None) && key.ballot.instanceId == q[0]
    requires NodesAfter(s, s', HalfPlan(q, half, 0, key, a), a) && LogAfter(s, s', HalfPlan(q, half, 0, key, a), a)
    ensures HalfDone(s', q, half, key, a)
  {
    HalfKeeps(s, s', q, half, key, a);
    HalfAccepted(s, s', q, half, key, a);
    HalfBoth(s', q, half, key, a);
  }

  lemma SecondHalf(ids: set<InstanceId>, s: Network, q: seq<InstanceId>, half: nat, j: nat, k1: Key, k2: Key,
                   a: Address, b: Address)
    returns (s': Network)
    requires Reachable(NoDangling, ids, s) && Halves(s, q, half, j) && HalfDone(s, q, half, k1, a)
    requires k1.typeName == k2.typeName && ProposalIsNewer(k1.ballot, k2.ballot)
    requires k2.ballot.instanceId == q[j] && Ready(s, q[j], k2)
    requires forall n :: n in s.nodes ==> s.nodes[n].id == n
    ensures Reachable(NoDangling, ids, s')
    ensures k2 in s'.log.returned && s'.log.returned[k2] == b
    ensures forall k :: k in s.log.returned && k != k2 ==>
                k in s'.log.returned && s'.log.returned[k] == s.log.returned[k]
  {
    var x := HalfPlan(q, half, j, k2, b);
    forall n | n in s.nodes && k2.typeName in s.nodes[n].proposals
      ensures ProposalIsNewer(s.nodes[n].proposals[k2.typeName].ballot, k2.ballot) && !Dangling(s, n, k2.typeName)
    {
      assert n in Members(q);
      var i :| 0 <= i < |q| && q[i] == n;
      assert i < half ==> Keeps(s, q[i], k1.typeName, Record(k1.ballot, Some(a)));
      assert i >= half ==> Keeps(s, q[i], k1.typeName, Record(k1.ballot, None));
    }
    HalfFeasible(s, q, half, j, k2, b);
    forall id | id in x.heard ensures id in s.nodes && Reported(s.nodes[id], k2.typeName).multicastIp == None {
      var i :| half <= i < |q| && q[i] == id;
      assert Keeps(s, q[i], k1.typeName, Record(k1.ballot, None));
    }
    PicksDraw(s, x);
    s' := AttemptReaches(NoDangling, ids, s, x);
  }

  /**
   * On any even number of nodes two attempts can return different addresses for one type, although both
   * began before either ended, every promise was honest and all counts were right. With four nodes or
   * more the two proposers are different nodes.
   */
  lemma EvenDisagree(ids: set<InstanceId>, t: TypeName, a: Address, b: Address) returns (s: Network, k1: Key, k2: Key)
    requires |ids| % 2 == 0 && ids != {}
    ensures Reachable(NoDangling, ids, s)
    ensures k1 in s.log.returned && k2 in s.log.returned && k1.typeName == k2.typeName == t && k1 != k2
    ensures s.log.returned[k1] == a && s.log.returned[k2] == b
    ensures |ids| >= 4 ==> k1.ballot.instanceId != k2.ballot.instanceId
  {
    var q := Enumerate(ids);
    var half := |ids| / 2;
    var j := if half >= 2 then 1 else 0;
    k1, k2 := Key(t, Ballot(1, q[0])), Key(t, Ballot(2, q[j]));
    var s0 := MetBlank(NoDangling, ids, t);
    assert q[0] in Members(q) && q[j] in Members(q);
    var s1 := BeginTwo(NoDangling, ids, s0, k1, k2);
    assert |s1.nodes| == |s1.nodes.Keys|;
    var s2 := FirstHalf(ids, s1, q, half, k1, a);
    s := SecondHalf(ids, s2, q, half, j, k1, k2, a, b);
  }

  // ----- Four nodes or more: a stale address reported under a ballot it was never accepted at

  ghost predicate RecordsOlder(s: Network, key: Key) {
    && (forall n :: n in s.nodes ==> s.nodes[n].id == n)
    && NewerThanAll(s, key)
  }

  /** A plan in which all nodes but the proposer `q[j]` promise, for records older than its ballot. */
  ghost predicate Sound(s: Network, q: seq<InstanceId>, j: nat, x: Plan) {
    && Distinct(q) && Members(q) == s.nodes.Keys && j < |q|
    && x.key.ballot.instanceId == q[j] && x.promisers == Without(q, j) && Ready(s, q[j], x.key)
    && RecordsOlder(s, x.key)
    && Distinct(x.heard) && Distinct(x.acceptors) && x.voters == x.acceptors
    && (forall id :: id in x.heard ==> id in q && id != q[j]) && (forall id :: id in x.acceptors ==> id in q)
    && 2 * |x.heard| >= |s.nodes|
  }

  lemma SoundFeasible(s: Network, q: seq<InstanceId>, j: nat, x: Plan)
    requires Sound(s, q, j, x)
    ensures Feasible(Basic, s, x)
  {
    WithoutContents(q, j);
    forall id | id in q ensures id in s.nodes {
      assert id in Members(q);
    }
    forall id | id in x.promisers ensures WillPromise(Basic, s, x.key, id) {
    }
    forall id | id in x.acceptors ensures id in s.nodes && (id in x.promisers || id == q[j]) {
    }
  }

  /** All records are at the ballot of `key`; `q[0]` holds `v`, every other node holds `w`. */
  ghost predicate AllAt(s: Network, q: seq<InstanceId>, key: Key, v: Option<Address>, w: Option<Address>) {
    && Distinct(q) && Members(q) == s.nodes.Keys && |q| == |s.nodes|
    && (forall n :: n in s.nodes ==> s.nodes[n].id == n)
    && forall i :: 0 <= i < |q| ==> Keeps(s, q[i], key.typeName, Record(key.ballot, if i == 0 then v else w))
  }

  lemma AllOlder(s: Network, q: seq<InstanceId>, key: Key, v: Option<Address>, w: Option<Address>, k: Key)
    requires AllAt(s, q, key, v, w) && k.typeName == key.typeName && ProposalIsNewer(key.ballot, k.ballot)
    ensures RecordsOlder(s, k)
  {
  }

  lemma SoundAt(s: Network, s': Network, q: seq<InstanceId>, j: nat, x: Plan, a: Address, i: nat, v: Option<Address>)
    requires Sound(s, q, j, x) && NodesAfter(s, s', x, a) && i < |q|
    requires v == if i == j || q[i] in x.acceptors then Some(a) else Reported(s.nodes[q[i]], x.key.typeName).multicastIp
    ensures Keeps(s', q[i], x.key.typeName, Record(x.key.ballot, v))
  {
    WithoutContents(q, j);
    assert q[i] in Members(q) && q[i] in q;
    assert s'.nodes[q[i]].proposals == RecordsAfter(s, x, a, q[i]);
  }

  /** The addresses after a sound plan: acceptors and the proposer hold the proposal's, others keep theirs. */
  lemma SoundResult(s: Network, s': Network, q: seq<InstanceId>, j: nat, x: Plan, a: Address, v: Option<Address>,
                    w: Option<Address>)
    requires Sound(s, q, j, x) && NodesAfter(s, s', x, a) && |q| == |s.nodes|
    requires forall i :: 0 <= i < |q| ==>
               (if i == j || q[i] in x.acceptors then Some(a) else Reported(s.nodes[q[i]], x.key.typeName).multicastIp)
                 == if i == 0 then v else w
    ensures AllAt(s', q, x.key, v, w)
  {
    SameSize(s.nodes, s'.nodes);
    forall i | 0 <= i < |q| ensures Keeps(s', q[i], x.key.typeName, Record(x.key.ballot, if i == 0 then v else w)) {
      SoundAt(s, s', q, j, x, a, i, if i == 0 then v else w);
    }
  }

  function LonePlan(q: seq<InstanceId>, key: Key, draw: Address): Plan
    requires |q| >= 4
  {
    Plan(key, draw, Without(q, 0), q[1..], [], [])
  }

  function MajorityPlan(q: seq<InstanceId>, key: Key, draw: Address): Plan
    requires |q| >= 4
  {
    Plan(key, draw, Without(q, 1), q[2..], q[1..], q[1..])
  }

  /** The stale reporter is heard last. */
  function StalePlan(q: seq<InstanceId>, key: Key, draw: Address): Plan
    requires |q| >= 4
  {
    Plan(key, draw, Without(q, 2), [q[1]] + q[3..] + [q[0]], q, q)
  }

  lemma BlankRecords(s: Network, q: seq<InstanceId>, t: TypeName)
    requires Blank(s, q, t)
    ensures forall n :: n in s.nodes ==> s.nodes[n].id == n && t !in s.nodes[n].proposals
    ensures forall id :: id in q ==> id in s.nodes
  {
    forall n | n in s.nodes ensures s.nodes[n].id == n && t !in s.nodes[n].proposals {
      assert Idle(s, n, t);
    }
    forall id | id in q ensures id in s.nodes {
      assert id in Members(q);
    }
  }

  lemma LoneSound(s: Network, q: seq<InstanceId>, key: Key, a: Address)
    requires |q| >= 4 && Blank(s, q, key.typeName) && key.ballot.instanceId == q[0] && Ready(s, q[0], key)
    ensures Sound(s, q, 0, LonePlan(q, key, a)) && Picked(Reports(s, LonePlan(q, key, a)), a) == a
  {
    BlankRecords(s, q, key.typeName);
    PicksDraw(s, LonePlan(q, key, a));
  }

  /** Only the proposer itself ends up holding `a`. */
  lemma LoneResult(s: Network, s': Network, q: seq<InstanceId>, key: Key, a: Address)
    requires |q| >= 4 && Blank(s, q, key.typeName) && Sound(s, q, 0, LonePlan(q, key, a))
    requires NodesAfter(s, s', LonePlan(q, key, a), a)
    ensures AllAt(s', q, key, Some(a), None)
  {
    forall i | 0 <= i < |q| ensures Reported(s.nodes[q[i]], key.typeName).multicastIp == None {
      assert q[i] in Members(q) && Idle(s, q[i], key.typeName);
    }
    SoundResult(s, s', q, 0, LonePlan(q, key, a), a, Some(a), None);
  }

  lemma LoneStep(ids: set<InstanceId>, s: Network, q: seq<InstanceId>, key: Key, a: Address) returns (s': Network)
    requires |q| >= 4 && Reachable(Basic, ids, s) && Blank(s, q, key.typeName)
    requires key.ballot.instanceId == q[0] && Ready(s, q[0], key)
    ensures Reachable(Basic, ids, s') && AllAt(s', q, key, Some(a), None)
    ensures forall p, k :: k != key && Ready(s, p, k) ==> Ready(s', p, k)
  {
    LoneSound(s, q, key, a);
    SoundFeasible(s, q, 0, LonePlan(q, key, a));
    s' := AttemptReaches(Basic, ids, s, LonePlan(q, key, a));
    LoneResult(s, s', q, key, a);
  }

  lemma MajorityReports(s: Network, q: seq<InstanceId>, k1: Key, a: Address)
    requires |q| >= 4 && AllAt(s, q, k1, Some(a), None)
    ensures forall id :: id in q[2..] ==> id in s.nodes && Reported(s.nodes[id], k1.typeName).multicastIp == None
  {
    forall id | id in q[2..] ensures id in s.nodes && Reported(s.nodes[id], k1.typeName).multicastIp == None {
      var i :| 2 <= i < |q| && q[i] == id;
      assert Keeps(s, q[i], k1.typeName, Record(k1.ballot, None));
    }
  }

  lemma MajoritySound(s: Network, q: seq<InstanceId>, k1: Key, key: Key, a: Address, b: Address)
    requires |q| >= 4 && AllAt(s, q, k1, Some(a), None)
    requires k1.typeName == key.typeName && ProposalIsNewer(k1.ballot, key.ballot)
    requires key.ballot.instanceId == q[1] && Ready(s, q[1], key)
    ensures Sound(s, q, 1, MajorityPlan(q, key, b)) && Picked(Reports(s, MajorityPlan(q, key, b)), b) == b
  {
    AllOlder(s, q, k1, Some(a), None, key);
    MajorityReports(s, q, k1, a);
    PicksDraw(s, MajorityPlan(q, key, b));
  }

  lemma MajorityResult(s: Network, s': Network, q: seq<InstanceId>, k1: Key, key: Key, a: Address, b: Address)
    requires |q| >= 4 && AllAt(s, q, k1, Some(a), None) && k1.typeName == key.typeName
    requires Sound(s, q, 1, MajorityPlan(q, key, b)) && NodesAfter(s, s', MajorityPlan(q, key, b), b)
    ensures AllAt(s', q, key, Some(a), Some(b))
    ensures forall i :: 1 <= i < |q| ==> Envelope(q[i], Approval(key, b)) in s'.sent
  {
    var x := MajorityPlan(q, key, b);
    forall i | 0 <= i < |q|
      ensures i > 0 ==> q[i] in x.acceptors
      ensures i == 0 ==> q[i] !in x.acceptors && Reported(s.nodes[q[i]], key.typeName).multicastIp == Some(a)
    {
      assert i > 0 ==> q[1..][i - 1] == q[i];
      assert Keeps(s, q[i], key.typeName, Record(k1.ballot, if i == 0 then Some(a) else None));
    }
    SoundResult(s, s', q, 1, x, b, Some(a), Some(b));
  }

  /** Everyone but `q[0]` accepts `b`; `q[0]` promises and is left holding the old address. */
  lemma MajorityStep(ids: set<InstanceId>, s: Network, q: seq<InstanceId>, k1: Key, key: Key, a: Address, b: Address)
    returns (s': Network)
    requires |q| >= 4 && Reachable(Basic, ids, s) && AllAt(s, q, k1, Some(a), None)
    requires k1.typeName == key.typeName && ProposalIsNewer(k1.ballot, key.ballot)
    requires key.ballot.instanceId == q[1] && Ready(s, q[1], key)
    ensures Reachable(Basic, ids, s') && AllAt(s', q, key, Some(a), Some(b))
    ensures key in s'.log.decisions && s'.log.decisions[key].address == b
    ensures key in s'.log.returned && s'.log.returned[key] == b
    ensures forall i :: 1 <= i < |q| ==> Envelope(q[i], Approval(key, b)) in s'.sent
    ensures forall p, k :: k != key && Ready(s, p, k) ==> Ready(s', p, k)
  {
    MajoritySound(s, q, k1, key, a, b);
    SoundFeasible(s, q, 1, MajorityPlan(q, key, b));
    s' := AttemptReaches(Basic, ids, s, MajorityPlan(q, key, b));
    MajorityResult(s, s', q, k1, key, a, b);
  }

  /** All reports name the same ballot, so the one heard last decides. */
  lemma PicksLast(s: Network, x: Plan, ballot: Ballot, a: Address)
    requires x.heard != []
    requires forall id :: id in x.heard ==>
               (&& id in s.nodes && Reported(s.nodes[id], x.key.typeName).multicastIp.Some?
                && Reported(s.nodes[id], x.key.typeName).ballot == ballot)
    requires Reported(s.nodes[x.heard[|x.heard| - 1]], x.key.typeName).multicastIp == Some(a)
    ensures Picked(Reports(s, x), x.draw) == a
  {
    var ms := Reports(s, x);
    forall i | 0 <= i < |ms| ensures ms[i].multicastIp.Some? && ms[i].accepted == ballot {
      assert x.heard[i] in x.heard;
    }
    WithDataAll(ms);
    var i := NewestOfIsLastMaximum(ms);
    assert ms[|ms| - 1].accepted == ms[i].accepted;
  }

  lemma StaleHeard(q: seq<InstanceId>)
    requires |q| >= 4 && Distinct(q)
    ensures Distinct([q[1]] + q[3..] + [q[0]])
    ensures forall id :: id in [q[1]] + q[3..] + [q[0]] ==> id in q && id != q[2]
  {
  }

  lemma StaleSound(s: Network, q: seq<InstanceId>, k2: Key, key: Key, a: Address, b: Address)
    requires |q| >= 4 && AllAt(s, q, k2, Some(a), Some(b))
    requires k2.typeName == key.typeName && ProposalIsNewer(k2.ballot, key.ballot)
    requires key.ballot.instanceId == q[2] && Ready(s, q[2], key)
    ensures Sound(s, q, 2, StalePlan(q, key, 0)) && Picked(Reports(s, StalePlan(q, key, 0)), 0) == a
  {
    var x := StalePlan(q, key, 0);
    AllOlder(s, q, k2, Some(a), Some(b), key);
    StaleHeard(q);
    forall id | id in x.heard
      ensures id in s.nodes && Reported(s.nodes[id], key.typeName).multicastIp.Some?
      ensures Reported(s.nodes[id], key.typeName).ballot == k2.ballot
    {
      var i :| 0 <= i < |q| && q[i] == id;
      assert Keeps(s, q[i], key.typeName, Record(k2.ballot, if i == 0 then Some(a) else Some(b)));
    }
    assert Keeps(s, q[0], key.typeName, Record(k2.ballot, Some(a)));
    PicksLast(s, x, k2.ballot, a);
  }

  /** A third attempt hears the stale address last and proposes it, against the majority's choice. */
  lemma StaleStep(ids: set<InstanceId>, s: Network, q: seq<InstanceId>, k2: Key, key: Key, a: Address, b: Address)
    returns (s': Network)
    requires |q| >= 4 && Reachable(Basic, ids, s) && AllAt(s, q, k2, Some(a), Some(b))
    requires k2.typeName == key.typeName && ProposalIsNewer(k2.ballot, key.ballot)
    requires key.ballot.instanceId == q[2] && Ready(s, q[2], key)
    ensures Reachable(Basic, ids, s')
    ensures key in s'.log.decisions && s'.log.decisions[key].address == a
    ensures key in s'.log.returned && s'.log.returned[key] == a
    ensures forall k :: k in s.log.returned && k != key ==>
                k in s'.log.returned && s'.log.returned[k] == s.log.returned[k]
    ensures forall n :: n in q ==> Envelope(n, Approval(key, a)) in s'.sent
    ensures s.sent <= s'.sent && s'.nodes.Keys == s.nodes.Keys
    ensures forall k :: k in s.log.decisions && k != key ==>
                k in s'.log.decisions && s'.log.decisions[k] == s.log.decisions[k]
  {
    StaleSound(s, q, k2, key, a, b);
    SoundFeasible(s, q, 2, StalePlan(q, key, 0));
    s' := AttemptReaches(Basic, ids, s, StalePlan(q, key, 0));
    StaleLogged(s, s', q, key, a);
  }

  lemma StaleLogged(s: Network, s': Network, q: seq<InstanceId>, key: Key, a: Address)
    requires |q| >= 4 && |q| == |s.nodes| && LogAfter(s, s', StalePlan(q, key, 0), a)
    ensures key in s'.log.returned && s'.log.returned[key] == a
    ensures forall k :: k in s.log.returned && k != key ==>
                k in s'.log.returned && s'.log.returned[k] == s.log.returned[k]
    ensures key in s'.log.decisions && s'.log.decisions[key].address == a
    ensures forall k :: k in s.log.decisions && k != key ==>
                k in s'.log.decisions && s'.log.decisions[k] == s.log.decisions[k]
  {
  }

  /** Two ballots of a type were chosen, and their proposers were returned their two addresses. */
  ghost predicate Disagrees(s: Network, k1: Key, k2: Key, a: Address, b: Address) {
    && Chosen(s, k1) && Chosen(s, k2)
    && s.log.decisions[k1].address == a && s.log.decisions[k2].address == b
    && k1 in s.log.returned && s.log.returned[k1] == a
    && k2 in s.log.returned && s.log.returned[k2] == b
  }

  lemma MostApproved(s: Network, q: seq<InstanceId>, from: nat, key: Key, a: Address)
    requires Distinct(q) && Members(q) == s.nodes.Keys && |q| == |s.nodes| >= 3 && from <= 1
    requires key in s.log.decisions && s.log.decisions[key].address == a
    requires forall i :: from <= i < |q| ==> Envelope(q[i], Approval(key, a)) in s.sent
    ensures Chosen(s, key)
  {
    forall id | id in Members(q[from..]) ensures id in Approvers(s, key) {
      var i :| from <= i < |q| && q[i] == id;
      assert id in Members(q);
    }
    DistinctSize(q[from..]);
    SubsetSize(Members(q[from..]), Approvers(s, key));
  }

  lemma BlankAgain(s: Network, s': Network, q: seq<InstanceId>, t: TypeName)
    requires Distinct(q) && |q| == |s.nodes.Keys| && Members(q) == s.nodes.Keys && s'.nodes == s.nodes
    requires Settled(s', t, None)
    ensures Blank(s', q, t)
  {
  }

  lemma BeginThree(ids: set<InstanceId>, q: seq<InstanceId>, k1: Key, k2: Key, k3: Key) returns (s: Network)
    requires Distinct(q) && Members(q) == ids && |q| == |ids| >= 4
    requires k1.typeName == k2.typeName == k3.typeName && k1 != k2 && k2 != k3 && k1 != k3
    requires k1.ballot.instanceId == q[0] && k2.ballot.instanceId == q[1] && k3.ballot.instanceId == q[2]
    ensures Reachable(Basic, ids, s) && Blank(s, q, k1.typeName)
    ensures Ready(s, q[0], k1) && Ready(s, q[1], k2) && Ready(s, q[2], k3)
  {
    var met := MetBlank(Basic, ids, k1.typeName);
    assert q[0] in Members(q) && q[1] in Members(q) && q[2] in Members(q);
    var m := BeginTwo(Basic, ids, met, k1, k2);
    s := BeginOne(Basic, ids, m, k3);
    BlankAgain(met, s, q, k1.typeName);
  }

  lemma StaleTwo(ids: set<InstanceId>, q: seq<InstanceId>, k1: Key, k2: Key, k3: Key, a: Address, b: Address)
    returns (s: Network)
    requires Distinct(q) && Members(q) == ids && |q| == |ids| >= 4
    requires k1.typeName == k2.typeName == k3.typeName && ProposalIsNewer(k1.ballot, k2.ballot)
    requires ProposalIsNewer(k2.ballot, k3.ballot)
    requires k1.ballot.instanceId == q[0] && k2.ballot.instanceId == q[1] && k3.ballot.instanceId == q[2]
    ensures Reachable(Basic, ids, s) && AllAt(s, q, k2, Some(a), Some(b)) && Ready(s, q[2], k3)
    ensures k2 in s.log.decisions && s.log.decisions[k2].address == b
    ensures k2 in s.log.returned && s.log.returned[k2] == b
    ensures forall i :: 1 <= i < |q| ==> Envelope(q[i], Approval(k2, b)) in s.sent
  {
    var s0 := BeginThree(ids, q, k1, k2, k3);
    var s1 := LoneStep(ids, s0, q, k1, a);
    s := MajorityStep(ids, s1, q, k1, k2, a, b);
  }

  /**
   * On any four nodes or more two addresses can both be approved by strict majorities and returned, each for
   * its own ballot, because a promise reports the ballot of the record and not the one its address was accepted at.
   */
  lemma StaleDisagree(ids: set<InstanceId>, t: TypeName, a: Address, b: Address) returns (s: Network, k2: Key, k3: Key)
    requires |ids| >= 4
    ensures Reachable(Basic, ids, s) && k2.typeName == k3.typeName == t && k2 != k3 && Disagrees(s, k2, k3, b, a)
  {
    var q := Enumerate(ids);
    k2, k3 := Key(t, Ballot(2, q[1])), Key(t, Ballot(3, q[2]));
    var m := StaleTwo(ids, q, Key(t, Ballot(1, q[0])), k2, k3, a, b);
    s := StaleStep(ids, m, q, k2, k3, a, b);
    BothApproved(m, s, q, k2, k3, a, b);
  }

  lemma BothApproved(m: Network, s: Network, q: seq<InstanceId>, k2: Key, k3: Key, a: Address, b: Address)
    requires Distinct(q) && Members(q) == m.nodes.Keys == s.nodes.Keys && |q| == |m.nodes| >= 3
    requires m.sent <= s.sent
    requires k2 in s.log.decisions && s.log.decisions[k2].address == b && k3 in s.log.decisions
    requires s.log.decisions[k3].address == a
    requires forall i :: 1 <= i < |q| ==> Envelope(q[i], Approval(k2, b)) in m.sent
    requires forall n :: n in q ==> Envelope(n, Approval(k3, a)) in s.sent
    ensures Chosen(s, k2) && Chosen(s, k3)
  {
    SameSize(m.nodes, s.nodes);
    MostApproved(s, q, 1, k2, b);
    MostApproved(s, q, 0, k3, a);
  }
}
