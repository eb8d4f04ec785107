/**
 * Attempts run one at a time with all peers answering: the type's address is a write-once register. The
 * messages of an attempt may arrive in any order, again and again, and interleave with whatever the nodes
 * do about other types, of which nothing is assumed.
 */
module Register {
  import opened Wrappers
  import opened Ballots
  import opened ConsensusNode
  import opened ConsensusNetwork
  import opened ConsensusInvariants
  import opened ConsensusCounting
  import opened Agreement
  import opened Rounds
  import opened Attempts
  import opened Beginnings
  import opened Locality

  /** Nobody holds an address for the type, or everybody holds `v`, and peers are known. */
  ghost predicate Steady(s: Network, t: TypeName, v: Option<Address>) {
    forall n :: n in s.nodes ==>
      && s.nodes[n].id == n && s.nodes[n].numPeers == |s.nodes|
      && Reported(s.nodes[n], t).multicastIp == v
  }

  /** All other nodes' promises have been heard before the promise wait ends. */
  ghost predicate AllHeard(s: Network, k: Key) {
    var p := k.ballot.instanceId;
    forall n :: n in s.nodes && n != p ==> n in PromisersOf(s, p, k.typeName)
  }

  /** All other nodes' approvals have been counted before the approval wait ends. */
  ghost predicate AllCounted(s: Network, k: Key) {
    var p := k.ballot.instanceId;
    forall n :: n in s.nodes && n != p ==> Count(p, k, n) in s.books.counted
  }

  /** At most half of the peers have rejected the attempt, which duplicated preparations make them do. */
  predicate FewRejections(s: Network, k: Key)
    requires k.ballot.instanceId in s.nodes
  {
    2 * RejectionsFor(s.nodes[k.ballot.instanceId], k.typeName) <= |s.nodes|
  }

  /**
   * About its type, only the attempt at `k` is made, with `draw` as what it would draw, and all peers answer.
   * Answers to earlier attempts and rejections of any may still arrive.
   */
  ghost predicate Alone(s: Network, k: Key, draw: Address, e: Event)
    requires Enabled(s, e)
  {
    var t := k.typeName;
    match e
    case SetPeers(_, count) => count == |s.nodes|
    case StartAttempt(_, key) => key.typeName == t ==> key == k
    case SendProposal(_, key) => key.typeName == t ==> key == k
    case ClosePromises(_, key, drawn) =>
      key.typeName == t ==> key == k && drawn == Some(draw) && AllHeard(s, k) && FewRejections(s, k)
    case CloseApprovals(_, key) => key.typeName == t ==> key == k && AllCounted(s, k)
    case ReceivePreparation(_, env) => env.msg.key.typeName == t ==> env.msg.key == k
    case ReceiveProposal(_, env) => env.msg.key.typeName == t ==> env.msg.key == k
    case _ => true
  }

  /** Such a run, which keeps the assumptions where the type is concerned. */
  ghost predicate Undisturbed(s: Network, k: Key, draw: Address, es: seq<Event>, m: Network)
    decreases |es|
  {
    if es == [] then m == s
    else
      && PermitsFor(Basic, k.typeName, s, es[0]) && Alone(s, k, draw, es[0])
      && Undisturbed(Step(s, es[0]), k, draw, es[1..], m)
  }

  /** The attempt may begin: its ballot is unused and newer than every record. */
  ghost predicate MayBegin(s: Network, k: Key) {
    k.ballot.instanceId in s.nodes && k !in s.log.prepared && NewerThanAll(s, k)
  }

  // ----- What every event of an undisturbed attempt keeps

  /** What an undisturbed attempt ends with. */
  function Settling(v: Option<Address>, draw: Address): Address {
    if v.Some? then v.value else draw
  }

  /** How far the attempt is: whether it was announced, and whether it is over. */
  datatype Stage = Stage(proposed: bool, finished: bool)

  function StageOf(m: Network, k: Key): Stage {
    Stage(k in m.log.proposed, k in m.log.finished)
  }

  /** A node still holds `v`, or it took over the attempt's address `a`; once the attempt is over it holds `a`. */
  predicate NodeMid(n: Node, id: InstanceId, size: nat, k: Key, v: Option<Address>, a: Address, stage: Stage) {
    var t := k.typeName;
    var r := Reported(n, t);
    && n.id == id && n.numPeers == size
    && (t in n.proposals ==> AtMost(r.ballot, k.ballot))
    && (r.multicastIp == v || (stage.proposed && t in n.proposals && r == Record(k.ballot, Some(a))))
    && (stage.finished ==> r.multicastIp == Some(a))
  }

  ghost predicate NodesMid(m: Network, k: Key, v: Option<Address>, a: Address) {
    forall n :: n in m.nodes ==> NodeMid(m.nodes[n], n, |m.nodes|, k, v, a, StageOf(m, k))
  }

  /** The promises to the attempt report `v`. */
  ghost predicate PromisesMid(m: Network, k: Key, v: Option<Address>) {
    forall env :: env in m.sent && env.msg.Promise? && env.msg.key == k ==> env.msg.multicastIp == v
  }

  predicate LogMid(m: Network, k: Key, a: Address) {
    && (k in m.log.closed ==> k in m.log.decisions)
    && (k in m.log.decisions ==> m.log.decisions[k].address == a)
    && (k in m.log.finished ==> k in m.log.returned && m.log.returned[k] == a)
  }

  /** The proposer has lost none of the approvals it counted. */
  ghost predicate CountMid(m: Network, k: Key) {
    var p := k.ballot.instanceId;
    p in m.nodes && ApprovalsFor(m.nodes[p], k) >= |CountedBy(m, p, k)|
  }

  ghost predicate Mid(m: Network, k: Key, v: Option<Address>, a: Address) {
    NodesMid(m, k, v, a) && PromisesMid(m, k, v) && LogMid(m, k, a) && CountMid(m, k)
  }

  lemma MidStart(s: Network, k: Key, v: Option<Address>, a: Address)
    requires Inv(s) && BooksOk(s) && Steady(s, k.typeName, v) && MayBegin(s, k)
    ensures Mid(s, k, v, a)
  {
    NotPreparedIsUnused(s, k);
    var p := k.ballot.instanceId;
    assert CountedBy(s, p, k) == {};
    forall env | env in s.sent ensures env.msg.key != k {
      assert MessageOk(s, env);
    }
  }

  // ----- One node's part

  lemma OnlyOneNode(m: Network, m': Network, n: InstanceId, k: Key, v: Option<Address>, a: Address)
    requires NodesMid(m, k, v, a) && n in m.nodes && n in m'.nodes && m'.nodes == m.nodes[n := m'.nodes[n]]
    requires StageOf(m', k) == StageOf(m, k) || (StageOf(m', k) == StageOf(m, k).(proposed := true))
    requires NodeMid(m'.nodes[n], n, |m.nodes|, k, v, a, StageOf(m', k))
    ensures NodesMid(m', k, v, a)
  {
    SameSize(m.nodes, m'.nodes);
    forall i | i in m'.nodes ensures NodeMid(m'.nodes[i], i, |m'.nodes|, k, v, a, StageOf(m', k)) {
      assert NodeMid(m.nodes[i], i, |m.nodes|, k, v, a, StageOf(m, k));
    }
  }

  /** The attempt's counter and what it stands for did not change. */
  lemma SameCount(m: Network, m': Network, k: Key)
    requires CountMid(m, k) && m'.nodes.Keys == m.nodes.Keys
    requires ApprovalsFor(m'.nodes[k.ballot.instanceId], k) == ApprovalsFor(m.nodes[k.ballot.instanceId], k)
    requires var p := k.ballot.instanceId;
             forall id :: Count(p, k, id) in m'.books.counted <==> Count(p, k, id) in m.books.counted
    ensures CountMid(m', k)
  {
    assert CountedBy(m', k.ballot.instanceId, k) == CountedBy(m, k.ballot.instanceId, k);
  }

  lemma NodePromises(n: Node, key: Key, id: InstanceId, size: nat, k: Key, v: Option<Address>, a: Address, stage: Stage)
    requires NodeMid(n, id, size, k, v, a, stage) && (key.typeName == k.typeName ==> key == k)
    ensures NodeMid(OnPreparation(n, key).0, id, size, k, v, a, stage)
    ensures var reply := OnPreparation(n, key).1;
            reply.Some? && reply.value.Promise? && reply.value.key == k ==> reply.value.multicastIp == v
  {
  }

  /** The parts of a node that the counting of answers changes do not matter. */
  lemma NodeCounting(n: Node, n': Node, id: InstanceId, size: nat, k: Key, v: Option<Address>, a: Address, stage: Stage)
    requires NodeMid(n, id, size, k, v, a, stage)
    requires n'.id == n.id && n'.numPeers == n.numPeers && n'.proposals == n.proposals
    ensures NodeMid(n', id, size, k, v, a, stage)
  {
  }

  // ----- Event by event

  lemma MidReceivePreparation(m: Network, n: InstanceId, key: Key, k: Key, v: Option<Address>, a: Address)
    requires n in m.nodes && Mid(m, k, v, a) && key == k
    ensures Mid(DoReceivePreparation(m, n, key), k, v, a)
  {
    var m' := DoReceivePreparation(m, n, key);
    NodePromises(m.nodes[n], key, n, |m.nodes|, k, v, a, StageOf(m, k));
    OnlyOneNode(m, m', n, k, v, a);
    SameCount(m, m', k);
  }

  lemma MidReceiveProposal(m: Network, n: InstanceId, key: Key, x: Address, k: Key, v: Option<Address>, a: Address)
    requires n in m.nodes && Mid(m, k, v, a) && (key.typeName == k.typeName ==>
                 key == k && x == a && k in m.log.proposed)
    ensures Mid(DoReceiveProposal(m, n, key, x), k, v, a)
  {
    var m' := DoReceiveProposal(m, n, key, x);
    assert NodeMid(m.nodes[n], n, |m.nodes|, k, v, a, StageOf(m, k));
    OnlyOneNode(m, m', n, k, v, a);
    SameCount(m, m', k);
  }

  lemma MidSendProposal(m: Network, key: Key, k: Key, v: Option<Address>, a: Address)
    requires key.ballot.instanceId in m.nodes && key in m.log.decisions && Mid(m, k, v, a)
    requires key.typeName == k.typeName ==> key == k
    ensures Mid(DoSendProposal(m, key.ballot.instanceId, key), k, v, a)
  {
    var m' := DoSendProposal(m, key.ballot.instanceId, key);
    assert NodeMid(m.nodes[key.ballot.instanceId], key.ballot.instanceId, |m.nodes|, k, v, a, StageOf(m, k));
    OnlyOneNode(m, m', key.ballot.instanceId, k, v, a);
    SameCount(m, m', k);
  }

  lemma MidReceiveApproval(m: Network, n: InstanceId, from: InstanceId, key: Key, x: Address, ok: bool, k: Key,
                           v: Option<Address>, a: Address)
    requires n in m.nodes && Mid(m, k, v, a)
    ensures Mid(DoReceiveApproval(m, n, from, key, x, ok), k, v, a)
  {
    var m' := DoReceiveApproval(m, n, from, key, x, ok);
    NodeCounting(m.nodes[n], m'.nodes[n], n, |m.nodes|, k, v, a, StageOf(m, k));
    OnlyOneNode(m, m', n, k, v, a);
    CountReceiveApproval(m, n, from, key, x, ok, k);
  }

  lemma CountReceiveApproval(m: Network, n: InstanceId, from: InstanceId, key: Key, x: Address, ok: bool, k: Key)
    requires n in m.nodes && CountMid(m, k) && m.nodes[n].id == n
    ensures CountMid(DoReceiveApproval(m, n, from, key, x, ok), k)
  {
    var m' := DoReceiveApproval(m, n, from, key, x, ok);
    var p := k.ballot.instanceId;
    if n == p && key == k {
      assert CountedBy(m', p, k) == CountedBy(m, p, k) + {from};
    } else {
      SameCount(m, m', k);
    }
  }

  /**
   * What the proposer has heard when all others answered: at least one report for each of them, and every
   * one of `v`.
   */
  lemma HeardReports(m: Network, k: Key, v: Option<Address>)
    requires PendingOk(m) && PromisesMid(m, k, v) && k.ballot.instanceId in m.nodes && AllHeard(m, k)
    requires forall r :: r in PromisesFor(m.nodes[k.ballot.instanceId], k.typeName) ==> r.key == k
    ensures var ms := PromisesFor(m.nodes[k.ballot.instanceId], k.typeName);
            |ms| >= |m.nodes| - 1 && forall r :: r in ms ==> r.multicastIp == v
  {
    var p, t := k.ballot.instanceId, k.typeName;
    var from, ms := PromisersOf(m, p, t), PromisesFor(m.nodes[p], t);
    assert Matches(m, from, ms);
    forall r | r in ms ensures r.multicastIp == v {
      var i :| 0 <= i < |ms| && ms[i] == r;
      assert Envelope(from[i], ms[i]) in m.sent;
    }
    MembersAtMost(from);
    SubsetSize(m.nodes.Keys - {p}, Members(from));
    assert |m.nodes.Keys - {p}| == |m.nodes| - 1;
  }

  lemma {:induction false} MembersAtMost(ids: seq<InstanceId>)
    ensures |Members(ids)| <= |ids|
  {
    if ids == [] {
      assert Members(ids) == {};
    } else {
      var last := |ids| - 1;
      MembersAtMost(ids[..last]);
      assert ids == ids[..last] + [ids[last]];
      assert Members(ids) == Members(ids[..last]) + {ids[last]};
    }
  }

  lemma JudgedUniform(ms: seq<PromiseMessage>, size: nat, rejections: nat, v: Option<Address>)
    requires size >= 2 && |ms| >= size - 1 && 2 * rejections <= size && forall r :: r in ms ==> r.multicastIp == v
    ensures Judge(size, ms, rejections) == if v.Some? then Repropose(v.value) else DrawFresh
  {
    if v.Some? {
      WithDataAll(ms);
      assert NewestOf(ms) in ms;
    } else {
      WithDataNone(ms);
    }
  }

  /** The attempt's own promise wait ends with its decision. */
  lemma MidCloseOwn(m: Network, k: Key, draw: Address, v: Option<Address>, a: Address)
    requires PendingOk(m) && Mid(m, k, v, a) && AllHeard(m, k) && a == Settling(v, draw) && |m.nodes| >= 2
    requires FewRejections(m, k) && k !in m.log.decisions
    requires forall r :: r in PromisesFor(m.nodes[k.ballot.instanceId], k.typeName) ==> r.key == k
    ensures Mid(DoClosePromises(m, k.ballot.instanceId, k, Some(draw)), k, v, a)
  {
    var p, t := k.ballot.instanceId, k.typeName;
    var m' := DoClosePromises(m, p, k, Some(draw));
    assert NodeMid(m.nodes[p], p, |m.nodes|, k, v, a, StageOf(m, k));
    HeardReports(m, k, v);
    JudgedUniform(PromisesFor(m.nodes[p], t), |m.nodes|, RejectionsFor(m.nodes[p], t), v);
    OnlyOneNode(m, m', p, k, v, a);
    SameCount(m, m', k);
  }

  /** Everyone whose approval was counted took the address over, and so did the proposer. */
  lemma CountedHold(m: Network, k: Key, v: Option<Address>, a: Address, n: InstanceId)
    requires AcceptedOk(m) && CountedOk(m) && NodesMid(m, k, v, a) && LogMid(m, k, a) && n in m.nodes
    requires k in m.log.proposed && AllCounted(m, k) && (v.Some? ==> v == Some(a))
    ensures Reported(m.nodes[n], k.typeName).multicastIp == Some(a)
  {
    assert NodeMid(m.nodes[n], n, |m.nodes|, k, v, a, StageOf(m, k));
    if n != k.ballot.instanceId {
      assert ApprovedBy(m, n, k);
    }
    assert Accepted(m, n, k);
    assert Trace(m, n, k);
  }

  lemma MidFinishOwn(m: Network, k: Key, v: Option<Address>, a: Address)
    requires AcceptedOk(m) && CountedOk(m) && Mid(m, k, v, a) && |m.nodes| >= 2
    requires k in m.log.proposed && k in m.log.decisions && AllCounted(m, k) && (v.Some? ==> v == Some(a))
    ensures Mid(DoCloseApprovals(m, k.ballot.instanceId, k), k, v, a)
  {
    var p := k.ballot.instanceId;
    var m' := DoCloseApprovals(m, p, k);
    SubsetSize(m.nodes.Keys - {p}, CountedBy(m, p, k));
    assert |m.nodes.Keys - {p}| == |m.nodes| - 1;
    assert NodeMid(m.nodes[p], p, |m.nodes|, k, v, a, StageOf(m, k));
    forall n | n in m'.nodes ensures NodeMid(m'.nodes[n], n, |m'.nodes|, k, v, a, StageOf(m', k)) {
      assert NodeMid(m.nodes[n], n, |m.nodes|, k, v, a, StageOf(m, k));
      CountedHold(m, k, v, a, n);
    }
    SameCount(m, m', k);
  }

  lemma MidStartAttempt(m: Network, p: InstanceId, key: Key, k: Key, v: Option<Address>, a: Address)
    requires Mid(m, k, v, a)
    ensures Mid(DoStartAttempt(m, p, key), k, v, a)
  {
    var m' := DoStartAttempt(m, p, key);
    forall n | n in m'.nodes ensures NodeMid(m'.nodes[n], n, |m'.nodes|, k, v, a, StageOf(m', k)) {
      assert NodeMid(m.nodes[n], n, |m.nodes|, k, v, a, StageOf(m, k));
    }
    SameCount(m, m', k);
  }

  lemma MidReceivePromise(m: Network, n: InstanceId, from: InstanceId, r: PromiseMessage, k: Key,
                          v: Option<Address>, a: Address)
    requires n in m.nodes && Mid(m, k, v, a)
    ensures Mid(DoReceivePromise(m, n, from, r), k, v, a)
  {
    var m' := DoReceivePromise(m, n, from, r);
    assert NodeMid(m.nodes[n], n, |m.nodes|, k, v, a, StageOf(m, k));
    OnlyOneNode(m, m', n, k, v, a);
    SameCount(m, m', k);
  }

  /** A change of one node that its part of the invariant does not notice. */
  lemma MidUnnoticed(m: Network, n: InstanceId, x: Node, k: Key, v: Option<Address>, a: Address)
    requires n in m.nodes && Mid(m, k, v, a) && NodeMid(x, n, |m.nodes|, k, v, a, StageOf(m, k))
    requires x.approvals == m.nodes[n].approvals
    ensures Mid(m.(nodes := m.nodes[n := x]), k, v, a)
  {
    var m' := m.(nodes := m.nodes[n := x]);
    OnlyOneNode(m, m', n, k, v, a);
    SameCount(m, m', k);
  }

  // ----- Whole attempts, first as if nothing else happened

  /** Only events about the type, and the assumptions hold of all of them. */
  ghost predicate Focused(s: Network, k: Key, draw: Address, es: seq<Event>, m: Network)
    decreases |es|
  {
    if es == [] then m == s
    else
      && Permits(Basic, s, es[0]) && Concerns(es[0], k.typeName) && Alone(s, k, draw, es[0])
      && Focused(Step(s, es[0]), k, draw, es[1..], m)
  }

  /** What the events of such a run rely on. */
  ghost predicate Grounded(m: Network, k: Key, v: Option<Address>, draw: Address) {
    Facts(Basic, m) && |m.nodes| >= 2 && Mid(m, k, v, Settling(v, draw))
  }

  lemma MidStep(m: Network, k: Key, draw: Address, e: Event, v: Option<Address>)
    requires Grounded(m, k, v, draw) && Permits(Basic, m, e) && Concerns(e, k.typeName) && Alone(m, k, draw, e)
    ensures Mid(Step(m, e), k, v, Settling(v, draw))
  {
    var a := Settling(v, draw);
    assert NodeMid(m.nodes[e.p], e.p, |m.nodes|, k, v, a, StageOf(m, k));
    match e
    case SetPeers(n, count) => MidUnnoticed(m, n, m.nodes[n].(numPeers := count), k, v, a);
    case StartAttempt(p, key) => MidStartAttempt(m, p, key, k, v, a);
    case ReceivePreparation(n, env) => MidReceivePreparation(m, n, env.msg.key, k, v, a);
    case ReceivePromise(n, env) => MidReceivePromise(m, n, env.from, env.msg, k, v, a);
    case ReceiveRejection(n, env) => MidUnnoticed(m, n, OnRejection(m.nodes[n], env.msg.key), k, v, a);
    case ClosePromises(_, _, _) => MidCloseOwn(m, k, draw, v, a);
    case SendProposal(_, key) => MidSendProposal(m, key, k, v, a);
    case ReceiveProposal(n, env) =>
      assert MessageOk(m, env);
      MidReceiveProposal(m, n, env.msg.key, env.msg.address, k, v, a);
    case ReceiveApproval(n, env, ok) => MidReceiveApproval(m, n, env.from, env.msg.key, env.msg.address, ok, k, v, a);
    case CloseApprovals(_, _) => MidFinishOwn(m, k, v, a);
  }

  lemma {:induction false} FocusedIsRun(s: Network, k: Key, draw: Address, es: seq<Event>, m: Network)
    requires Focused(s, k, draw, es, m)
    ensures Run(Basic, s, es, m)
    decreases |es|
  {
    if es == [] {
      RunNothing(Basic, s);
    } else {
      FocusedIsRun(Step(s, es[0]), k, draw, es[1..], m);
      RunOne(Basic, s, es[0], Step(s, es[0]));
      RunConcat(Basic, s, [es[0]], Step(s, es[0]), es[1..], m);
      assert [es[0]] + es[1..] == es;
    }
  }

  lemma {:induction false} GroundedRun(s: Network, k: Key, draw: Address, es: seq<Event>, m: Network,
                                       v: Option<Address>)
    requires Focused(s, k, draw, es, m) && Grounded(s, k, v, draw)
    ensures Grounded(m, k, v, draw)
    decreases |es|
  {
    if es != [] {
      MidStep(s, k, draw, es[0], v);
      FactsStep(Basic, s, es[0]);
      GroundedRun(Step(s, es[0]), k, draw, es[1..], m, v);
    }
  }

  lemma FocusedSettles(ids: set<InstanceId>, s: Network, v: Option<Address>, k: Key, draw: Address, es: seq<Event>,
                       m: Network)
    requires Reachable(Basic, ids, s) && |ids| >= 2 && Steady(s, k.typeName, v) && MayBegin(s, k)
    requires Focused(s, k, draw, es, m) && k in m.log.finished
    ensures k in m.log.returned && m.log.returned[k] == Settling(v, draw)
    ensures Steady(m, k.typeName, Some(Settling(v, draw)))
  {
    ReachableFacts(Basic, ids, s);
    MidStart(s, k, v, Settling(v, draw));
    GroundedRun(s, k, draw, es, m, v);
    forall n | n in m.nodes ensures NodeMid(m.nodes[n], n, |m.nodes|, k, v, Settling(v, draw), StageOf(m, k)) {
    }
  }

  // ----- The same among whatever happens about other types

  lemma SameAlone(s: Network, k: Key, draw: Address, e: Event, s': Network)
    requires Enabled(s, e) && Enabled(s', e) && Concerns(e, k.typeName) && Alike(s, s', k.typeName)
    requires Alone(s, k, draw, e)
    ensures Alone(s', k, draw, e)
  {
    SameSize(s.nodes, s'.nodes);
    assert AlikeNode(s.nodes[e.p], s'.nodes[e.p], k.typeName);
  }

  lemma {:induction false} FocusedPart(s: Network, k: Key, draw: Address, es: seq<Event>, m: Network, s': Network)
    returns (m': Network)
    requires Undisturbed(s, k, draw, es, m) && Alike(s, s', k.typeName)
    ensures Focused(s', k, draw, Restricted(es, k.typeName), m') && Alike(m, m', k.typeName)
    decreases |es|
  {
    var t := k.typeName;
    if es == [] {
      m' := s';
    } else if Concerns(es[0], t) {
      SameStep(Basic, s, es[0], s', t);
      SameAlone(s, k, draw, es[0], s');
      m' := FocusedPart(Step(s, es[0]), k, draw, es[1..], m, Step(s', es[0]));
      assert Restricted(es, t)[1..] == Restricted(es[1..], t);
    } else {
      SkipStep(s, es[0], s', t);
      m' := FocusedPart(Step(s, es[0]), k, draw, es[1..], m, s');
      assert Restricted(es, t) == Restricted(es[1..], t);
    }
  }

  lemma SteadyThere(s: Network, s': Network, t: TypeName, v: Option<Address>)
    requires Alike(s, s', t) && Steady(s, t, v)
    ensures Steady(s', t, v)
  {
    SameSize(s.nodes, s'.nodes);
    forall n | n in s'.nodes ensures AlikeNode(s.nodes[n], s'.nodes[n], t) {
    }
  }

  lemma SteadyHere(s: Network, s': Network, t: TypeName, v: Option<Address>)
    requires Alike(s, s', t) && Steady(s', t, v)
    ensures Steady(s, t, v)
  {
    SameSize(s.nodes, s'.nodes);
    forall n | n in s.nodes ensures AlikeNode(s.nodes[n], s'.nodes[n], t) {
    }
  }

  lemma SameBeginning(s: Network, s': Network, k: Key)
    requires Alike(s, s', k.typeName) && MayBegin(s, k)
    ensures MayBegin(s', k)
  {
    assert AlikeProgress(s, s', k);
    forall n | n in s.nodes ensures AlikeNode(s.nodes[n], s'.nodes[n], k.typeName) {
    }
  }

  lemma {:induction false} UndisturbedIsRunFor(s: Network, k: Key, draw: Address, es: seq<Event>, m: Network)
    requires Undisturbed(s, k, draw, es, m)
    ensures RunFor(Basic, k.typeName, s, es, m)
    decreases |es|
  {
    if es != [] {
      UndisturbedIsRunFor(Step(s, es[0]), k, draw, es[1..], m);
    }
  }

  /** What earlier attempts for the type returned stays returned. */
  lemma {:induction false} ReturnedStays(s: Network, k: Key, draw: Address, es: seq<Event>, m: Network, key: Key)
    requires Undisturbed(s, k, draw, es, m) && key.typeName == k.typeName && key != k && key in s.log.returned
    ensures key in m.log.returned && m.log.returned[key] == s.log.returned[key]
    decreases |es|
  {
    if es != [] {
      ReturnedStep(s, k, draw, es[0], key);
      ReturnedStays(Step(s, es[0]), k, draw, es[1..], m, key);
    }
  }

  lemma ReturnedStep(s: Network, k: Key, draw: Address, e: Event, key: Key)
    requires Enabled(s, e) && Alone(s, k, draw, e) && key.typeName == k.typeName && key != k && key in s.log.returned
    ensures key in Step(s, e).log.returned && Step(s, e).log.returned[key] == s.log.returned[key]
  {
  }

  /**
   * One attempt: however its messages travel, once an undisturbed attempt is over it has returned the
   * address everybody held, or its own draw if nobody held one, and everybody holds that.
   */
  lemma AttemptSettles(ids: set<InstanceId>, s: Network, v: Option<Address>, k: Key, draw: Address, es: seq<Event>,
                       m: Network)
    requires ReachableFor(Basic, k.typeName, ids, s) && |ids| >= 2 && Steady(s, k.typeName, v) && MayBegin(s, k)
    requires Undisturbed(s, k, draw, es, m) && k in m.log.finished
    ensures ReachableFor(Basic, k.typeName, ids, m) && k in m.log.returned && m.log.returned[k] == Settling(v, draw)
    ensures Steady(m, k.typeName, Some(Settling(v, draw)))
  {
    var t := k.typeName;
    var s' := ReachableAlike(Basic, t, ids, s);
    SteadyThere(s, s', t, v);
    SameBeginning(s, s', k);
    var m' := FocusedPart(s, k, draw, es, m, s');
    assert AlikeProgress(m, m', k);
    FocusedSettles(ids, s', v, k, draw, Restricted(es, t), m');
    SteadyHere(m, m', t, Some(Settling(v, draw)));
    UndisturbedIsRunFor(s, k, draw, es, m);
    ReachFurtherFor(Basic, t, ids, s, es, m);
  }

  // ----- Attempts one after the other

  datatype Attempted = Attempted(key: Key, draw: Address)

  /** The attempt begins in `s` and is over in `m`. */
  ghost predicate Follows(s: Network, x: Attempted, m: Network) {
    && MayBegin(s, x.key) && x.key in m.log.finished
    && exists es :: Undisturbed(s, x.key, x.draw, es, m)
  }

  /** The attempts `xs` for type `t`, one after the other, `states` being the networks in between. */
  ghost predicate Serial(states: seq<Network>, t: TypeName, xs: seq<Attempted>) {
    && |states| == |xs| + 1
    && forall i :: 0 <= i < |xs| ==> FollowsAt(states, t, xs, i)
  }

  ghost predicate FollowsAt(states: seq<Network>, t: TypeName, xs: seq<Attempted>, i: nat)
    requires i < |xs| && i + 1 < |states|
  {
    xs[i].key.typeName == t && Follows(states[i], xs[i], states[i + 1])
  }

  lemma SerialStep(ids: set<InstanceId>, s: Network, v: Option<Address>, x: Attempted, m: Network)
    requires ReachableFor(Basic, x.key.typeName, ids, s) && |ids| >= 2
    requires Steady(s, x.key.typeName, v) && Follows(s, x, m)
    ensures ReachableFor(Basic, x.key.typeName, ids, m) && Steady(m, x.key.typeName, Some(Settling(v, x.draw)))
    ensures x.key in m.log.returned && m.log.returned[x.key] == Settling(v, x.draw)
    ensures forall key: Key :: key.typeName == x.key.typeName && key in s.log.returned ==>
              key in m.log.returned && m.log.returned[key] == s.log.returned[key]
  {
    var es :| Undisturbed(s, x.key, x.draw, es, m);
    AttemptSettles(ids, s, v, x.key, x.draw, es, m);
    forall key: Key | key.typeName == x.key.typeName && key in s.log.returned
      ensures key in m.log.returned && m.log.returned[key] == s.log.returned[key]
    {
      ReturnedWasPrepared(ids, s, key);
      ReturnedStays(s, x.key, x.draw, es, m, key);
    }
  }

  lemma ReturnedWasPrepared(ids: set<InstanceId>, s: Network, key: Key)
    requires ReachableFor(Basic, key.typeName, ids, s) && key in s.log.returned
    ensures key in s.log.prepared
  {
    var s' := ReachableAlike(Basic, key.typeName, ids, s);
    assert AlikeProgress(s, s', key);
    ReachableFacts(Basic, ids, s');
  }

  /** What the first `n` attempts returned. */
  ghost predicate AllReturned(m: Network, xs: seq<Attempted>, n: nat, a: Address)
    requires n <= |xs|
  {
    forall i :: 0 <= i < n ==> xs[i].key in m.log.returned && m.log.returned[xs[i].key] == a
  }

  /**
   * Write-once register: of any number of serial attempts every one succeeds and returns the address
   * settled before, or else the one the first attempt drew; afterwards every record holds it.
   */
  lemma {:induction false} WriteOnce(ids: set<InstanceId>, states: seq<Network>, t: TypeName, v: Option<Address>,
                                     xs: seq<Attempted>, n: nat)
    requires |ids| >= 2 && Serial(states, t, xs) && 1 <= n <= |xs|
    requires ReachableFor(Basic, t, ids, states[0]) && Steady(states[0], t, v)
    ensures ReachableFor(Basic, t, ids, states[n])
    ensures Steady(states[n], t, Some(Settling(v, xs[0].draw)))
    ensures AllReturned(states[n], xs, n, Settling(v, xs[0].draw))
  {
    assert FollowsAt(states, t, xs, n - 1);
    if n == 1 {
      SerialStep(ids, states[0], v, xs[0], states[1]);
    } else {
      var a := Settling(v, xs[0].draw);
      WriteOnce(ids, states, t, v, xs, n - 1);
      SerialStep(ids, states[n - 1], Some(a), xs[n - 1], states[n]);
      forall i | 0 <= i < n ensures xs[i].key in states[n].log.returned && states[n].log.returned[xs[i].key] == a {
        assert i < n - 1 ==> FollowsAt(states, t, xs, i);
      }
    }
  }

  // ----- Such attempts can always be carried out

  /** Every other node answers and every node votes, each in any order. */
  ghost predicate Everyone(s: Network, x: Plan) {
    var p := x.key.ballot.instanceId;
    && p in s.nodes
    && Distinct(x.promisers) && Distinct(x.heard) && Distinct(x.acceptors) && Distinct(x.voters)
    && Members(x.promisers) == s.nodes.Keys - {p} && Members(x.heard) == s.nodes.Keys - {p}
    && Members(x.acceptors) == s.nodes.Keys && Members(x.voters) == s.nodes.Keys
  }

  lemma EveryoneFeasible(s: Network, t: TypeName, v: Option<Address>, x: Plan)
    requires Settled(s, t, v) && Everyone(s, x) && x.key.typeName == t && NewerThanAll(s, x.key) && |s.nodes| >= 2
    requires Ready(s, x.key.ballot.instanceId, x.key)
    ensures Feasible(Basic, s, x) && |x.voters| == |s.nodes| && x.heard != []
  {
    var p := x.key.ballot.instanceId;
    DistinctSize(x.heard);
    DistinctSize(x.voters);
    assert |s.nodes.Keys| == |s.nodes| && |s.nodes.Keys - {p}| == |s.nodes| - 1;
    forall id | id in x.promisers ensures WillPromise(Basic, s, x.key, id) {
      assert id in Members(x.promisers) && Idle(s, id, t);
    }
    forall id | id in x.heard ensures id in s.nodes && id in x.promisers {
      assert id in Members(x.heard);
      assert id in Members(x.promisers);
    }
    forall id | id in x.acceptors ensures id in s.nodes && (id in x.promisers || id == p) {
      assert id in Members(x.acceptors);
      assert id != p ==> id in Members(x.promisers);
    }
    forall id | id in x.voters ensures id in x.acceptors {
      assert id in Members(x.voters);
      assert id in Members(x.acceptors);
    }
  }

  /** One of the messages of the attempt arrives. */
  predicate Keyed(e: Event, k: Key) {
    match e
    case ReceivePreparation(_, env) => env.msg.key == k
    case ReceivePromise(_, env) => env.msg.key == k
    case ReceiveProposal(_, env) => env.msg.key == k
    case ReceiveApproval(_, env, _) => env.msg.key == k
    case _ => false
  }

  lemma {:induction false} KeyedUndisturbed(s: Network, k: Key, draw: Address, es: seq<Event>, m: Network)
    requires Run(Basic, s, es, m) && forall e :: e in es ==> Keyed(e, k)
    ensures Undisturbed(s, k, draw, es, m)
    decreases |es|
  {
    if es == [] {
      var states :| Chain(Basic, states, es) && states[0] == s && states[|es|] == m;
    } else {
      RunHead(Basic, s, es, m);
      assert es[0] in es;
      KeyedUndisturbed(Step(s, es[0]), k, draw, es[1..], m);
    }
  }

  lemma {:induction false} UndisturbedConcat(s: Network, k: Key, draw: Address, es: seq<Event>, m: Network,
                                             fs: seq<Event>, s': Network)
    requires Undisturbed(s, k, draw, es, m) && Undisturbed(m, k, draw, fs, s')
    ensures Undisturbed(s, k, draw, es + fs, s')
    decreases |es|
  {
    if es == [] {
      assert es + fs == fs;
    } else {
      UndisturbedConcat(Step(s, es[0]), k, draw, es[1..], m, fs, s');
      assert (es + fs)[1..] == es[1..] + fs;
    }
  }

  lemma UndisturbedOne(s: Network, k: Key, draw: Address, e: Event, m: Network)
    requires Leads(Basic, s, e, m) && Alone(s, k, draw, e)
    ensures Undisturbed(s, k, draw, [e], m)
  {
  }

  lemma EveryoneAnswers(s: Network, x: Plan)
    requires Everyone(s, x)
    ensures forall n :: n in s.nodes && n != x.key.ballot.instanceId ==> n in x.heard && n in x.voters
  {
    forall n | n in s.nodes && n != x.key.ballot.instanceId ensures n in x.heard && n in x.voters {
      assert n in Members(x.heard) && n in Members(x.voters);
    }
  }

  lemma KeyedAnswers(k: Key, promisers: seq<InstanceId>, heard: seq<InstanceId>, ms: seq<PromiseMessage>)
    requires |heard| == |ms| && forall i :: 0 <= i < |ms| ==> ms[i].key == k
    ensures forall e :: e in PrepareEvents(k, promisers) + HearEvents(k.ballot.instanceId, heard, ms) ==> Keyed(e, k)
  {
  }

  lemma KeyedVotes(k: Key, a: Address, acceptors: seq<InstanceId>, voters: seq<InstanceId>)
    ensures forall e :: e in AcceptEvents(k, a, acceptors) + CountEvents(k, a, voters) ==> Keyed(e, k)
  {
  }

  lemma HeardUndisturbed(s: Network, x: Plan) returns (es: seq<Event>, l: Network)
    requires Feasible(Basic, s, x)
    ensures Undisturbed(s, x.key, x.draw, es, l) && PromisesIn(s, l, x, Reports(s, x))
  {
    l := HeardRun(Basic, s, x);
    es := AnswerEvents(s, x);
    KeyedAnswers(x.key, x.promisers, x.heard, Reports(s, x));
    KeyedUndisturbed(s, x.key, x.draw, es, l);
  }

  lemma AllAreHeard(s: Network, l: Network, x: Plan, ms: seq<PromiseMessage>)
    requires PromisesIn(s, l, x, ms)
    requires forall n :: n in s.nodes && n != x.key.ballot.instanceId ==> n in x.heard
    ensures AllHeard(l, x.key)
  {
  }

  lemma CloseUndisturbed(s: Network, l: Network, x: Plan, ms: seq<PromiseMessage>) returns (c: Network)
    requires Feasible(Basic, s, x) && PromisesIn(s, l, x, ms) && |ms| == |x.heard|
    requires forall r :: r in ms ==> r.key == x.key
    requires AllHeard(l, x.key)
    ensures Undisturbed(l, x.key, x.draw, [ClosePromises(x.key.ballot.instanceId, x.key, Some(x.draw))], c)
    ensures Decided(s, c, x, Picked(ms, x.draw))
  {
    c := CloseShows(Basic, s, l, x, ms);
    UndisturbedOne(l, x.key, x.draw, ClosePromises(x.key.ballot.instanceId, x.key, Some(x.draw)), c);
  }

  /** Up to the decision: everyone else's promise has been heard. */
  lemma DecidesUndisturbed(s: Network, x: Plan) returns (es: seq<Event>, c: Network)
    requires Feasible(Basic, s, x)
    requires forall n :: n in s.nodes && n != x.key.ballot.instanceId ==> n in x.heard
    ensures Undisturbed(s, x.key, x.draw, es, c) && Decided(s, c, x, Picked(Reports(s, x), x.draw))
  {
    var first, l := HeardUndisturbed(s, x);
    AllAreHeard(s, l, x, Reports(s, x));
    c := CloseUndisturbed(s, l, x, Reports(s, x));
    var close := [ClosePromises(x.key.ballot.instanceId, x.key, Some(x.draw))];
    UndisturbedConcat(s, x.key, x.draw, first, l, close, c);
    es := first + close;
  }

  lemma SendUndisturbed(s: Network, c: Network, x: Plan, a: Address) returns (d: Network)
    requires Feasible(Basic, s, x) && Decided(s, c, x, a)
    ensures Undisturbed(c, x.key, x.draw, [SendProposal(x.key.ballot.instanceId, x.key)], d) && ProposalOut(s, d, x, a)
  {
    d := DoSendProposal(c, x.key.ballot.instanceId, x.key);
    SendLeads(Basic, c, x.key.ballot.instanceId, x.key);
    SendShows(s, c, x, a);
    UndisturbedOne(c, x.key, x.draw, SendProposal(x.key.ballot.instanceId, x.key), d);
  }

  lemma VotesUndisturbed(s: Network, d: Network, x: Plan, a: Address) returns (es: seq<Event>, w: Network)
    requires Feasible(Basic, s, x) && ProposalOut(s, d, x, a)
    requires forall n :: n in s.nodes && n != x.key.ballot.instanceId ==> n in x.voters
    ensures Undisturbed(d, x.key, x.draw, es, w) && VotesIn(s, w, x, a, |x.voters|) && AllCounted(w, x.key)
  {
    w := VotingRun(Basic, s, d, x, a);
    es := AcceptEvents(x.key, a, x.acceptors) + CountEvents(x.key, a, x.voters);
    KeyedVotes(x.key, a, x.acceptors, x.voters);
    KeyedUndisturbed(d, x.key, x.draw, es, w);
  }

  lemma FinishUndisturbed(s: Network, w: Network, x: Plan, a: Address) returns (m: Network)
    requires Ready(s, x.key.ballot.instanceId, x.key) && VotesIn(s, w, x, a, |x.voters|) && AllCounted(w, x.key)
    ensures Undisturbed(w, x.key, x.draw, [CloseApprovals(x.key.ballot.instanceId, x.key)], m)
    ensures AttemptOver(s, m, x, a)
  {
    ClosingLeads(Basic, s, w, x, a);
    ClosingFacts(s, w, x, a);
    m := DoCloseApprovals(w, x.key.ballot.instanceId, x.key);
    UndisturbedOne(w, x.key, x.draw, CloseApprovals(x.key.ballot.instanceId, x.key), m);
  }

  /** From the decision to the end: everyone's approval has been counted. */
  lemma EndsUndisturbed(s: Network, c: Network, x: Plan, a: Address) returns (es: seq<Event>, m: Network)
    requires Feasible(Basic, s, x) && Decided(s, c, x, a)
    requires forall n :: n in s.nodes && n != x.key.ballot.instanceId ==> n in x.voters
    ensures Undisturbed(c, x.key, x.draw, es, m) && AttemptOver(s, m, x, a)
  {
    var d := SendUndisturbed(s, c, x, a);
    var votes, w := VotesUndisturbed(s, d, x, a);
    m := FinishUndisturbed(s, w, x, a);
    var send := [SendProposal(x.key.ballot.instanceId, x.key)];
    var finish := [CloseApprovals(x.key.ballot.instanceId, x.key)];
    UndisturbedConcat(d, x.key, x.draw, votes, w, finish, m);
    UndisturbedConcat(c, x.key, x.draw, send, d, votes + finish, m);
    es := send + (votes + finish);
  }

  lemma BeginUndisturbed(s: Network, v: Option<Address>, x: Plan) returns (m: Network)
    requires Unused(s, x.key) && Settled(s, x.key.typeName, v)
    ensures Undisturbed(s, x.key, x.draw, [StartAttempt(x.key.ballot.instanceId, x.key)], m)
    ensures m.nodes == s.nodes && Ready(m, x.key.ballot.instanceId, x.key) && Settled(m, x.key.typeName, v)
  {
    var p, t := x.key.ballot.instanceId, x.key.typeName;
    assert Idle(s, p, t);
    Begin(Basic, s, x.key);
    m := DoStartAttempt(s, p, x.key);
    UndisturbedOne(s, x.key, x.draw, StartAttempt(p, x.key), m);
    forall n | n in m.nodes ensures Idle(m, n, t) {
      assert Idle(s, n, t);
    }
  }

  /** The whole attempt, from a network in which nothing about the type is waiting. */
  lemma WholeUndisturbed(s: Network, v: Option<Address>, x: Plan) returns (es: seq<Event>, m: Network)
    requires Unused(s, x.key) && |s.nodes| >= 2 && Settled(s, x.key.typeName, v) && Everyone(s, x)
    requires NewerThanAll(s, x.key)
    ensures Undisturbed(s, x.key, x.draw, es, m) && x.key in m.log.finished
    ensures forall n :: n in m.nodes ==> Idle(m, n, x.key.typeName)
  {
    var s0 := BeginUndisturbed(s, v, x);
    EveryoneFeasible(s0, x.key.typeName, v, x);
    EveryoneAnswers(s0, x);
    var es0, c := DecidesUndisturbed(s0, x);
    var fs;
    fs, m := EndsUndisturbed(s0, c, x, Picked(Reports(s0, x), x.draw));
    UndisturbedConcat(s0, x.key, x.draw, es0, c, fs, m);
    UndisturbedConcat(s, x.key, x.draw, [StartAttempt(x.key.ballot.instanceId, x.key)], s0, es0 + fs, m);
    es := [StartAttempt(x.key.ballot.instanceId, x.key)] + (es0 + fs);
    forall n | n in m.nodes ensures Idle(m, n, x.key.typeName) {
      assert Idle(s0, n, x.key.typeName);
    }
  }

  lemma SettledIsSteady(s: Network, t: TypeName, v: Option<Address>)
    requires Settled(s, t, v)
    ensures Steady(s, t, v)
  {
    forall n | n in s.nodes ensures Idle(s, n, t) {
    }
  }

  lemma SteadyIsSettled(m: Network, t: TypeName, a: Address)
    requires Steady(m, t, Some(a)) && forall n :: n in m.nodes ==> Idle(m, n, t)
    ensures Settled(m, t, Some(a))
  {
  }

  lemma NothingDoneYet(ids: set<InstanceId>, s: Network, k: Key)
    requires ReachableFor(Basic, k.typeName, ids, s) && k.ballot.instanceId in s.nodes && k !in s.log.prepared
    ensures Unused(s, k) && |s.nodes| == |ids|
  {
    var s' := ReachableAlike(Basic, k.typeName, ids, s);
    assert AlikeProgress(s, s', k);
    ReachableFacts(Basic, ids, s');
    NotPreparedIsUnused(s', k);
    SameSize(s.nodes, s'.nodes);
    SameUnused(s, s', k);
  }

  lemma SameUnused(s: Network, s': Network, k: Key)
    requires Alike(s, s', k.typeName) && Unused(s', k)
    ensures Unused(s, k)
  {
    var p := k.ballot.instanceId;
    assert AlikeProgress(s, s', k) && AlikeCounts(s.nodes[p], s'.nodes[p], k.typeName);
    forall id ensures Count(p, k, id) !in s.books.counted {
    }
  }

  /** Whenever an attempt may begin and nothing is waiting, it can be carried out, and then nothing is waiting again. */
  lemma SerialProgress(ids: set<InstanceId>, s: Network, v: Option<Address>, x: Plan) returns (m: Network)
    requires ReachableFor(Basic, x.key.typeName, ids, s) && |ids| >= 2
    requires Settled(s, x.key.typeName, v) && Everyone(s, x) && MayBegin(s, x.key)
    ensures Follows(s, Attempted(x.key, x.draw), m)
    ensures ReachableFor(Basic, x.key.typeName, ids, m) && Settled(m, x.key.typeName, Some(Settling(v, x.draw)))
  {
    NothingDoneYet(ids, s, x.key);
    var es;
    es, m := WholeUndisturbed(s, v, x);
    SettledIsSteady(s, x.key.typeName, v);
    AttemptSettles(ids, s, v, x.key, x.draw, es, m);
    SteadyIsSettled(m, x.key.typeName, Settling(v, x.draw));
  }
}
