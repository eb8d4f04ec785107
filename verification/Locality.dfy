/**
 * The protocol runs per type: whatever happens about other types, the part of the network that concerns one
 * type moves as if its own events were the only ones. So assumptions are needed of those events alone.
 */
module Locality {
  import opened Wrappers
  import opened Ballots
  import opened ConsensusNode
  import opened ConsensusNetwork
  import opened ConsensusInvariants
  import opened Agreement

  function KeyOf(e: Event): Key
    requires !e.SetPeers?
  {
    match e
    case StartAttempt(_, key) => key
    case ClosePromises(_, key, _) => key
    case SendProposal(_, key) => key
    case CloseApprovals(_, key) => key
    case ReceivePreparation(_, env) => env.msg.key
    case ReceivePromise(_, env) => env.msg.key
    case ReceiveRejection(_, env) => env.msg.key
    case ReceiveProposal(_, env) => env.msg.key
    case ReceiveApproval(_, env, _) => env.msg.key
  }

  /** The number of peers concerns every type, anything else the type its message or attempt names. */
  predicate Concerns(e: Event, t: TypeName) {
    e.SetPeers? || KeyOf(e).typeName == t
  }

  // ----- Runs of which something is assumed only where they concern type `t`

  ghost predicate PermitsFor(h: Hypothesis, t: TypeName, s: Network, e: Event) {
    Enabled(s, e) && (Concerns(e, t) ==> Permits(h, s, e))
  }

  ghost predicate RunFor(h: Hypothesis, t: TypeName, s: Network, es: seq<Event>, s': Network)
    decreases |es|
  {
    if es == [] then s' == s
    else PermitsFor(h, t, s, es[0]) && RunFor(h, t, Step(s, es[0]), es[1..], s')
  }

  ghost predicate ReachableFor(h: Hypothesis, t: TypeName, ids: set<InstanceId>, s: Network) {
    exists es :: RunFor(h, t, Start(ids), es, s)
  }

  lemma {:induction false} RunIsRunFor(h: Hypothesis, t: TypeName, s: Network, es: seq<Event>, s': Network)
    requires Run(h, s, es, s')
    ensures RunFor(h, t, s, es, s')
    decreases |es|
  {
    if es == [] {
      var states :| Chain(h, states, es) && states[0] == s && states[|es|] == s';
    } else {
      RunHead(h, s, es, s');
      RunIsRunFor(h, t, Step(s, es[0]), es[1..], s');
    }
  }

  lemma {:induction false} RunForConcat(h: Hypothesis, t: TypeName, s: Network, es: seq<Event>, m: Network,
                                        fs: seq<Event>, s': Network)
    requires RunFor(h, t, s, es, m) && RunFor(h, t, m, fs, s')
    ensures RunFor(h, t, s, es + fs, s')
    decreases |es|
  {
    if es == [] {
      assert es + fs == fs;
    } else {
      RunForConcat(h, t, Step(s, es[0]), es[1..], m, fs, s');
      assert (es + fs)[1..] == es[1..] + fs;
    }
  }

  lemma ReachFurtherFor(h: Hypothesis, t: TypeName, ids: set<InstanceId>, s: Network, es: seq<Event>, m: Network)
    requires ReachableFor(h, t, ids, s) && RunFor(h, t, s, es, m)
    ensures ReachableFor(h, t, ids, m)
  {
    var init :| RunFor(h, t, Start(ids), init, s);
    RunForConcat(h, t, Start(ids), init, s, es, m);
  }

  lemma ReachableIsReachableFor(h: Hypothesis, t: TypeName, ids: set<InstanceId>, s: Network)
    requires Reachable(h, ids, s)
    ensures ReachableFor(h, t, ids, s)
  {
    var es :| Run(h, Start(ids), es, s);
    RunIsRunFor(h, t, Start(ids), es, s);
  }

  // ----- Two networks that agree on all that concerns type `t`

  predicate AlikeNode(n: Node, n': Node, t: TypeName) {
    && n'.id == n.id && n'.numPeers == n.numPeers
    && (t in n'.proposals <==> t in n.proposals)
    && (t in n.proposals ==> n'.proposals[t] == n.proposals[t])
    && PromisesFor(n', t) == PromisesFor(n, t) && RejectionsFor(n', t) == RejectionsFor(n, t)
    && (forall m :: m in PromisesFor(n, t) ==> m.key.typeName == t)
  }

  ghost predicate AlikeCounts(n: Node, n': Node, t: TypeName) {
    forall key: Key :: key.typeName == t ==> ApprovalsFor(n', key) == ApprovalsFor(n, key)
  }

  ghost predicate AlikeNodes(s: Network, s': Network, t: TypeName) {
    && s'.nodes.Keys == s.nodes.Keys
    && forall p :: p in s.nodes ==> AlikeNode(s.nodes[p], s'.nodes[p], t) && AlikeCounts(s.nodes[p], s'.nodes[p], t)
  }

  ghost predicate AlikeSent(s: Network, s': Network, t: TypeName) {
    forall env: Envelope :: env.msg.key.typeName == t ==> (env in s'.sent <==> env in s.sent)
  }

  ghost predicate AlikeLog(s: Network, s': Network, t: TypeName) {
    forall key: Key :: key.typeName == t ==> AlikeProgress(s, s', key)
  }

  predicate AlikeProgress(s: Network, s': Network, key: Key) {
    && (key in s'.log.prepared <==> key in s.log.prepared)
    && (key in s'.log.closed <==> key in s.log.closed)
    && (key in s'.log.proposed <==> key in s.log.proposed)
    && (key in s'.log.finished <==> key in s.log.finished)
    && (key in s'.log.decisions <==> key in s.log.decisions)
    && (key in s.log.decisions ==> s'.log.decisions[key] == s.log.decisions[key])
    && (key in s'.log.returned <==> key in s.log.returned)
    && (key in s.log.returned ==> s'.log.returned[key] == s.log.returned[key])
  }

  ghost predicate AlikeBooks(s: Network, s': Network, t: TypeName) {
    && (forall p :: PromisersOf(s', p, t) == PromisersOf(s, p, t))
    && (forall c: Count :: c.key.typeName == t ==> (c in s'.books.counted <==> c in s.books.counted))
    && (forall p, key: Key :: key.typeName == t ==> CommitsOf(s', p, key) == CommitsOf(s, p, key))
  }

  ghost predicate Alike(s: Network, s': Network, t: TypeName) {
    AlikeNodes(s, s', t) && AlikeSent(s, s', t) && AlikeLog(s, s', t) && AlikeBooks(s, s', t)
  }

  // ----- An event about another type changes nothing

  /** An event changes no other node than the one it happens at. */
  lemma OwnNodeOnly(s: Network, e: Event)
    requires Enabled(s, e)
    ensures Step(s, e).nodes == s.nodes[e.p := Step(s, e).nodes[e.p]]
  {
  }

  lemma SkipNode(s: Network, e: Event, n: Node, t: TypeName)
    requires Enabled(s, e) && !Concerns(e, t) && AlikeNode(s.nodes[e.p], n, t)
    ensures AlikeNode(Step(s, e).nodes[e.p], n, t)
  {
  }

  lemma SkipCounts(s: Network, e: Event, n: Node, t: TypeName)
    requires Enabled(s, e) && !Concerns(e, t) && AlikeCounts(s.nodes[e.p], n, t)
    ensures AlikeCounts(Step(s, e).nodes[e.p], n, t)
  {
  }

  lemma SkipNodes(s: Network, e: Event, s': Network, t: TypeName)
    requires Enabled(s, e) && !Concerns(e, t) && AlikeNodes(s, s', t)
    ensures AlikeNodes(Step(s, e), s', t)
  {
    OwnNodeOnly(s, e);
    SkipNode(s, e, s'.nodes[e.p], t);
    SkipCounts(s, e, s'.nodes[e.p], t);
  }

  lemma SkipSent(s: Network, e: Event, s': Network, t: TypeName)
    requires Enabled(s, e) && !Concerns(e, t) && AlikeSent(s, s', t)
    ensures AlikeSent(Step(s, e), s', t)
  {
  }

  lemma SkipLog(s: Network, e: Event, s': Network, t: TypeName)
    requires Enabled(s, e) && !Concerns(e, t) && AlikeLog(s, s', t)
    ensures AlikeLog(Step(s, e), s', t)
  {
    forall key: Key | key.typeName == t ensures AlikeProgress(Step(s, e), s', key) {
      assert AlikeProgress(s, s', key);
    }
  }

  lemma SkipBooks(s: Network, e: Event, s': Network, t: TypeName)
    requires Enabled(s, e) && !Concerns(e, t) && AlikeBooks(s, s', t)
    ensures AlikeBooks(Step(s, e), s', t)
  {
  }

  // ----- An event about the type does the same to both

  lemma SameEnabled(s: Network, e: Event, s': Network, t: TypeName)
    requires Enabled(s, e) && Concerns(e, t) && Alike(s, s', t)
    ensures Enabled(s', e)
  {
    if !e.SetPeers? {
      assert AlikeProgress(s, s', KeyOf(e));
    }
  }

  lemma SamePreparation(n: Node, n': Node, key: Key)
    requires AlikeNode(n, n', key.typeName) && AlikeCounts(n, n', key.typeName)
    ensures AlikeNode(OnPreparation(n, key).0, OnPreparation(n', key).0, key.typeName)
    ensures AlikeCounts(OnPreparation(n, key).0, OnPreparation(n', key).0, key.typeName)
    ensures OnPreparation(n', key).1 == OnPreparation(n, key).1
  {
  }

  lemma SamePromise(n: Node, n': Node, m: PromiseMessage)
    requires AlikeNode(n, n', m.key.typeName) && AlikeCounts(n, n', m.key.typeName)
    ensures AlikeNode(OnPromise(n, m), OnPromise(n', m), m.key.typeName)
    ensures AlikeCounts(OnPromise(n, m), OnPromise(n', m), m.key.typeName)
  {
    var t := m.key.typeName;
    if m.key.ballot.instanceId == n.id {
      assert PromisesFor(OnPromise(n, m), t) == PromisesFor(n, t) + [m];
      assert PromisesFor(OnPromise(n', m), t) == PromisesFor(n', t) + [m];
    }
  }

  lemma SameRejection(n: Node, n': Node, key: Key)
    requires AlikeNode(n, n', key.typeName) && AlikeCounts(n, n', key.typeName)
    ensures AlikeNode(OnRejection(n, key), OnRejection(n', key), key.typeName)
    ensures AlikeCounts(OnRejection(n, key), OnRejection(n', key), key.typeName)
  {
  }

  lemma SameTaken(n: Node, n': Node, t: TypeName)
    requires AlikeNode(n, n', t) && AlikeCounts(n, n', t)
    ensures AlikeNode(TakePromises(n, t), TakePromises(n', t), t)
    ensures AlikeCounts(TakePromises(n, t), TakePromises(n', t), t)
  {
  }

  lemma SameProposal(n: Node, n': Node, key: Key, a: Address)
    requires AlikeNode(n, n', key.typeName) && AlikeCounts(n, n', key.typeName)
    ensures AlikeNode(WithRecord(n, key, a), WithRecord(n', key, a), key.typeName)
    ensures AlikeCounts(WithRecord(n, key, a), WithRecord(n', key, a), key.typeName)
    ensures OnProposal(n, key, a).Ok? <==> OnProposal(n', key, a).Ok?
  {
  }

  /** What counting leaves of one counter depends on that counter and the number of peers alone. */
  function CounterAfter(size: nat, id: InstanceId, count: nat, key: Key, ok: bool): nat {
    if 2 * (count + 1) > size && key.ballot.instanceId != id && ok then 0 else count + 1
  }

  lemma CountedCounter(n: Node, key: Key, a: Address, ok: bool, k: Key)
    ensures ApprovalsFor(Counted(n, key, a, ok).0, k)
            == if k == key then CounterAfter(n.numPeers, n.id, ApprovalsFor(n, key), key, ok) else ApprovalsFor(n, k)
  {
  }

  lemma CountedElse(n: Node, key: Key, a: Address, ok: bool)
    ensures Counted(n, key, a, ok).0 == n.(approvals := Counted(n, key, a, ok).0.approvals)
  {
  }

  lemma SameApproval(n: Node, n': Node, key: Key, a: Address, ok: bool)
    requires AlikeNode(n, n', key.typeName) && AlikeCounts(n, n', key.typeName)
    ensures AlikeNode(Counted(n, key, a, ok).0, Counted(n', key, a, ok).0, key.typeName)
    ensures AlikeCounts(Counted(n, key, a, ok).0, Counted(n', key, a, ok).0, key.typeName)
  {
    CountedElse(n, key, a, ok);
    CountedElse(n', key, a, ok);
    var m, m' := Counted(n, key, a, ok).0, Counted(n', key, a, ok).0;
    forall k: Key | k.typeName == key.typeName ensures ApprovalsFor(m', k) == ApprovalsFor(m, k) {
      CountedCounter(n, key, a, ok, k);
      CountedCounter(n', key, a, ok, k);
      assert ApprovalsFor(n', k) == ApprovalsFor(n, k) && ApprovalsFor(n', key) == ApprovalsFor(n, key);
    }
  }

  lemma SameNode(s: Network, e: Event, s': Network, t: TypeName)
    requires Enabled(s, e) && Enabled(s', e) && Concerns(e, t)
    requires AlikeNode(s.nodes[e.p], s'.nodes[e.p], t) && AlikeCounts(s.nodes[e.p], s'.nodes[e.p], t)
    requires !e.SetPeers? ==> AlikeProgress(s, s', KeyOf(e))
    ensures AlikeNode(Step(s, e).nodes[e.p], Step(s', e).nodes[e.p], t)
    ensures AlikeCounts(Step(s, e).nodes[e.p], Step(s', e).nodes[e.p], t)
  {
    var n, n' := s.nodes[e.p], s'.nodes[e.p];
    match e
    case SetPeers(_, _) =>
    case StartAttempt(_, _) =>
    case CloseApprovals(_, _) =>
    case ReceivePreparation(_, env) => SamePreparation(n, n', env.msg.key);
    case ReceivePromise(_, env) => SamePromise(n, n', env.msg);
    case ReceiveRejection(_, env) => SameRejection(n, n', env.msg.key);
    case ClosePromises(_, key, _) => SameTaken(n, n', key.typeName);
    case SendProposal(_, key) => SameProposal(n, n', key, s.log.decisions[key].address);
    case ReceiveProposal(_, env) => SameProposal(n, n', env.msg.key, env.msg.address);
    case ReceiveApproval(_, env, ok) => SameApproval(n, n', env.msg.key, env.msg.address, ok);
  }

  lemma SameNodes(s: Network, e: Event, s': Network, t: TypeName)
    requires Enabled(s, e) && Enabled(s', e) && Concerns(e, t) && AlikeNodes(s, s', t) && AlikeLog(s, s', t)
    ensures AlikeNodes(Step(s, e), Step(s', e), t)
  {
    OwnNodeOnly(s, e);
    OwnNodeOnly(s', e);
    SameNode(s, e, s', t);
  }

  /** The message an event sends, if it sends one. */
  function Sends(s: Network, e: Event): Option<Envelope>
    requires Enabled(s, e)
  {
    match e
    case StartAttempt(p, key) => Some(Envelope(p, Preparation(key)))
    case ReceivePreparation(p, env) =>
      (match OnPreparation(s.nodes[p], env.msg.key).1
       case None => None
       case Some(reply) => Some(Envelope(p, reply)))
    case SendProposal(p, key) => Some(Envelope(p, Proposal(key, s.log.decisions[key].address)))
    case ReceiveProposal(p, env) =>
      if OnProposal(s.nodes[p], env.msg.key, env.msg.address).Err? then None
      else Some(Envelope(p, Approval(env.msg.key, env.msg.address)))
    case _ => None
  }

  lemma SendsOnly(s: Network, e: Event)
    requires Enabled(s, e)
    ensures Step(s, e).sent == s.sent + (if Sends(s, e).Some? then {Sends(s, e).value} else {})
  {
  }

  lemma SameSends(s: Network, e: Event, s': Network, t: TypeName)
    requires Enabled(s, e) && Enabled(s', e) && Concerns(e, t)
    requires AlikeNode(s.nodes[e.p], s'.nodes[e.p], t) && (!e.SetPeers? ==> AlikeProgress(s, s', KeyOf(e)))
    ensures Sends(s', e) == Sends(s, e)
  {
  }

  lemma SameSent(s: Network, e: Event, s': Network, t: TypeName)
    requires Enabled(s, e) && Enabled(s', e) && Concerns(e, t)
    requires AlikeNodes(s, s', t) && AlikeLog(s, s', t) && AlikeSent(s, s', t)
    ensures AlikeSent(Step(s, e), Step(s', e), t)
  {
    SendsOnly(s, e);
    SendsOnly(s', e);
    SameSends(s, e, s', t);
  }

  lemma ClosingElsewhere(s: Network, p: InstanceId, k: Key, draw: Option<Address>, key: Key)
    requires p in s.nodes && key != k
    ensures AlikeProgress(s, DoClosePromises(s, p, k, draw), key)
  {
  }

  lemma SameClosing(s: Network, s': Network, p: InstanceId, k: Key, draw: Option<Address>)
    requires p in s.nodes && p in s'.nodes && AlikeProgress(s, s', k)
    requires AlikeNode(s.nodes[p], s'.nodes[p], k.typeName)
    requires PromisersOf(s', p, k.typeName) == PromisersOf(s, p, k.typeName)
    ensures AlikeProgress(DoClosePromises(s, p, k, draw), DoClosePromises(s', p, k, draw), k)
  {
    var n, n', t := s.nodes[p], s'.nodes[p], k.typeName;
    assert Judge(n'.numPeers, PromisesFor(n', t), RejectionsFor(n', t))
        == Judge(n.numPeers, PromisesFor(n, t), RejectionsFor(n, t));
  }

  lemma SameReturn(s: Network, s': Network, p: InstanceId, k: Key, key: Key)
    requires p in s.nodes && p in s'.nodes && AlikeProgress(s, s', key) && AlikeProgress(s, s', k)
    requires s'.nodes[p].numPeers == s.nodes[p].numPeers && ApprovalsFor(s'.nodes[p], k) == ApprovalsFor(s.nodes[p], k)
    requires k in s.log.decisions
    ensures AlikeProgress(DoCloseApprovals(s, p, k), DoCloseApprovals(s', p, k), key)
  {
  }

  lemma SameProgress(s: Network, e: Event, s': Network, t: TypeName, key: Key)
    requires Enabled(s, e) && Enabled(s', e) && Concerns(e, t) && AlikeProgress(s, s', key)
    requires !e.ClosePromises? && !e.CloseApprovals?
    requires !e.SetPeers? ==> AlikeProgress(s, s', KeyOf(e))
    ensures AlikeProgress(Step(s, e), Step(s', e), key)
  {
  }

  lemma SameLog(s: Network, e: Event, s': Network, t: TypeName)
    requires Enabled(s, e) && Enabled(s', e) && Concerns(e, t)
    requires AlikeNodes(s, s', t) && AlikeLog(s, s', t) && AlikeBooks(s, s', t)
    ensures AlikeLog(Step(s, e), Step(s', e), t)
  {
    assert AlikeNode(s.nodes[e.p], s'.nodes[e.p], t) && AlikeCounts(s.nodes[e.p], s'.nodes[e.p], t);
    forall key: Key | key.typeName == t ensures AlikeProgress(Step(s, e), Step(s', e), key) {
      assert AlikeProgress(s, s', key) && (!e.SetPeers? ==> AlikeProgress(s, s', KeyOf(e)));
      match e
      case ClosePromises(p, k, draw) =>
        if key == k {
          SameClosing(s, s', p, k, draw);
        } else {
          ClosingElsewhere(s, p, k, draw, key);
          ClosingElsewhere(s', p, k, draw, key);
        }
      case CloseApprovals(p, k) => SameReturn(s, s', p, k, key);
      case _ => SameProgress(s, e, s', t, key);
    }
  }

  lemma SameApprovalBooks(s: Network, p: InstanceId, from: InstanceId, key: Key, a: Address, ok: bool, s': Network)
    requires p in s.nodes && p in s'.nodes && AlikeBooks(s, s', key.typeName)
    requires s'.nodes[p].id == s.nodes[p].id && s'.nodes[p].numPeers == s.nodes[p].numPeers
    requires ApprovalsFor(s'.nodes[p], key) == ApprovalsFor(s.nodes[p], key)
    ensures AlikeBooks(DoReceiveApproval(s, p, from, key, a, ok), DoReceiveApproval(s', p, from, key, a, ok),
                       key.typeName)
  {
    var l, l' := DoReceiveApproval(s, p, from, key, a, ok), DoReceiveApproval(s', p, from, key, a, ok);
    forall q ensures PromisersOf(l', q, key.typeName) == PromisersOf(l, q, key.typeName) {
      assert PromisersOf(s', q, key.typeName) == PromisersOf(s, q, key.typeName);
    }
    assert CommitsOf(s', p, key) == CommitsOf(s, p, key);
    forall q, k: Key | k.typeName == key.typeName ensures CommitsOf(l', q, k) == CommitsOf(l, q, k) {
      assert CommitsOf(s', q, k) == CommitsOf(s, q, k);
    }
  }

  lemma SamePromiserBooks(s: Network, e: Event, s': Network, t: TypeName)
    requires Enabled(s, e) && Enabled(s', e) && Concerns(e, t) && AlikeBooks(s, s', t) && !e.ReceiveApproval?
    requires s'.nodes[e.p].id == s.nodes[e.p].id
    ensures AlikeBooks(Step(s, e), Step(s', e), t)
  {
    var l, l' := Step(s, e), Step(s', e);
    forall p ensures PromisersOf(l', p, t) == PromisersOf(l, p, t) {
      assert PromisersOf(s', p, t) == PromisersOf(s, p, t);
    }
    assert l.books.commits == s.books.commits && l'.books.commits == s'.books.commits;
    forall q, k: Key | k.typeName == t ensures CommitsOf(l', q, k) == CommitsOf(l, q, k) {
      assert CommitsOf(s', q, k) == CommitsOf(s, q, k);
    }
  }

  lemma SameBooks(s: Network, e: Event, s': Network, t: TypeName)
    requires Enabled(s, e) && Enabled(s', e) && Concerns(e, t) && AlikeNodes(s, s', t) && AlikeBooks(s, s', t)
    ensures AlikeBooks(Step(s, e), Step(s', e), t)
  {
    assert AlikeNode(s.nodes[e.p], s'.nodes[e.p], t) && AlikeCounts(s.nodes[e.p], s'.nodes[e.p], t);
    match e
    case ReceiveApproval(p, env, ok) => SameApprovalBooks(s, p, env.from, env.msg.key, env.msg.address, ok, s');
    case _ => SamePromiserBooks(s, e, s', t);
  }

  lemma SameHonesty(s: Network, s': Network, t: TypeName, m: PromiseMessage)
    requires AlikeLog(s, s', t) && m.key.typeName == t && HonestReport(s, m)
    ensures HonestReport(s', m)
  {
    assert AlikeProgress(s, s', Key(t, m.accepted));
  }

  lemma SamePick(s: Network, e: Event, s': Network, t: TypeName)
    requires Enabled(s, e) && Enabled(s', e) && Concerns(e, t) && Alike(s, s', t) && PickHonest(s, e)
    ensures PickHonest(s', e)
  {
    if e.ClosePromises? {
      assert AlikeNode(s.nodes[e.p], s'.nodes[e.p], t);
      var ms := PromisesFor(s.nodes[e.p], t);
      WithDataContents(ms);
      if WithData(ms) != [] && HonestReport(s, NewestOf(WithData(ms))) {
        SameHonesty(s, s', t, NewestOf(WithData(ms)));
      }
    }
  }

  lemma SameDangling(s: Network, e: Event, s': Network, t: TypeName)
    requires Enabled(s, e) && Enabled(s', e) && Concerns(e, t) && Alike(s, s', t) && NothingDangles(s, e)
    ensures NothingDangles(s', e)
  {
    if e.ReceivePreparation? && t in s.nodes[e.p].proposals {
      assert AlikeNode(s.nodes[e.p], s'.nodes[e.p], t);
      assert AlikeProgress(s, s', Key(t, s.nodes[e.p].proposals[t].ballot));
    }
  }

  lemma SameCounting(s: Network, e: Event, s': Network, t: TypeName)
    requires Enabled(s, e) && Enabled(s', e) && Concerns(e, t) && AlikeBooks(s, s', t)
    requires AlikeNode(s.nodes[e.p], s'.nodes[e.p], t) && |s'.nodes| == |s.nodes|
    ensures PeersCounted(s, e) ==> PeersCounted(s', e)
    ensures PromisersDistinct(s, e) ==> PromisersDistinct(s', e)
    ensures ApprovalCountedOnce(s, e) ==> ApprovalCountedOnce(s', e)
    ensures CountedForBallot(s, e) ==> CountedForBallot(s', e)
    ensures OwnWriteNotOlder(s, e) ==> OwnWriteNotOlder(s', e)
  {
  }

  lemma SamePermits(h: Hypothesis, s: Network, e: Event, s': Network, t: TypeName)
    requires Permits(h, s, e) && Enabled(s', e) && Concerns(e, t) && Alike(s, s', t)
    ensures Permits(h, s', e)
  {
    SameSize(s.nodes, s'.nodes);
    assert AlikeNode(s.nodes[e.p], s'.nodes[e.p], t);
    SameCounting(s, e, s', t);
    if PickHonest(s, e) {
      SamePick(s, e, s', t);
    }
    if NothingDangles(s, e) {
      SameDangling(s, e, s', t);
    }
  }

  // ----- The run about the type alone

  function Restricted(es: seq<Event>, t: TypeName): seq<Event> {
    if es == [] then [] else (if Concerns(es[0], t) then [es[0]] else []) + Restricted(es[1..], t)
  }

  lemma SkipStep(s: Network, e: Event, s': Network, t: TypeName)
    requires Enabled(s, e) && !Concerns(e, t) && Alike(s, s', t)
    ensures Alike(Step(s, e), s', t)
  {
    SkipNodes(s, e, s', t);
    SkipSent(s, e, s', t);
    SkipLog(s, e, s', t);
    SkipBooks(s, e, s', t);
  }

  lemma SameStep(h: Hypothesis, s: Network, e: Event, s': Network, t: TypeName)
    requires Permits(h, s, e) && Concerns(e, t) && Alike(s, s', t)
    ensures Permits(h, s', e) && Alike(Step(s, e), Step(s', e), t)
  {
    SameEnabled(s, e, s', t);
    SamePermits(h, s, e, s', t);
    SameNodes(s, e, s', t);
    SameSent(s, e, s', t);
    SameLog(s, e, s', t);
    SameBooks(s, e, s', t);
  }

  /**
   * Leaving out the events about other types gives a run under the hypothesis everywhere, with the same
   * outcome for the type.
   */
  lemma {:induction false} Projection(h: Hypothesis, t: TypeName, s: Network, es: seq<Event>, m: Network, s': Network)
    returns (m': Network)
    requires RunFor(h, t, s, es, m) && Alike(s, s', t)
    ensures Run(h, s', Restricted(es, t), m') && Alike(m, m', t)
    decreases |es|
  {
    if es == [] {
      m' := s';
      RunNothing(h, s');
    } else if Concerns(es[0], t) {
      SameStep(h, s, es[0], s', t);
      m' := Projection(h, t, Step(s, es[0]), es[1..], m, Step(s', es[0]));
      RunOne(h, s', es[0], Step(s', es[0]));
      RunConcat(h, s', [es[0]], Step(s', es[0]), Restricted(es[1..], t), m');
    } else {
      SkipStep(s, es[0], s', t);
      m' := Projection(h, t, Step(s, es[0]), es[1..], m, s');
      assert [] + Restricted(es[1..], t) == Restricted(es[1..], t);
    }
  }

  lemma ReachableAlike(h: Hypothesis, t: TypeName, ids: set<InstanceId>, s: Network) returns (s': Network)
    requires ReachableFor(h, t, ids, s)
    ensures Reachable(h, ids, s') && Alike(s, s', t)
  {
    var es :| RunFor(h, t, Start(ids), es, s);
    s' := Projection(h, t, Start(ids), es, s, Start(ids));
  }
}
