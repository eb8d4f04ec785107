/**
 * Many nodes and the messages between them. A message stays available once sent, so it may be lost,
 * delayed, reordered or delivered twice; one event is one uninterrupted stretch of one node's code.
 */
module ConsensusNetwork {
  import opened Wrappers
  import opened Ballots
  import opened ConsensusNode

  datatype Envelope = Envelope(from: InstanceId, msg: Message)

  /** What ended a promise wait in favour of proposing, and on whose promises. */
  datatype Decision = Decision(address: Address, newlyDrawn: bool, quorum: seq<InstanceId>,
                               reports: seq<PromiseMessage>)

  /** How far each attempt got, and which addresses were drawn for which type. */
  datatype Log = Log(
    prepared: set<Key>,
    closed: set<Key>,
    decisions: map<Key, Decision>,
    proposed: set<Key>,
    finished: set<Key>,
    returned: map<Key, Address>,
    drawn: set<(TypeName, Address)>)

  datatype Count = Count(learner: InstanceId, key: Key, acceptor: InstanceId)

  /** Who is behind each counter: the senders of waiting promises, of counted approvals, the commits. */
  datatype Books = Books(
    promisers: map<(InstanceId, TypeName), seq<InstanceId>>,
    counted: set<Count>,
    commits: map<(InstanceId, Key), seq<Address>>)

  /** `nodes` and `sent` drive the system; `log` and `books` record what the code itself does not keep. */
  datatype Network = Network(nodes: map<InstanceId, Node>, sent: set<Envelope>, log: Log, books: Books)

  datatype Event =
    | SetPeers(p: InstanceId, count: nat)
    | StartAttempt(p: InstanceId, key: Key)
    | ReceivePreparation(p: InstanceId, env: Envelope)
    | ReceivePromise(p: InstanceId, env: Envelope)
    | ReceiveRejection(p: InstanceId, env: Envelope)
    | ClosePromises(p: InstanceId, key: Key, draw: Option<Address>)
    | SendProposal(p: InstanceId, key: Key)
    | ReceiveProposal(p: InstanceId, env: Envelope)
    | ReceiveApproval(p: InstanceId, env: Envelope, commitSucceeds: bool)
    | CloseApprovals(p: InstanceId, key: Key)

  /** No node knows a peer, a record or a message. */
  function Start(ids: set<InstanceId>): Network {
    Network(map i | i in ids :: Node(i, 0, map[], map[], map[], map[]),
            {}, Log({}, {}, map[], {}, {}, map[], {}), Books(map[], {}, map[]))
  }

  function PromisersOf(s: Network, p: InstanceId, t: TypeName): seq<InstanceId> {
    if (p, t) in s.books.promisers then s.books.promisers[(p, t)] else []
  }

  function CommitsOf(s: Network, p: InstanceId, key: Key): seq<Address> {
    if (p, key) in s.books.commits then s.books.commits[(p, key)] else []
  }

  /** What the code itself requires of an event: the message was sent, the attempt is in that phase. */
  predicate Enabled(s: Network, e: Event) {
    && e.p in s.nodes
    && match e
       case SetPeers(_, _) => true
       case StartAttempt(p, key) => key.ballot.instanceId == p
       case ReceivePreparation(_, env) => env in s.sent && env.msg.Preparation?
       case ReceivePromise(_, env) => env in s.sent && env.msg.Promise?
       case ReceiveRejection(_, env) => env in s.sent && env.msg.Rejection?
       case ClosePromises(p, key, _) => key.ballot.instanceId == p && key in s.log.prepared && key !in s.log.closed
       case SendProposal(p, key) => key.ballot.instanceId == p && key in s.log.decisions && key !in s.log.proposed
       case ReceiveProposal(_, env) => env in s.sent && env.msg.Proposal?
       case ReceiveApproval(_, env, _) => env in s.sent && env.msg.Approval?
       case CloseApprovals(p, key) =>
         key.ballot.instanceId == p && key in s.log.proposed && key in s.log.decisions && key !in s.log.finished
  }

  function DoStartAttempt(s: Network, p: InstanceId, key: Key): Network {
    s.(log := s.log.(prepared := s.log.prepared + {key}), sent := s.sent + {Envelope(p, Preparation(key))})
  }

  function DoReceivePreparation(s: Network, p: InstanceId, key: Key): Network
    requires p in s.nodes
  {
    var (n, reply) := OnPreparation(s.nodes[p], key);
    var sent := if reply.Some? then s.sent + {Envelope(p, reply.value)} else s.sent;
    s.(nodes := s.nodes[p := n], sent := sent)
  }

  function DoReceivePromise(s: Network, p: InstanceId, from: InstanceId, m: PromiseMessage): Network
    requires p in s.nodes
  {
    var t := m.key.typeName;
    var s' := s.(nodes := s.nodes[p := OnPromise(s.nodes[p], m)]);
    if m.key.ballot.instanceId != s.nodes[p].id then s'
    else s'.(books := s.books.(promisers := s.books.promisers[(p, t) := PromisersOf(s, p, t) + [from]]))
  }

  /** `draw` is what get_address comes to if it is called: an address, or none left. */
  function DoClosePromises(s: Network, p: InstanceId, key: Key, draw: Option<Address>): Network
    requires p in s.nodes
  {
    var t := key.typeName;
    var reports := PromisesFor(s.nodes[p], t);
    var quorum := PromisersOf(s, p, t);
    var log := s.log.(closed := s.log.closed + {key});
    s.(nodes := s.nodes[p := TakePromises(s.nodes[p], t)],
       books := s.books.(promisers := s.books.promisers - {(p, t)}),
       log :=
         match Judge(s.nodes[p].numPeers, reports, RejectionsFor(s.nodes[p], t))
         case PreparationRejected => log
         case Repropose(a) => log.(decisions := log.decisions[key := Decision(a, false, quorum, reports)])
         case DrawFresh =>
           if draw.None? then log
           else log.(decisions := log.decisions[key := Decision(draw.value, true, quorum, reports)],
                     drawn := log.drawn + {(t, draw.value)}))
  }

  function DoSendProposal(s: Network, p: InstanceId, key: Key): Network
    requires p in s.nodes && key in s.log.decisions
  {
    var a := s.log.decisions[key].address;
    s.(nodes := s.nodes[p := WithRecord(s.nodes[p], key, a)],
       log := s.log.(proposed := s.log.proposed + {key}),
       sent := s.sent + {Envelope(p, Proposal(key, a))})
  }

  function DoReceiveProposal(s: Network, p: InstanceId, key: Key, a: Address): Network
    requires p in s.nodes
  {
    match OnProposal(s.nodes[p], key, a)
    case Err(_) => s
    case Ok(n) => s.(nodes := s.nodes[p := n], sent := s.sent + {Envelope(p, Approval(key, a))})
  }

  function DoReceiveApproval(s: Network, p: InstanceId, from: InstanceId, key: Key, a: Address,
                             commitSucceeds: bool): Network
    requires p in s.nodes
  {
    var (n, effect) := OnApproval(s.nodes[p], key, a);
    var books := s.books.(counted := s.books.counted + {Count(p, key, from)});
    if effect.Commit? && commitSucceeds then
      s.(nodes := s.nodes[p := AfterCommit(n, key)],
         books := books.(commits := books.commits[(p, key) := CommitsOf(s, p, key) + [effect.address]]))
    else s.(nodes := s.nodes[p := n], books := books)
  }

  function DoCloseApprovals(s: Network, p: InstanceId, key: Key): Network
    requires p in s.nodes && key in s.log.decisions
  {
    var log := s.log.(finished := s.log.finished + {key});
    s.(log := if ApprovalTest(s.nodes[p], key)
              then log.(returned := log.returned[key := log.decisions[key].address]) else log)
  }

  function Step(s: Network, e: Event): Network
    requires Enabled(s, e)
  {
    match e
    case SetPeers(p, count) => s.(nodes := s.nodes[p := s.nodes[p].(numPeers := count)])
    case StartAttempt(p, key) => DoStartAttempt(s, p, key)
    case ReceivePreparation(p, env) => DoReceivePreparation(s, p, env.msg.key)
    case ReceivePromise(p, env) => DoReceivePromise(s, p, env.from, env.msg)
    case ReceiveRejection(p, env) => s.(nodes := s.nodes[p := OnRejection(s.nodes[p], env.msg.key)])
    case ClosePromises(p, key, draw) => DoClosePromises(s, p, key, draw)
    case SendProposal(p, key) => DoSendProposal(s, p, key)
    case ReceiveProposal(p, env) => DoReceiveProposal(s, p, env.msg.key, env.msg.address)
    case ReceiveApproval(p, env, ok) => DoReceiveApproval(s, p, env.from, env.msg.key, env.msg.address, ok)
    case CloseApprovals(p, key) => DoCloseApprovals(s, p, key)
  }

  /** Accepting a proposal and counting the own approval, one reaction in the code, are two events here. */
  lemma ProposalReactionIsTwoEvents(s: Network, p: InstanceId, env: Envelope, commitSucceeds: bool)
    requires Enabled(s, ReceiveProposal(p, env)) && OnProposal(s.nodes[p], env.msg.key, env.msg.address).Ok?
    ensures var m := Step(s, ReceiveProposal(p, env));
            var own := ReceiveApproval(p, Envelope(p, Approval(env.msg.key, env.msg.address)), commitSucceeds);
            && Enabled(m, own)
            && Step(m, own).nodes
               == s.nodes[p := Counted(OnProposal(s.nodes[p], env.msg.key, env.msg.address).value,
                                       env.msg.key, env.msg.address, commitSucceeds).0]
  {
  }

  // ----- Who accepted what

  predicate ApprovedBy(s: Network, a: InstanceId, key: Key) {
    key in s.log.decisions && Envelope(a, Approval(key, s.log.decisions[key].address)) in s.sent
  }

  /** A node accepts a ballot by approving its proposal, or by proposing it. */
  predicate Accepted(s: Network, a: InstanceId, key: Key) {
    ApprovedBy(s, a, key) || (key in s.log.proposed && key.ballot.instanceId == a)
  }

  function Approvers(s: Network, key: Key): set<InstanceId> {
    set a | a in s.nodes && ApprovedBy(s, a, key)
  }

  /** A strict majority of all nodes approved the ballot. */
  predicate Chosen(s: Network, key: Key) {
    key in s.log.decisions && 2 * |Approvers(s, key)| > |s.nodes|
  }

  // ----- The hypotheses under which runs are considered

  /**
   * Basic: peers are never under-counted, an acceptor is counted once and only toward the ballot it
   * answered, and a proposer's own write does not lower its record.
   * Honest: moreover the promise an attempt picks reports a ballot that proposed that very address.
   * NoDangling: moreover (and this entails Honest) an acceptor holding an address has accepted the
   * ballot of its record whenever it promises another one.
   * Contended: all of these, except that a proposer's own write may lower its record.
   * Miscounted: all of these, except that promises may be counted toward a later ballot of their proposer.
   * Repeated: all of these, except that a promise may be counted again.
   * Recounted: all of these, except that an approval may be counted again.
   * Undercounted: all of these, except that a node may know of too few peers.
   * Proposing: of Basic only what the choice itself rests on: enough promisers where enough promises count.
   */
  datatype Hypothesis =
    | Basic | Honest | NoDangling
    | Contended | Miscounted | Repeated | Recounted | Undercounted
    | Proposing

  /** Nothing that Basic assumes is dropped. */
  predicate AtLeastBasic(h: Hypothesis) {
    h.Basic? || h.Honest? || h.NoDangling?
  }

  /** Nothing that Proposing assumes is dropped. */
  predicate AtLeastProposing(h: Hypothesis) {
    AtLeastBasic(h) || h.Recounted? || h.Proposing?
  }

  function Members(ids: seq<InstanceId>): set<InstanceId> {
    set id | id in ids
  }

  ghost predicate Distinct(ids: seq<InstanceId>) {
    forall i, j :: 0 <= i < j < |ids| ==> ids[i] != ids[j]
  }

  predicate PeersCounted(s: Network, e: Event)
    requires Enabled(s, e)
  {
    e.ClosePromises? || e.ReceiveApproval? || e.CloseApprovals? ==> |s.nodes| <= s.nodes[e.p].numPeers
  }

  ghost predicate PromisersDistinct(s: Network, e: Event)
    requires Enabled(s, e)
  {
    e.ClosePromises? ==> Distinct(PromisersOf(s, e.p, e.key.typeName))
  }

  /** As many promises as half the nodes come from as many nodes as that. */
  predicate PromisersSuffice(s: Network, e: Event)
    requires Enabled(s, e)
  {
    e.ClosePromises? ==>
      var ids := PromisersOf(s, e.p, e.key.typeName);
      2 * |ids| >= |s.nodes| ==> 2 * |Members(ids)| >= |s.nodes|
  }

  predicate ApprovalCountedOnce(s: Network, e: Event)
    requires Enabled(s, e)
  {
    e.ReceiveApproval? ==> Count(e.p, e.env.msg.key, e.env.from) !in s.books.counted
  }

  predicate CountedForBallot(s: Network, e: Event)
    requires Enabled(s, e)
  {
    e.ClosePromises? ==> forall m :: m in PromisesFor(s.nodes[e.p], e.key.typeName) ==> m.key == e.key
  }

  predicate OwnWriteNotOlder(s: Network, e: Event)
    requires Enabled(s, e)
  {
    e.SendProposal? && e.key.typeName in s.nodes[e.p].proposals ==>
      AtMost(s.nodes[e.p].proposals[e.key.typeName].ballot, e.key.ballot)
  }

  /** The promise `m` names a ballot of its type that really proposed the address it carries. */
  predicate HonestReport(s: Network, m: PromiseMessage) {
    var source := Key(m.key.typeName, m.accepted);
    source in s.log.proposed && source in s.log.decisions && m.multicastIp == Some(s.log.decisions[source].address)
  }

  predicate PickHonest(s: Network, e: Event)
    requires Enabled(s, e)
  {
    e.ClosePromises? ==>
      var n, t := s.nodes[e.p], e.key.typeName;
      var data := WithData(PromisesFor(n, t));
      data != [] && Judge(n.numPeers, PromisesFor(n, t), RejectionsFor(n, t)).Repropose? ==>
        HonestReport(s, NewestOf(data))
  }

  /** The node holds an address, but not one it accepted at the ballot its record names. */
  predicate Dangling(s: Network, p: InstanceId, t: TypeName)
    requires p in s.nodes && t in s.nodes[p].proposals
  {
    var r := s.nodes[p].proposals[t];
    r.multicastIp.Some? && !Accepted(s, p, Key(t, r.ballot))
  }

  predicate NothingDangles(s: Network, e: Event)
    requires Enabled(s, e)
  {
    (&& e.ReceivePreparation? && e.env.msg.key.ballot.instanceId != s.nodes[e.p].id
     && MayPromise(s.nodes[e.p], e.env.msg.key)) ==>
      var t := e.env.msg.key.typeName;
      t in s.nodes[e.p].proposals ==> !Dangling(s, e.p, t)
  }

  ghost predicate Permits(h: Hypothesis, s: Network, e: Event) {
    && Enabled(s, e)
    && (h.Repeated? || (if h.Proposing? then PromisersSuffice(s, e) else PromisersDistinct(s, e)))
    && (h.Undercounted? || (h.Proposing? && !e.ClosePromises?) || PeersCounted(s, e))
    && (h.Recounted? || h.Proposing? || ApprovalCountedOnce(s, e))
    && (h.Miscounted? || CountedForBallot(s, e))
    && (h.Contended? || OwnWriteNotOlder(s, e))
    && (h.Basic? || h.NoDangling? || h.Proposing? || PickHonest(s, e))
    && (h.Basic? || h.Honest? || h.Proposing? || NothingDangles(s, e))
  }

  // ----- Runs

  /** `e` is permitted in `m` and leads to `m'`. */
  ghost predicate Leads(h: Hypothesis, m: Network, e: Event, m': Network) {
    Permits(h, m, e) && Step(m, e) == m'
  }

  ghost predicate Chain(h: Hypothesis, states: seq<Network>, es: seq<Event>) {
    && |states| == |es| + 1
    && forall k :: 0 <= k < |es| ==> Leads(h, states[k], es[k], states[k + 1])
  }

  /** `s` leads to `s'` by the events `es`, each permitted when it happens. */
  ghost predicate Run(h: Hypothesis, s: Network, es: seq<Event>, s': Network) {
    exists states :: Chain(h, states, es) && states[0] == s && states[|es|] == s'
  }

  lemma ChainRun(h: Hypothesis, states: seq<Network>, es: seq<Event>)
    requires Chain(h, states, es)
    ensures Run(h, states[0], es, states[|es|])
  {
  }

  lemma RunNothing(h: Hypothesis, s: Network)
    ensures Run(h, s, [], s)
  {
    assert Chain(h, [s], []);
  }

  lemma RunOne(h: Hypothesis, s: Network, e: Event, s': Network)
    requires Leads(h, s, e, s')
    ensures Run(h, s, [e], s')
  {
    assert Chain(h, [s, s'], [e]);
  }

  lemma RunConcat(h: Hypothesis, s: Network, es: seq<Event>, m: Network, fs: seq<Event>, s': Network)
    requires Run(h, s, es, m) && Run(h, m, fs, s')
    ensures Run(h, s, es + fs, s')
  {
    var l :| Chain(h, l, es) && l[0] == s && l[|es|] == m;
    var r :| Chain(h, r, fs) && r[0] == m && r[|fs|] == s';
    var states := l + r[1..];
    forall k | 0 <= k < |es + fs| ensures Leads(h, states[k], (es + fs)[k], states[k + 1]) {
      if k < |es| {
        assert Leads(h, l[k], es[k], l[k + 1]);
      } else {
        assert Leads(h, r[k - |es|], fs[k - |es|], r[k - |es| + 1]);
      }
    }
    assert Chain(h, states, es + fs);
  }

  lemma RunHead(h: Hypothesis, s: Network, es: seq<Event>, s': Network)
    requires Run(h, s, es, s') && es != []
    ensures Permits(h, s, es[0]) && Run(h, Step(s, es[0]), es[1..], s')
  {
    var states :| Chain(h, states, es) && states[0] == s && states[|es|] == s';
    assert Leads(h, states[0], es[0], states[1]);
    forall k | 0 <= k < |es[1..]| ensures Leads(h, states[1..][k], es[1..][k], states[1..][k + 1]) {
      assert Leads(h, states[k + 1], es[k + 1], states[k + 2]);
    }
    assert Chain(h, states[1..], es[1..]);
  }
}
