/** Where addresses come from, and what an acceptor's own record can and cannot do. */
module Provenance {
  import opened Wrappers
  import opened Ballots
  import opened ConsensusNode
  import opened ConsensusNetwork
  import opened ConsensusInvariants
  import opened ConsensusCounting
  import opened FreeRuns

  /** The address, if any, was drawn by some node for this very type. */
  predicate DrawnFor(s: Network, t: TypeName, ip: Option<Address>) {
    ip.Some? ==> (t, ip.value) in s.log.drawn
  }

  function Carried(m: Message): Option<Address> {
    match m
    case Promise(_, _, ip) => ip
    case Proposal(_, a) => Some(a)
    case Approval(_, a) => Some(a)
    case _ => None
  }

  ghost predicate SourcesOk(s: Network) {
    && (forall env :: env in s.sent ==> DrawnFor(s, env.msg.key.typeName, Carried(env.msg)))
    && (forall p, t :: p in s.nodes && t in s.nodes[p].proposals ==>
         DrawnFor(s, t, s.nodes[p].proposals[t].multicastIp))
    && (forall key :: key in s.log.decisions ==> (key.typeName, s.log.decisions[key].address) in s.log.drawn)
  }

  /** The reports waiting at a node carry addresses drawn for the type they are about. */
  ghost predicate WaitingOk(s: Network) {
    forall p, t :: p in s.nodes && t in s.nodes[p].promises ==> AllDrawn(s, t, s.nodes[p].promises[t])
  }

  ghost predicate AllDrawn(s: Network, t: TypeName, ms: seq<PromiseMessage>) {
    forall m :: m in ms ==> DrawnFor(s, t, m.multicastIp)
  }

  /** Every proposed ballot was announced. */
  ghost predicate ProposalsSent(s: Network) {
    forall key :: key in s.log.proposed ==>
      key in s.log.decisions && Envelope(key.ballot.instanceId, Proposal(key, s.log.decisions[key].address)) in s.sent
  }

  ghost predicate OriginsOk(s: Network) {
    SourcesOk(s) && WaitingOk(s) && ProposalsSent(s)
  }

  // ----- What each event does to the sources

  lemma SourcesClosePromises(s: Network, p: InstanceId, key: Key, draw: Option<Address>)
    requires WaitingOk(s) && SourcesOk(s) && p in s.nodes && key !in s.log.decisions
    ensures SourcesOk(DoClosePromises(s, p, key, draw))
  {
    var ms := PromisesFor(s.nodes[p], key.typeName);
    QuietClosePromises(s, p, key, draw);
    assert AllDrawn(s, key.typeName, ms);
    WithDataContents(ms);
    assert WithData(ms) != [] ==> NewestOf(WithData(ms)) in ms;
  }

  lemma SourcesReceivePreparation(s: Network, p: InstanceId, key: Key)
    requires SourcesOk(s) && p in s.nodes
    ensures SourcesOk(DoReceivePreparation(s, p, key))
  {
  }

  lemma SourcesSendProposal(s: Network, p: InstanceId, key: Key)
    requires SourcesOk(s) && p in s.nodes && key in s.log.decisions
    ensures SourcesOk(DoSendProposal(s, p, key))
  {
  }

  lemma SourcesReceiveProposal(s: Network, p: InstanceId, key: Key, a: Address)
    requires SourcesOk(s) && p in s.nodes && (key.typeName, a) in s.log.drawn
    ensures SourcesOk(DoReceiveProposal(s, p, key, a))
  {
  }

  lemma SourcesStep(s: Network, e: Event)
    requires Enabled(s, e) && PhasesOk(s) && SourcesOk(s) && WaitingOk(s)
    ensures SourcesOk(Step(s, e))
  {
    match e
    case ClosePromises(p, key, draw) => SourcesClosePromises(s, p, key, draw);
    case ReceivePreparation(p, env) => SourcesReceivePreparation(s, p, env.msg.key);
    case SendProposal(p, key) => SourcesSendProposal(s, p, key);
    case ReceiveProposal(p, env) => SourcesReceiveProposal(s, p, env.msg.key, env.msg.address);
    case StartAttempt(p, key) =>
    case _ => QuietStep(s, e); DecidedOnlyByClosing(s, e); DrawnKept(s, e);
  }

  lemma DrawnKept(s: Network, e: Event)
    requires Enabled(s, e)
    ensures s.log.drawn <= Step(s, e).log.drawn
    ensures !e.ClosePromises? ==> Step(s, e).log.drawn == s.log.drawn
  {
  }

  /** Reports start to wait only when they are heard. */
  lemma HeardOnlyByReceiving(s: Network, e: Event)
    requires Enabled(s, e)
    ensures !e.ReceivePromise? ==>
              forall p, t :: p in s.nodes && t in Step(s, e).nodes[p].promises ==>
                t in s.nodes[p].promises && Step(s, e).nodes[p].promises[t] == s.nodes[p].promises[t]
  {
  }

  lemma WaitingReceivePromise(s: Network, p: InstanceId, from: InstanceId, m: PromiseMessage)
    requires WaitingOk(s) && p in s.nodes && DrawnFor(s, m.key.typeName, m.multicastIp)
    ensures WaitingOk(DoReceivePromise(s, p, from, m))
  {
  }

  lemma WaitingStep(s: Network, e: Event)
    requires Enabled(s, e) && SourcesOk(s) && WaitingOk(s)
    ensures WaitingOk(Step(s, e))
  {
    if e.ReceivePromise? {
      WaitingReceivePromise(s, e.p, e.env.from, e.env.msg);
    } else {
      HeardOnlyByReceiving(s, e);
      DrawnKept(s, e);
      NodesKept(s, e);
      forall p, t | p in Step(s, e).nodes && t in Step(s, e).nodes[p].promises
        ensures AllDrawn(Step(s, e), t, Step(s, e).nodes[p].promises[t])
      {
        assert AllDrawn(s, t, s.nodes[p].promises[t]);
      }
    }
  }

  lemma ProposalsSentStep(s: Network, e: Event)
    requires Enabled(s, e) && PhasesOk(s) && ProposalsSent(s)
    ensures ProposalsSent(Step(s, e))
  {
    StepGrows(s, e);
    ProposedOnlyBySending(s, e);
  }

  lemma ProposedOnlyBySending(s: Network, e: Event)
    requires Enabled(s, e)
    ensures !e.SendProposal? ==> Step(s, e).log.proposed == s.log.proposed
    ensures e.SendProposal? ==>
              && Step(s, e).log.proposed == s.log.proposed + {e.key}
              && Envelope(e.p, Proposal(e.key, s.log.decisions[e.key].address)) in Step(s, e).sent
  {
  }

  lemma OriginsStart(ids: set<InstanceId>)
    ensures OriginsOk(Start(ids))
  {
  }

  lemma {:induction false} OriginsRun(s: Network, es: seq<Event>, s': Network)
    requires FreeRun(s, es, s') && FreeInv(s) && OriginsOk(s)
    ensures OriginsOk(s')
    decreases |es|
  {
    if es != [] {
      FreeStep(s, es[0]);
      SourcesStep(s, es[0]);
      WaitingStep(s, es[0]);
      ProposalsSentStep(s, es[0]);
      OriginsRun(Step(s, es[0]), es[1..], s');
    }
  }

  /**
   * One address per ballot, with provenance, in every run of the code whatsoever: messages of one ballot
   * never differ in address, every approval answers a proposal its proposer sent, and every address
   * anywhere was drawn for its type.
   */
  lemma OneAddressPerBallot(ids: set<InstanceId>, es: seq<Event>, s: Network)
    requires FreeRun(Start(ids), es, s)
    ensures forall m, n ::
              (m in s.sent && n in s.sent && m.msg.key == n.msg.key && Binding(m.msg) && Binding(n.msg)) ==>
                m.msg.address == n.msg.address
    ensures forall m :: m in s.sent && m.msg.Approval? ==>
              Envelope(m.msg.key.ballot.instanceId, Proposal(m.msg.key, m.msg.address)) in s.sent
    ensures SourcesOk(s)
  {
    FreeStart(ids);
    OriginsStart(ids);
    FreeRunKeeps(Start(ids), es, s);
    OriginsRun(Start(ids), es, s);
    forall m | m in s.sent && Binding(m.msg)
      ensures m.msg.key in s.log.proposed && m.msg.key in s.log.decisions
      ensures m.msg.address == s.log.decisions[m.msg.key].address
    {
      assert Announced(s, m);
    }
  }

  // ----- Promises are kept

  predicate ProposesAs(e: Event, a: InstanceId, t: TypeName) {
    e.SendProposal? && e.p == a && e.key.typeName == t
  }

  /** `after` is a record no older than `before` and keeps holding an address once one is held. */
  predicate NotLowered(before: map<TypeName, Record>, after: map<TypeName, Record>, t: TypeName) {
    t in before ==>
      && t in after
      && AtMost(before[t].ballot, after[t].ballot)
      && (before[t].multicastIp.Some? ==> after[t].multicastIp.Some?)
  }

  /** No hypothesis is needed: only a node's own proposal can lower its record. */
  lemma RecordNotLowered(s: Network, e: Event, a: InstanceId, t: TypeName)
    requires Enabled(s, e) && a in s.nodes && !ProposesAs(e, a, t)
    ensures a in Step(s, e).nodes && NotLowered(s.nodes[a].proposals, Step(s, e).nodes[a].proposals, t)
  {
    match e
    case ReceivePreparation(p, env) => PreparationRaises(s.nodes[p], env.msg.key, t);
    case ReceiveProposal(p, env) =>
    case _ =>
  }

  lemma PreparationRaises(n: Node, key: Key, t: TypeName)
    ensures NotLowered(n.proposals, OnPreparation(n, key).0.proposals, t)
  {
  }

  lemma {:induction false} KeptOverRun(s: Network, es: seq<Event>, s': Network, a: InstanceId, t: TypeName)
    requires FreeRun(s, es, s') && a in s.nodes
    requires forall e :: e in es ==> !ProposesAs(e, a, t)
    ensures a in s'.nodes && NotLowered(s.nodes[a].proposals, s'.nodes[a].proposals, t)
    decreases |es|
  {
    if es != [] {
      RecordNotLowered(s, es[0], a, t);
      KeptOverRun(Step(s, es[0]), es[1..], s', a, t);
    }
  }

  /**
   * Promises are kept: once a node promised a ballot, and as long as it makes no proposal of its own for
   * the type, every proposal it approves is of that ballot or a newer one, be it the first or a repeated
   * approval, every promise it makes is for a newer one, and it never forgets an address it holds.
   */
  lemma PromisesAreKept(s: Network, a: InstanceId, env: Envelope, es: seq<Event>, m: Network)
    requires Enabled(s, ReceivePreparation(a, env))
    requires env.msg.key.ballot.instanceId != s.nodes[a].id && MayPromise(s.nodes[a], env.msg.key)
    requires FreeRun(Step(s, ReceivePreparation(a, env)), es, m)
    requires forall e :: e in es ==> !ProposesAs(e, a, env.msg.key.typeName)
    ensures a in m.nodes
    ensures forall p: Envelope ::
              (&& Enabled(m, ReceiveProposal(a, p)) && p.msg.key.typeName == env.msg.key.typeName
               && OnProposal(m.nodes[a], p.msg.key, p.msg.address).Ok?) ==>
                AtMost(env.msg.key.ballot, p.msg.key.ballot)
    ensures forall key: Key ::
              key.typeName == env.msg.key.typeName && MayPromise(m.nodes[a], key) ==>
                ProposalIsNewer(env.msg.key.ballot, key.ballot)
    ensures Reported(s.nodes[a], env.msg.key.typeName).multicastIp.Some? ==>
              Reported(m.nodes[a], env.msg.key.typeName).multicastIp.Some?
  {
    KeptOverRun(Step(s, ReceivePreparation(a, env)), es, m, a, env.msg.key.typeName);
  }
}
