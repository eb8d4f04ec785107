/** Runs of the code as it is, under no hypothesis at all, and what every event of them keeps. */
module FreeRuns {
  import opened Ballots
  import opened ConsensusNetwork
  import opened ConsensusInvariants
  import opened ConsensusCounting

  ghost predicate FreeRun(s: Network, es: seq<Event>, s': Network)
    decreases |es|
  {
    if es == [] then s' == s
    else Enabled(s, es[0]) && FreeRun(Step(s, es[0]), es[1..], s')
  }

  /** Every run under a hypothesis is one of them. */
  lemma {:induction false} RunIsFree(h: Hypothesis, s: Network, es: seq<Event>, s': Network)
    requires Run(h, s, es, s')
    ensures FreeRun(s, es, s')
    decreases |es|
  {
    if es == [] {
      var states :| Chain(h, states, es) && states[0] == s && states[|es|] == s';
    } else {
      RunHead(h, s, es, s');
      RunIsFree(h, Step(s, es[0]), es[1..], s');
    }
  }

  lemma {:induction false} FreeConcat(s: Network, es: seq<Event>, m: Network, fs: seq<Event>, s': Network)
    requires FreeRun(s, es, m) && FreeRun(m, fs, s')
    ensures FreeRun(s, es + fs, s')
    decreases |es|
  {
    if es == [] {
      assert es + fs == fs;
    } else {
      FreeConcat(Step(s, es[0]), es[1..], m, fs, s');
      assert (es + fs)[1..] == es[1..] + fs;
    }
  }

  predicate Binding(m: Message) {
    m.Proposal? || m.Approval?
  }

  /** A message comes from a node, and a proposal or approval carries what its ballot decided. */
  predicate Announced(s: Network, env: Envelope) {
    && env.from in s.nodes
    && (Binding(env.msg) ==>
          && env.msg.key in s.log.proposed && env.msg.key in s.log.decisions
          && env.msg.address == s.log.decisions[env.msg.key].address)
  }

  ghost predicate AnnouncementsOk(s: Network) {
    forall env :: env in s.sent ==> Announced(s, env)
  }

  ghost predicate FreeInv(s: Network) {
    NodesOk(s) && PhasesOk(s) && AnnouncementsOk(s)
  }

  lemma StaysAnnounced(s: Network, s': Network, env: Envelope)
    requires Grows(s, s') && Announced(s, env)
    ensures Announced(s', env)
  {
  }

  lemma NewlySent(s: Network, e: Event, env: Envelope)
    requires Enabled(s, e) && NodesOk(s) && PhasesOk(s) && AnnouncementsOk(s)
    requires env in Step(s, e).sent && env !in s.sent
    ensures Announced(Step(s, e), env)
  {
    match e
    case ReceiveProposal(_, p) => assert Announced(s, p);
    case _ =>
  }

  lemma IdsKept(s: Network, e: Event)
    requires Enabled(s, e) && NodesOk(s)
    ensures NodesOk(Step(s, e))
  {
  }

  lemma FreeStep(s: Network, e: Event)
    requires Enabled(s, e) && FreeInv(s)
    ensures FreeInv(Step(s, e))
  {
    IdsKept(s, e);
    PhasesStep(s, e);
    StepGrows(s, e);
    forall env | env in Step(s, e).sent ensures Announced(Step(s, e), env) {
      if env in s.sent {
        StaysAnnounced(s, Step(s, e), env);
      } else {
        NewlySent(s, e, env);
      }
    }
  }

  lemma FreeStart(ids: set<InstanceId>)
    ensures FreeInv(Start(ids))
  {
  }

  lemma {:induction false} FreeRunKeeps(s: Network, es: seq<Event>, s': Network)
    requires FreeRun(s, es, s') && FreeInv(s)
    ensures FreeInv(s') && Grows(s, s')
    decreases |es|
  {
    if es != [] {
      FreeStep(s, es[0]);
      StepGrows(s, es[0]);
      FreeRunKeeps(Step(s, es[0]), es[1..], s');
    }
  }
}
