/**
 * The acceptors of the network: what one node takes in and sends about one type, over any run of the code as
 * it is, against the Paxos acceptor.
 */
module AcceptorRuns {
  import opened Wrappers
  import opened Ballots
  import opened ConsensusNode
  import opened ConsensusNetwork
  import opened FreeRuns
  import opened Locality
  import opened AcceptorRefinement

  // ----- What one node takes in and answers

  /** The event reaches node `a` as acceptor for type `t`. */
  predicate Asks(e: Event, a: InstanceId, t: TypeName) {
    && e.p == a && (e.ReceivePreparation? || e.ReceiveProposal? || e.SendProposal?)
    && Concerns(e, t)
  }

  function InputOf(s: Network, e: Event): Input
    requires Enabled(s, e) && (e.ReceivePreparation? || e.ReceiveProposal? || e.SendProposal?)
  {
    match e
    case ReceivePreparation(_, env) => Prepare(env.msg.key)
    case ReceiveProposal(_, env) => Propose(env.msg.key, env.msg.address)
    case SendProposal(_, key) => OwnProposal(key, s.log.decisions[key].address)
  }

  /** The answer as read off the message that is sent. */
  function ReplyIn(message: Option<Envelope>): Reply {
    match message
    case None => Silent
    case Some(Envelope(_, Rejection(_))) => Refused
    case Some(Envelope(_, Promise(_, accepted, ip))) => Promised(if ip.Some? then Some((accepted, ip.value)) else None)
    case Some(_) => Approved
  }

  function History(s: Network, es: seq<Event>, a: InstanceId, t: TypeName): seq<Input>
    decreases |es|
  {
    if es == [] || !Enabled(s, es[0]) then []
    else (if Asks(es[0], a, t) then [InputOf(s, es[0])] else []) + History(Step(s, es[0]), es[1..], a, t)
  }

  function Answers(s: Network, es: seq<Event>, a: InstanceId, t: TypeName): seq<Reply>
    decreases |es|
  {
    if es == [] || !Enabled(s, es[0]) then []
    else (if Asks(es[0], a, t) then [ReplyIn(Sends(s, es[0]))] else []) + Answers(Step(s, es[0]), es[1..], a, t)
  }

  /** Node `a` never promises while its record dangles and never lowers its record by an own proposal. */
  predicate Clean(s: Network, es: seq<Event>, a: InstanceId, t: TypeName)
    decreases |es|
  {
    es != [] && Enabled(s, es[0]) ==>
      && (Asks(es[0], a, t) ==> NothingDangles(s, es[0]) && OwnWriteNotOlder(s, es[0]))
      && Clean(Step(s, es[0]), es[1..], a, t)
  }

  // ----- One event

  /** The node's record of the type, and the identifier by which it knows its own preparations. */
  predicate SameAcceptor(n: Node, n': Node, t: TypeName) {
    && n'.id == n.id && (t in n'.proposals <==> t in n.proposals)
    && (t in n.proposals ==> n'.proposals[t] == n.proposals[t])
  }

  /** The network does to the record, and sends, what the acceptor does and replies. */
  lemma AskedResponds(s: Network, e: Event, a: InstanceId, t: TypeName)
    requires Enabled(s, e) && Asks(e, a, t)
    ensures var (n', r) := Respond(s.nodes[a], InputOf(s, e));
            SameAcceptor(n', Step(s, e).nodes[a], t) && r == ReplyIn(Sends(s, e))
  {
  }

  lemma UnaskedKeeps(s: Network, e: Event, a: InstanceId, t: TypeName)
    requires Enabled(s, e) && a in s.nodes && !Asks(e, a, t)
    ensures a in Step(s, e).nodes && SameAcceptor(s.nodes[a], Step(s, e).nodes[a], t)
  {
  }

  lemma RespondsAlike(n: Node, n': Node, t: TypeName, i: Input)
    requires SameAcceptor(n, n', t) && i.key.typeName == t
    ensures SameAcceptor(Respond(n, i).0, Respond(n', i).0, t) && Respond(n', i).1 == Respond(n, i).1
  {
  }

  /** Over any run the answers sent are those of the single record, given what reached it. */
  lemma {:induction false} AnswersAreReplies(s: Network, es: seq<Event>, s': Network, a: InstanceId, t: TypeName,
                                             n: Node)
    requires FreeRun(s, es, s') && a in s.nodes && SameAcceptor(n, s.nodes[a], t)
    ensures Answers(s, es, a, t) == Replies(n, History(s, es, a, t))
    ensures AllAbout(t, History(s, es, a, t))
    decreases |es|
  {
    if es != [] {
      var e, m := es[0], Step(s, es[0]);
      if Asks(e, a, t) {
        AskedResponds(s, e, a, t);
        RespondsAlike(n, s.nodes[a], t, InputOf(s, e));
        AnswersAreReplies(m, es[1..], s', a, t, Respond(n, InputOf(s, e)).0);
        assert History(s, es, a, t)[1..] == History(m, es[1..], a, t);
      } else {
        UnaskedKeeps(s, e, a, t);
        AnswersAreReplies(m, es[1..], s', a, t, n);
        assert History(s, es, a, t) == History(m, es[1..], a, t);
      }
    }
  }

  // ----- What the node accepted last

  /** `at` is the newest ballot of the type the node accepted, and its record has reached it. */
  ghost predicate AcceptedLast(s: Network, a: InstanceId, t: TypeName, at: Option<Ballot>)
    requires a in s.nodes
  {
    && (at.Some? ==>
          && Accepted(s, a, Key(t, at.value)) && t in s.nodes[a].proposals
          && AtMost(at.value, s.nodes[a].proposals[t].ballot))
    && forall b :: Accepted(s, a, Key(t, b)) ==> at.Some? && AtMost(b, at.value)
  }

  lemma DanglesIff(s: Network, a: InstanceId, t: TypeName, at: Option<Ballot>)
    requires a in s.nodes && AcceptedLast(s, a, t, at) && t in s.nodes[a].proposals
    ensures var r := s.nodes[a].proposals[t];
            Dangling(s, a, t) <==> r.multicastIp.Some? && at != Some(r.ballot)
  {
  }

  /** The two conditions of one event, in the terms of the network and in those of the acceptor. */
  lemma SameConditions(s: Network, e: Event, a: InstanceId, t: TypeName, at: Option<Ballot>)
    requires Enabled(s, e) && Asks(e, a, t) && AcceptedLast(s, a, t, at)
    ensures var n, i := s.nodes[a], InputOf(s, e);
            && (NothingDangles(s, e) <==> PromiseHolds(n, t, at, Respond(n, i).1))
            && (OwnWriteNotOlder(s, e) <==> NotOlder(n, t, i))
  {
    if t in s.nodes[a].proposals {
      DanglesIff(s, a, t, at);
    }
  }

  /** An event that is not an acceptance by the node itself leaves what it accepted alone. */
  lemma AcceptedElsewhere(s: Network, e: Event, a: InstanceId, key: Key)
    requires Enabled(s, e) && FreeInv(s)
    requires !(e.p == a && (e.ReceiveProposal? || e.SendProposal?) && KeyOf(e) == key)
    ensures Accepted(Step(s, e), a, key) <==> Accepted(s, a, key)
  {
    if e.ClosePromises? {
      assert key in s.log.decisions ==> key in s.log.closed;
    }
    forall x | Envelope(a, Approval(key, x)) in s.sent ensures key in s.log.decisions {
      assert Announced(s, Envelope(a, Approval(key, x)));
    }
  }

  lemma AcceptedNow(s: Network, e: Event, a: InstanceId, t: TypeName)
    requires Enabled(s, e) && FreeInv(s) && Asks(e, a, t) && Respond(s.nodes[a], InputOf(s, e)).1.Approved?
    ensures Accepted(Step(s, e), a, KeyOf(e))
  {
    if e.ReceiveProposal? {
      assert Announced(s, e.env);
    }
  }

  lemma NotAccepted(s: Network, e: Event, a: InstanceId, key: Key)
    requires Enabled(s, e) && e.ReceiveProposal? && OnProposal(s.nodes[e.p], e.env.msg.key, e.env.msg.address).Err?
    ensures Accepted(Step(s, e), a, key) <==> Accepted(s, a, key)
  {
  }

  lemma AcceptedLastStep(s: Network, e: Event, a: InstanceId, t: TypeName, at: Option<Ballot>)
    requires Enabled(s, e) && FreeInv(s) && a in s.nodes && AcceptedLast(s, a, t, at)
    requires Asks(e, a, t) ==> OwnWriteNotOlder(s, e)
    ensures a in Step(s, e).nodes
    ensures AcceptedLast(Step(s, e), a, t,
                         if Asks(e, a, t) then AcceptedAtAfter(at, InputOf(s, e), Respond(s.nodes[a], InputOf(s, e)).1)
                         else at)
  {
    var s' := Step(s, e);
    if Asks(e, a, t) {
      AskedResponds(s, e, a, t);
      var (n', r) := Respond(s.nodes[a], InputOf(s, e));
      if r.Approved? {
        AcceptedNow(s, e, a, t);
        forall b | Accepted(s', a, Key(t, b)) ensures AtMost(b, KeyOf(e).ballot) {
          if Key(t, b) != KeyOf(e) {
            AcceptedElsewhere(s, e, a, Key(t, b));
          }
        }
      } else {
        forall b ensures Accepted(s', a, Key(t, b)) <==> Accepted(s, a, Key(t, b)) {
          if e.ReceiveProposal? {
            NotAccepted(s, e, a, Key(t, b));
          } else {
            AcceptedElsewhere(s, e, a, Key(t, b));
          }
        }
      }
    } else {
      UnaskedKeeps(s, e, a, t);
      forall b ensures Accepted(s', a, Key(t, b)) <==> Accepted(s, a, Key(t, b)) {
        AcceptedElsewhere(s, e, a, Key(t, b));
      }
    }
  }

  // ----- Whole runs

  lemma FoldsAlike(n: Node, n': Node, t: TypeName, at: Option<Ballot>, p: Paxos)
    requires SameAcceptor(n, n', t) && Folds(n, t, at, p)
    ensures Folds(n', t, at, p)
  {
  }

  lemma TraceHead(p: Paxos, i: Input, inputs: seq<Input>, r: Reply, replies: seq<Reply>)
    ensures PaxosTrace(p, [i] + inputs, [r] + replies)
            <==> Allowed(p, i, r) && PaxosTrace(PaxosNext(p, i, r), inputs, replies)
  {
    assert ([i] + inputs)[1..] == inputs && ([r] + replies)[1..] == replies;
  }

  lemma {:induction false} TraceIffClean(s: Network, es: seq<Event>, s': Network, a: InstanceId, t: TypeName,
                                         at: Option<Ballot>, p: Paxos)
    requires FreeRun(s, es, s') && FreeInv(s) && a in s.nodes
    requires AcceptedLast(s, a, t, at) && Folds(s.nodes[a], t, at, p)
    ensures PaxosTrace(p, History(s, es, a, t), Answers(s, es, a, t)) <==> Clean(s, es, a, t)
    decreases |es|
  {
    if es != [] {
      var e, m := es[0], Step(s, es[0]);
      FreeStep(s, e);
      if Asks(e, a, t) {
        var i := InputOf(s, e);
        var (n', r) := Respond(s.nodes[a], i);
        AskedResponds(s, e, a, t);
        SameConditions(s, e, a, t, at);
        StepRefines(s.nodes[a], t, at, p, i);
        TraceHead(p, i, History(m, es[1..], a, t), r, Answers(m, es[1..], a, t));
        if OwnWriteNotOlder(s, e) {
          AcceptedLastStep(s, e, a, t, at);
          FoldsAlike(n', m.nodes[a], t, AcceptedAtAfter(at, i, r), PaxosNext(p, i, r));
          TraceIffClean(m, es[1..], s', a, t, AcceptedAtAfter(at, i, r), PaxosNext(p, i, r));
        }
      } else {
        UnaskedKeeps(s, e, a, t);
        AcceptedLastStep(s, e, a, t, at);
        FoldsAlike(s.nodes[a], m.nodes[a], t, at, p);
        TraceIffClean(m, es[1..], s', a, t, at, p);
        assert [] + History(m, es[1..], a, t) == History(m, es[1..], a, t);
        assert [] + Answers(m, es[1..], a, t) == Answers(m, es[1..], a, t);
      }
    }
  }

  /**
   * In every run of the network, under no assumption, what a node answers about a type is what a Paxos acceptor
   * answers to the same inputs if and only if the node never promises while its record dangles and never lowers
   * its record by an own proposal.
   */
  lemma NodeIsPaxosIff(ids: set<InstanceId>, es: seq<Event>, s: Network, a: InstanceId, t: TypeName)
    requires FreeRun(Start(ids), es, s) && a in ids
    ensures PaxosTrace(Paxos(None, None), History(Start(ids), es, a, t), Answers(Start(ids), es, a, t))
            <==> Clean(Start(ids), es, a, t)
  {
    FreeStart(ids);
    TraceIffClean(Start(ids), es, s, a, t, None, Paxos(None, None));
  }

  lemma {:induction false} NoDanglingIsClean(t: TypeName, s: Network, es: seq<Event>, s': Network, a: InstanceId)
    requires RunFor(NoDangling, t, s, es, s')
    ensures FreeRun(s, es, s') && Clean(s, es, a, t)
    decreases |es|
  {
    if es != [] {
      NoDanglingIsClean(t, Step(s, es[0]), es[1..], s', a);
    }
  }

  /** So where no promise about a type dangles and no own write is older, all nodes are Paxos acceptors for it. */
  lemma AllArePaxos(ids: set<InstanceId>, es: seq<Event>, s: Network, a: InstanceId, t: TypeName)
    requires RunFor(NoDangling, t, Start(ids), es, s) && a in ids
    ensures PaxosTrace(Paxos(None, None), History(Start(ids), es, a, t), Answers(Start(ids), es, a, t))
  {
    NoDanglingIsClean(t, Start(ids), es, s, a);
    NodeIsPaxosIff(ids, es, s, a, t);
  }
}
