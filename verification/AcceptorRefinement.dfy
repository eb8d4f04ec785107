/**
 * One node as acceptor for one type, against the acceptor of section 2.2 of "Paxos Made Simple" by
 * Lamport, which keeps the ballot it promised apart from the ballot and value it accepted.
 */
module AcceptorRefinement {
  import opened Wrappers
  import opened Ballots
  import opened ConsensusNode

  /** `OwnProposal` is the unconditional write of a proposer to its own record. */
  datatype Input = Prepare(key: Key) | Propose(key: Key, address: Address) | OwnProposal(key: Key, address: Address)

  datatype Reply = Silent | Refused | Promised(report: Option<(Ballot, Address)>) | Approved

  // ----- The code's acceptor: a single record

  function Respond(n: Node, i: Input): (Node, Reply) {
    match i
    case Prepare(key) =>
      (match OnPreparation(n, key)
       case (n', Some(Promise(_, accepted, ip))) =>
         (n', Promised(if ip.Some? then Some((accepted, ip.value)) else None))
       case (n', Some(_)) => (n', Refused)
       case (n', None) => (n', Silent))
    case Propose(key, a) =>
      (match OnProposal(n, key, a)
       case Ok(n') => (n', Approved)
       case Err(_) => (n, Silent))
    case OwnProposal(key, a) => (WithRecord(n, key, a), Approved)
  }

  function Replies(n: Node, inputs: seq<Input>): seq<Reply>
    decreases |inputs|
  {
    if inputs == [] then []
    else
      var (n', r) := Respond(n, inputs[0]);
      [r] + Replies(n', inputs[1..])
  }

  // ----- The Paxos acceptor: promised and accepted apart

  datatype Paxos = Paxos(promised: Option<Ballot>, accepted: Option<(Ballot, Address)>)

  /** It may stay silent, but what it answers is forced by what it promised and accepted. */
  predicate Allowed(p: Paxos, i: Input, r: Reply) {
    var b := i.key.ballot;
    match r
    case Silent => true
    case Refused => i.Prepare? && p.promised.Some? && AtMost(b, p.promised.value)
    case Promised(report) =>
      i.Prepare? && (p.promised.Some? ==> ProposalIsNewer(p.promised.value, b)) && report == p.accepted
    case Approved => !i.Prepare? && (p.promised.Some? ==> AtMost(p.promised.value, b))
  }

  function PaxosNext(p: Paxos, i: Input, r: Reply): Paxos {
    if r.Promised? then p.(promised := Some(i.key.ballot))
    else if r.Approved? && !i.Prepare? then Paxos(Some(i.key.ballot), Some((i.key.ballot, i.address)))
    else p
  }

  predicate PaxosTrace(p: Paxos, inputs: seq<Input>, replies: seq<Reply>)
    decreases |inputs|
  {
    |inputs| == |replies|
    && (inputs != [] ==>
          && Allowed(p, inputs[0], replies[0])
          && PaxosTrace(PaxosNext(p, inputs[0], replies[0]), inputs[1..], replies[1..]))
  }

  // ----- When the two agree

  predicate AllAbout(t: TypeName, inputs: seq<Input>) {
    forall i :: i in inputs ==> i.key.typeName == t
  }

  /** An own proposal is not older than the record it overwrites. */
  predicate NotOlder(n: Node, t: TypeName, i: Input) {
    i.OwnProposal? && t in n.proposals ==> AtMost(n.proposals[t].ballot, i.key.ballot)
  }

  predicate OwnNeverOlder(n: Node, t: TypeName, inputs: seq<Input>)
    decreases |inputs|
  {
    inputs != [] ==> NotOlder(n, t, inputs[0]) && OwnNeverOlder(Respond(n, inputs[0]).0, t, inputs[1..])
  }

  function AcceptedAtAfter(at: Option<Ballot>, i: Input, r: Reply): Option<Ballot> {
    if r.Approved? then Some(i.key.ballot) else at
  }

  /** The promise does not report an address under a ballot it was not accepted at. */
  predicate PromiseHolds(n: Node, t: TypeName, at: Option<Ballot>, r: Reply) {
    r.Promised? && Reported(n, t).multicastIp.Some? ==> at == Some(Reported(n, t).ballot)
  }

  /**
   * Whenever the node promises while holding an address, the ballot in its record is the one it last
   * accepted: it got the proposal of the ballot it promised before the next preparation.
   */
  predicate NeverDangles(n: Node, t: TypeName, at: Option<Ballot>, inputs: seq<Input>)
    decreases |inputs|
  {
    inputs != [] ==>
      var (n', r) := Respond(n, inputs[0]);
      && PromiseHolds(n, t, at, r)
      && NeverDangles(n', t, AcceptedAtAfter(at, inputs[0], r), inputs[1..])
  }

  /** The record folds the two fields together: the promised ballot with the accepted value. */
  predicate Folds(n: Node, t: TypeName, at: Option<Ballot>, p: Paxos) {
    && (t in n.proposals <==> p.promised.Some?)
    && (t in n.proposals ==>
          && n.proposals[t].ballot == p.promised.value
          && (n.proposals[t].multicastIp.Some? <==> p.accepted.Some?)
          && (p.accepted.Some? ==> n.proposals[t].multicastIp == Some(p.accepted.value.1)))
    && (p.accepted.Some? ==>
          && t in n.proposals && at == Some(p.accepted.value.0)
          && AtMost(p.accepted.value.0, n.proposals[t].ballot))
  }

  /** One input: the reply is the Paxos acceptor's unless it promises a dangling record or overwrites a newer one. */
  lemma StepRefines(n: Node, t: TypeName, at: Option<Ballot>, p: Paxos, i: Input)
    requires Folds(n, t, at, p) && i.key.typeName == t
    ensures var (n', r) := Respond(n, i);
            && (Allowed(p, i, r) <==> PromiseHolds(n, t, at, r) && NotOlder(n, t, i))
            && (NotOlder(n, t, i) ==> Folds(n', t, AcceptedAtAfter(at, i, r), PaxosNext(p, i, r)))
  {
  }

  /**
   * Refinement: for every history of inputs the replies of the single record are those of a Paxos
   * acceptor if and only if the node never promises while its record dangles and never overwrites its
   * record with an older proposal of its own.
   */
  lemma {:induction false} RefinesPaxosIff(n: Node, t: TypeName, at: Option<Ballot>, p: Paxos, inputs: seq<Input>)
    requires Folds(n, t, at, p) && AllAbout(t, inputs)
    ensures PaxosTrace(p, inputs, Replies(n, inputs)) <==> NeverDangles(n, t, at, inputs) && OwnNeverOlder(n, t, inputs)
    decreases |inputs|
  {
    if inputs != [] {
      var (n', r) := Respond(n, inputs[0]);
      assert inputs[0] in inputs && forall i :: i in inputs[1..] ==> i in inputs;
      StepRefines(n, t, at, p, inputs[0]);
      assert Replies(n, inputs)[1..] == Replies(n', inputs[1..]);
      RepliesLength(n', inputs[1..]);
      if NotOlder(n, t, inputs[0]) {
        RefinesPaxosIff(n', t, AcceptedAtAfter(at, inputs[0], r), PaxosNext(p, inputs[0], r), inputs[1..]);
      }
    }
  }

  lemma {:induction false} RepliesLength(n: Node, inputs: seq<Input>)
    ensures |Replies(n, inputs)| == |inputs|
    decreases |inputs|
  {
    if inputs != [] {
      RepliesLength(Respond(n, inputs[0]).0, inputs[1..]);
    }
  }

  /** A node without a record starts out as a Paxos acceptor that promised and accepted nothing. */
  lemma FreshRefinesPaxosIff(n: Node, t: TypeName, inputs: seq<Input>)
    requires t !in n.proposals && AllAbout(t, inputs)
    ensures PaxosTrace(Paxos(None, None), inputs, Replies(n, inputs))
            <==> NeverDangles(n, t, None, inputs) && OwnNeverOlder(n, t, inputs)
  {
    RefinesPaxosIff(n, t, None, Paxos(None, None), inputs);
  }
}
