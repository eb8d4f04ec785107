/**
 * What nodes answer, in terms of their records and of what is sent, and what becomes of an attempt whose
 * preparation reached its peers and whose answers all came back.
 */
module Answers {
  import opened Wrappers
  import opened Ballots
  import opened ConsensusNode
  import opened ConsensusNetwork
  import opened ConsensusInvariants
  import opened FreeRuns
  import opened Waits

  // ----- One message

  /** The node keeps no record of the type, or one at an older ballot. */
  predicate Behind(s: Network, p: InstanceId, key: Key)
    requires p in s.nodes
  {
    key.typeName in s.nodes[p].proposals ==> ProposalIsNewer(s.nodes[p].proposals[key.typeName].ballot, key.ballot)
  }

  /** What is held for the type, under the ballot of the record; nothing under ballot zero without a record. */
  predicate ReportsHeld(n: Node, m: Message)
    requires m.Promise?
  {
    var t := m.key.typeName;
    if t in n.proposals then n.proposals[t] == Record(m.accepted, m.multicastIp)
    else m.accepted == Ballot(0, 0) && m.multicastIp == None
  }

  /** From `s` to `s'` node `p` at most replaced its record of the type, and sent one answer `m`. */
  predicate OnlyAnswered(s: Network, s': Network, p: InstanceId, t: TypeName, m: Message) {
    && p in s.nodes && p in s'.nodes
    && s'.sent == s.sent + {Envelope(p, m)} && s'.log == s.log && s'.books == s.books
    && s'.nodes == s.nodes[p := s.nodes[p].(proposals := s'.nodes[p].proposals)]
    && s'.nodes[p].proposals - {t} == s.nodes[p].proposals - {t}
  }

  /**
   * Another node's preparation gets exactly one answer to its ballot: a promise of what is held, and the ballot
   * is recorded, if and only if the node keeps no record of the type or an older one; else a rejection, and nothing
   * else changes. A node's own preparation changes nothing at all.
   */
  lemma PreparationAnswered(s: Network, p: InstanceId, env: Envelope) returns (answer: Message)
    requires Enabled(s, ReceivePreparation(p, env))
    ensures var s', key := Step(s, ReceivePreparation(p, env)), env.msg.key;
            if key.ballot.instanceId == s.nodes[p].id then s' == s
            else
              && answer.key == key && OnlyAnswered(s, s', p, key.typeName, answer)
              && (answer.Promise? <==> Behind(s, p, key))
              && (answer.Promise? ==>
                    && ReportsHeld(s.nodes[p], answer) && key.typeName in s'.nodes[p].proposals
                    && s'.nodes[p].proposals[key.typeName] == Record(key.ballot, answer.multicastIp))
              && (!answer.Promise? ==> answer == Rejection(key) && s'.nodes == s.nodes)
  {
    var key, n := env.msg.key, s.nodes[p];
    if key.ballot.instanceId == n.id {
      answer := env.msg;
    } else if Behind(s, p, key) {
      var r := Reported(n, key.typeName);
      answer := Promise(key, r.ballot, r.multicastIp);
    } else {
      answer := Rejection(key);
      assert s.nodes[p := n] == s.nodes;
    }
  }

  /**
   * A proposal is approved and its address recorded if and only if the node's record names its very ballot; else
   * it fails, without a promise or with a promise of another ballot, and nothing changes.
   */
  lemma ProposalAnswered(s: Network, p: InstanceId, env: Envelope)
    requires Enabled(s, ReceiveProposal(p, env))
    ensures var s', key, a := Step(s, ReceiveProposal(p, env)), env.msg.key, env.msg.address;
            var records, t := s.nodes[p].proposals, key.typeName;
            if t in records && records[t].ballot == key.ballot then
              && OnlyAnswered(s, s', p, t, Approval(key, a))
              && t in s'.nodes[p].proposals && s'.nodes[p].proposals[t] == Record(key.ballot, Some(a))
            else
              && s' == s
              && (OnProposal(s.nodes[p], key, a) == Err(ProposalPromiseNotMade) <==> t !in records)
              && (OnProposal(s.nodes[p], key, a) == Err(ProposalNotLatest) <==> t in records)
  {
  }

  // ----- An attempt whose answers all come back

  /** How many of the nodes `q` will promise the attempt. */
  function Willing(s: Network, q: seq<InstanceId>, key: Key): nat
    requires forall n :: n in q ==> n in s.nodes
  {
    if q == [] then 0
    else
      assert q[0] in q && forall n :: n in q[1..] ==> n in q;
      (if Behind(s, q[0], key) then 1 else 0) + Willing(s, q[1..], key)
  }

  /** Peers of the attempt's proposer, each once. */
  ghost predicate Peers(s: Network, q: seq<InstanceId>, key: Key) {
    Distinct(q) && forall n :: n in q ==> n in s.nodes && s.nodes[n].id == n && n != key.ballot.instanceId
  }

  ghost predicate Prepared(s: Network, key: Key) {
    var p := key.ballot.instanceId;
    p in s.nodes && s.nodes[p].id == p && Envelope(p, Preparation(key)) in s.sent
  }

  /** From `s` to `m` the proposer heard `yes` promises and `no` rejections of its ballot, and decided nothing. */
  ghost predicate HasAnswers(s: Network, m: Network, key: Key, yes: nat, no: nat) {
    var p, t := key.ballot.instanceId, key.typeName;
    && Prepared(s, key) && Prepared(m, key)
    && m.nodes.Keys == s.nodes.Keys && m.log == s.log && m.nodes[p].numPeers == s.nodes[p].numPeers
    && |PromisesFor(m.nodes[p], t)| == |PromisesFor(s.nodes[p], t)| + yes
    && RejectionsFor(m.nodes[p], t) == RejectionsFor(s.nodes[p], t) + no
  }

  /** Nodes `q` are in `m` as they were in `s`. */
  ghost predicate Untouched(s: Network, m: Network, q: seq<InstanceId>) {
    forall n :: n in q ==> n in s.nodes && n in m.nodes && m.nodes[n] == s.nodes[n]
  }

  lemma {:induction false} WillingUntouched(s: Network, m: Network, q: seq<InstanceId>, key: Key)
    requires Untouched(s, m, q)
    ensures Willing(m, q, key) == Willing(s, q, key) <= |q|
  {
    if q != [] {
      assert q[0] in q && forall n :: n in q[1..] ==> n in q;
      WillingUntouched(s, m, q[1..], key);
    }
  }

  /** One peer receives the preparation and the proposer its answer. */
  lemma OnePeerAnswers(s: Network, n: InstanceId, key: Key) returns (es: seq<Event>, m: Network)
    requires Prepared(s, key) && n in s.nodes && s.nodes[n].id == n != key.ballot.instanceId
    ensures FreeRun(s, es, m)
    ensures HasAnswers(s, m, key, if Behind(s, n, key) then 1 else 0, if Behind(s, n, key) then 0 else 1)
    ensures forall x :: x in s.nodes && x != n && x != key.ballot.instanceId ==> m.nodes[x] == s.nodes[x]
  {
    var p := key.ballot.instanceId;
    var e := ReceivePreparation(n, Envelope(p, Preparation(key)));
    var c := Step(s, e);
    var answer := PreparationAnswered(s, n, Envelope(p, Preparation(key)));
    var reply := Envelope(n, answer);
    var back := if answer.Promise? then ReceivePromise(p, reply) else ReceiveRejection(p, reply);
    assert Enabled(c, back);
    m := Step(c, back);
    es := [e, back];
    AnswersHeard(c, back, p, key.typeName);
    BackFree(s, e, c, back, m);
    BackOnly(c, back, p);
  }

  lemma BackFree(s: Network, e: Event, c: Network, back: Event, m: Network)
    requires Enabled(s, e) && c == Step(s, e) && Enabled(c, back) && m == Step(c, back)
    ensures FreeRun(s, [e, back], m)
  {
    assert [e, back][1..] == [back] && [back][1..] == [];
    assert FreeRun(c, [back], m);
  }

  lemma BackOnly(c: Network, back: Event, p: InstanceId)
    requires Enabled(c, back) && back.p == p && (back.ReceivePromise? || back.ReceiveRejection?)
    ensures Step(c, back).nodes.Keys == c.nodes.Keys && Step(c, back).log == c.log && Step(c, back).sent == c.sent
    ensures forall x :: x in c.nodes && x != p ==> Step(c, back).nodes[x] == c.nodes[x]
    ensures Step(c, back).nodes[p].id == c.nodes[p].id && Step(c, back).nodes[p].numPeers == c.nodes[p].numPeers
  {
  }

  /**
   * Whatever the peers `q` keep, the preparation can reach all of them and all of their answers the proposer;
   * it then has heard as many promises as there are peers behind the ballot, and a rejection from every other.
   */
  lemma {:induction false} AllPeersAnswer(s: Network, q: seq<InstanceId>, key: Key) returns (es: seq<Event>, m: Network)
    requires Prepared(s, key) && Peers(s, q, key)
    ensures FreeRun(s, es, m) && Willing(s, q, key) <= |q|
    ensures HasAnswers(s, m, key, Willing(s, q, key), |q| - Willing(s, q, key))
    decreases |q|
  {
    if q == [] {
      es, m := [], s;
    } else {
      var first, c := OnePeerAnswers(s, q[0], key);
      forall n | n in q[1..] ensures n in q && n != q[0] {
        var i :| 0 <= i < |q[1..]| && q[1..][i] == n;
        assert q[i + 1] == n;
      }
      var rest;
      rest, m := AllPeersAnswer(c, q[1..], key);
      WillingUntouched(s, c, q[1..], key);
      FreeConcat(s, first, c, rest, m);
      es := first + rest;
    }
  }

  /**
   * So an attempt for which nothing was waiting, once all of the peers `q` answered, decides if and only if at
   * least half of the proposer's number of peers were behind it, no more than half of it were not, and there is
   * an address to propose.
   */
  lemma AnswersDecide(s: Network, q: seq<InstanceId>, key: Key, draw: Option<Address>)
    returns (es: seq<Event>, m: Network)
    requires Prepared(s, key) && Peers(s, q, key)
    requires key in s.log.prepared && key !in s.log.closed && key !in s.log.decisions
    requires PromisesFor(s.nodes[key.ballot.instanceId], key.typeName) == []
    requires RejectionsFor(s.nodes[key.ballot.instanceId], key.typeName) == 0
    ensures FreeRun(s, es, m) && Enabled(m, ClosePromises(key.ballot.instanceId, key, draw))
    ensures var p, t := key.ballot.instanceId, key.typeName;
            var yes, peers, s' := Willing(s, q, key), s.nodes[p].numPeers, Step(m, ClosePromises(p, key, draw));
            key in s'.log.decisions
            <==> (&& 2 * yes >= peers && 2 * (|q| - yes) <= peers
                  && (draw.Some? || SomeAddress(PromisesFor(m.nodes[p], t))))
  {
    es, m := AllPeersAnswer(s, q, key);
    CloseDecidesIff(m, key.ballot.instanceId, key, draw);
  }

  lemma {:induction false} NobodyWilling(s: Network, q: seq<InstanceId>, key: Key)
    requires forall n :: n in q ==> n in s.nodes && !Behind(s, n, key)
    ensures Willing(s, q, key) == 0
  {
    if q != [] {
      assert q[0] in q && forall n :: n in q[1..] ==> n in q;
      NobodyWilling(s, q[1..], key);
    }
  }

  /** An attempt that is older than the records of all peers is rejected by all of them and ends undecided for good. */
  lemma OutdatedIsRejected(s: Network, q: seq<InstanceId>, key: Key, draw: Option<Address>)
    returns (es: seq<Event>, m: Network)
    requires FreeInv(s) && Prepared(s, key) && Peers(s, q, key)
    requires key in s.log.prepared && key !in s.log.closed
    requires PromisesFor(s.nodes[key.ballot.instanceId], key.typeName) == []
    requires RejectionsFor(s.nodes[key.ballot.instanceId], key.typeName) == 0
    requires q != [] && forall n :: n in q ==> !Behind(s, n, key)
    ensures FreeRun(s, es, m) && Enabled(m, ClosePromises(key.ballot.instanceId, key, draw))
    ensures RejectionsFor(m.nodes[key.ballot.instanceId], key.typeName) == |q|
    ensures var m' := Step(m, ClosePromises(key.ballot.instanceId, key, draw));
            && m'.log.drawn == s.log.drawn
            && forall fs, f :: FreeRun(m', fs, f) ==>
                 key !in f.log.decisions && key !in f.log.proposed && key !in f.log.returned
  {
    NobodyWilling(s, q, key);
    es, m := AllPeersAnswer(s, q, key);
    FreeRunKeeps(s, es, m);
    var p := key.ballot.instanceId;
    CloseDecidesIff(m, p, key, draw);
    var m' := Step(m, ClosePromises(p, key, draw));
    FreeStep(m, ClosePromises(p, key, draw));
    forall fs, f | FreeRun(m', fs, f)
      ensures key !in f.log.decisions && key !in f.log.proposed && key !in f.log.returned
    {
      UndecidedForGood(m', key, fs, f);
    }
  }
}
