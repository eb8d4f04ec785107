/** How runs begin: nodes that have met and wait for nothing, and the first step of an attempt. */
module Beginnings {
  import opened Wrappers
  import opened Ballots
  import opened ConsensusNode
  import opened ConsensusNetwork
  import opened ConsensusInvariants
  import opened ConsensusCounting
  import opened Agreement
  import opened Attempts

  /** Nobody is waiting for answers about `t`; nobody holds an address, or everybody holds `v`. */
  ghost predicate Settled(s: Network, t: TypeName, v: Option<Address>) {
    forall n :: n in s.nodes ==>
      && Idle(s, n, t)
      && match v
         case None => t !in s.nodes[n].proposals
         case Some(_) => t in s.nodes[n].proposals && s.nodes[n].proposals[t].multicastIp == v
  }

  ghost predicate NewerThanAll(s: Network, key: Key) {
    forall n :: n in s.nodes && key.typeName in s.nodes[n].proposals ==>
      ProposalIsNewer(s.nodes[n].proposals[key.typeName].ballot, key.ballot)
  }

  lemma NotPreparedIsUnused(s: Network, key: Key)
    requires Inv(s) && BooksOk(s) && key.ballot.instanceId in s.nodes && key !in s.log.prepared
    ensures Unused(s, key)
  {
    var p := key.ballot.instanceId;
    assert CounterOk(s, p, key);
    forall id ensures Count(p, key, id) !in s.books.counted {
      assert Count(p, key, id) in s.books.counted ==> ApprovedBy(s, id, key);
    }
    assert CountedBy(s, p, key) == {};
  }

  /** Sending the preparation changes nothing else. */
  lemma Begin(h: Hypothesis, s: Network, key: Key)
    requires Unused(s, key) && Idle(s, key.ballot.instanceId, key.typeName)
    ensures Leads(h, s, StartAttempt(key.ballot.instanceId, key), DoStartAttempt(s, key.ballot.instanceId, key))
    ensures var s' := DoStartAttempt(s, key.ballot.instanceId, key);
            && Ready(s', key.ballot.instanceId, key)
            && (forall q, k :: Ready(s, q, k) ==> Ready(s', q, k))
            && (forall k :: k != key && Unused(s, k) ==> Unused(s', k))
            && (forall q, t :: Idle(s, q, t) ==> Idle(s', q, t))
  {
  }

  lemma ReachFurther(h: Hypothesis, ids: set<InstanceId>, s: Network, es: seq<Event>, m: Network)
    requires Reachable(h, ids, s) && Run(h, s, es, m)
    ensures Reachable(h, ids, m)
  {
    var init :| Run(h, Start(ids), init, s);
    RunConcat(h, Start(ids), init, s, es, m);
  }

  // ----- The start: every node has heard from every node, and nothing else happened

  function Met(ids: set<InstanceId>, known: set<InstanceId>): Network {
    Start(ids).(nodes := map i | i in ids :: Node(i, if i in known then |ids| else 0, map[], map[], map[], map[]))
  }

  lemma MeetLeads(h: Hypothesis, ids: set<InstanceId>, known: set<InstanceId>, i: InstanceId)
    requires known <= ids && i in known
    ensures Leads(h, Met(ids, known - {i}), SetPeers(i, |ids|), Met(ids, known))
  {
    var m := Met(ids, known - {i});
    assert Met(ids, known).nodes == m.nodes[i := m.nodes[i].(numPeers := |ids|)];
  }

  lemma {:induction false} MeetRun(h: Hypothesis, ids: set<InstanceId>, known: set<InstanceId>) returns (es: seq<Event>)
    requires known <= ids
    ensures Run(h, Start(ids), es, Met(ids, known))
    decreases |known|
  {
    if known == {} {
      es := [];
      assert Met(ids, known) == Start(ids);
      RunNothing(h, Start(ids));
    } else {
      var i :| i in known;
      var init := MeetRun(h, ids, known - {i});
      var m := Met(ids, known - {i});
      MeetLeads(h, ids, known, i);
      RunOne(h, m, SetPeers(i, |ids|), Met(ids, known));
      RunConcat(h, Start(ids), init, m, [SetPeers(i, |ids|)], Met(ids, known));
      es := init + [SetPeers(i, |ids|)];
    }
  }

  /** All nodes know their number and are settled on nothing, for every type. */
  lemma MetSettled(h: Hypothesis, ids: set<InstanceId>, t: TypeName)
    ensures Reachable(h, ids, Met(ids, ids))
    ensures Settled(Met(ids, ids), t, None) && Met(ids, ids).nodes.Keys == ids
  {
    var es := MeetRun(h, ids, ids);
    assert Met(ids, ids).nodes.Keys == ids;
    assert |Met(ids, ids).nodes.Keys| == |Met(ids, ids).nodes|;
  }
}
