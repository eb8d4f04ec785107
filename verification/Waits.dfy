/**
 * How the two waits of an attempt end, told by the events that happened and not by what the nodes keep: over
 * any run of the code as it is.
 */
module Waits {
  import opened Wrappers
  import opened Ballots
  import opened ConsensusNode
  import opened ConsensusNetwork
  import opened ConsensusInvariants
  import opened FreeRuns

  // ----- What a node has been told, read off the events

  /** The event ends a promise wait of node `p` for type `t`. */
  predicate Closes(e: Event, p: InstanceId, t: TypeName) {
    e.ClosePromises? && e.p == p && e.key.typeName == t
  }

  /** The message answers an attempt that node `p` made for type `t`. */
  predicate AnswersTo(m: Message, p: InstanceId, t: TypeName) {
    m.key.typeName == t && m.key.ballot.instanceId == p
  }

  predicate BringsPromise(e: Event, p: InstanceId, t: TypeName) {
    e.ReceivePromise? && e.p == p && e.env.msg.Promise? && AnswersTo(e.env.msg, p, t)
  }

  predicate BringsRejection(e: Event, p: InstanceId, t: TypeName) {
    e.ReceiveRejection? && e.p == p && AnswersTo(e.env.msg, p, t)
  }

  predicate BringsApproval(e: Event, p: InstanceId, key: Key) {
    e.ReceiveApproval? && e.p == p && e.env.msg.key == key
  }

  /** The events since a promise wait of the node last ended for the type. */
  function SinceClosed(es: seq<Event>, p: InstanceId, t: TypeName): seq<Event> {
    if es == [] then []
    else
      var last := |es| - 1;
      if Closes(es[last], p, t) then [] else SinceClosed(es[..last], p, t) + [es[last]]
  }

  function PromisesIn(es: seq<Event>, p: InstanceId, t: TypeName): seq<PromiseMessage> {
    if es == [] then []
    else
      var last := |es| - 1;
      PromisesIn(es[..last], p, t) + if BringsPromise(es[last], p, t) then [es[last].env.msg] else []
  }

  function RejectionsIn(es: seq<Event>, p: InstanceId, t: TypeName): nat {
    if es == [] then 0
    else
      var last := |es| - 1;
      RejectionsIn(es[..last], p, t) + if BringsRejection(es[last], p, t) then 1 else 0
  }

  function ApprovalsIn(es: seq<Event>, p: InstanceId, key: Key): nat {
    if es == [] then 0
    else
      var last := |es| - 1;
      ApprovalsIn(es[..last], p, key) + if BringsApproval(es[last], p, key) then 1 else 0
  }

  /** The number of peers the node was last told. */
  function PeersTold(es: seq<Event>, p: InstanceId): nat {
    if es == [] then 0
    else
      var last := |es| - 1;
      if es[last].SetPeers? && es[last].p == p then es[last].count else PeersTold(es[..last], p)
  }

  // ----- The nodes keep exactly that

  /** What waits at the node is what it heard in `es`. */
  ghost predicate WaitingIsHeard(s: Network, es: seq<Event>, p: InstanceId, t: TypeName) {
    && p in s.nodes && s.nodes[p].id == p && s.nodes[p].numPeers == PeersTold(es, p)
    && PromisesFor(s.nodes[p], t) == PromisesIn(SinceClosed(es, p, t), p, t)
    && RejectionsFor(s.nodes[p], t) == RejectionsIn(SinceClosed(es, p, t), p, t)
  }

  lemma AnswersHeard(s: Network, e: Event, p: InstanceId, t: TypeName)
    requires Enabled(s, e) && p in s.nodes && s.nodes[p].id == p && !Closes(e, p, t)
    ensures p in Step(s, e).nodes
    ensures PromisesFor(Step(s, e).nodes[p], t)
         == PromisesFor(s.nodes[p], t) + if BringsPromise(e, p, t) then [e.env.msg] else []
    ensures RejectionsFor(Step(s, e).nodes[p], t)
         == RejectionsFor(s.nodes[p], t) + if BringsRejection(e, p, t) then 1 else 0
  {
  }

  /** The end of a wait leaves nothing waiting. */
  lemma ClosedEmpties(s: Network, e: Event, p: InstanceId, t: TypeName)
    requires Enabled(s, e) && Closes(e, p, t)
    ensures p in Step(s, e).nodes
    ensures PromisesFor(Step(s, e).nodes[p], t) == [] && RejectionsFor(Step(s, e).nodes[p], t) == 0
  {
  }

  lemma PeersHeard(s: Network, e: Event, p: InstanceId)
    requires Enabled(s, e) && p in s.nodes
    ensures p in Step(s, e).nodes && Step(s, e).nodes[p].id == s.nodes[p].id
    ensures Step(s, e).nodes[p].numPeers == if e.SetPeers? && e.p == p then e.count else s.nodes[p].numPeers
  {
  }

  lemma HeardStep(s: Network, es: seq<Event>, e: Event, p: InstanceId, t: TypeName)
    requires Enabled(s, e) && WaitingIsHeard(s, es, p, t)
    ensures WaitingIsHeard(Step(s, e), es + [e], p, t)
  {
    var all := es + [e];
    assert all[..|all| - 1] == es;
    PeersHeard(s, e, p);
    if Closes(e, p, t) {
      ClosedEmpties(s, e, p, t);
    } else {
      AnswersHeard(s, e, p, t);
      var since := SinceClosed(es, p, t);
      assert (since + [e])[..|since|] == since;
    }
  }

  lemma {:induction false} HeardRun(s: Network, es: seq<Event>, fs: seq<Event>, s': Network, p: InstanceId, t: TypeName)
    requires FreeRun(s, fs, s') && WaitingIsHeard(s, es, p, t)
    ensures WaitingIsHeard(s', es + fs, p, t)
    decreases |fs|
  {
    if fs == [] {
      assert es + fs == es;
    } else {
      HeardStep(s, es, fs[0], p, t);
      HeardRun(Step(s, fs[0]), es + [fs[0]], fs[1..], s', p, t);
      assert es + [fs[0]] + fs[1..] == es + fs;
    }
  }

  /** Over any run, what waits at a node is what it was sent since its wait for the type last ended. */
  lemma WaitingMeansHeard(ids: set<InstanceId>, es: seq<Event>, s: Network, p: InstanceId, t: TypeName)
    requires FreeRun(Start(ids), es, s) && p in ids
    ensures WaitingIsHeard(s, es, p, t)
  {
    HeardRun(Start(ids), [], es, s, p, t);
    assert [] + es == es;
  }

  // ----- The end of the promise wait

  ghost predicate SomeAddress(ms: seq<PromiseMessage>) {
    exists m :: m in ms && m.multicastIp.Some?
  }

  /** `m` carries an address, and no promise with an address reports a newer accepted ballot. */
  ghost predicate NewestAddress(ms: seq<PromiseMessage>, m: PromiseMessage) {
    && m in ms && m.multicastIp.Some?
    && forall other :: other in ms && other.multicastIp.Some? ==> AtMost(other.accepted, m.accepted)
  }

  /** Half of the peers promised, no more than half rejected, and there is an address to propose. */
  ghost predicate MayDecide(peers: nat, promises: seq<PromiseMessage>, rejections: nat, draw: Option<Address>) {
    2 * |promises| >= peers && 2 * rejections <= peers && (SomeAddress(promises) || draw.Some?)
  }

  lemma PickIsNewest(ms: seq<PromiseMessage>)
    ensures SomeAddress(ms) <==> WithData(ms) != []
    ensures WithData(ms) != [] ==> NewestAddress(ms, NewestOf(WithData(ms)))
  {
    WithDataContents(ms);
    if WithData(ms) != [] {
      assert WithData(ms)[0] in WithData(ms);
      var i := NewestOfIsLastMaximum(WithData(ms));
    }
  }

  /** A decision re-proposes the newest address reported, or else what was drawn, which is then the only draw. */
  ghost predicate DecidedOn(s: Network, s': Network, key: Key, promises: seq<PromiseMessage>, draw: Option<Address>) {
    && key in s'.log.decisions
    && (forall k :: k != key ==> (k in s'.log.decisions <==> k in s.log.decisions))
    && (forall k :: k != key && k in s.log.decisions ==> s'.log.decisions[k] == s.log.decisions[k])
    && if SomeAddress(promises)
       then s'.log.drawn == s.log.drawn
            && exists m :: NewestAddress(promises, m) && m.multicastIp == Some(s'.log.decisions[key].address)
       else draw == Some(s'.log.decisions[key].address)
            && s'.log.drawn == s.log.drawn + {(key.typeName, s'.log.decisions[key].address)}
  }

  lemma CloseDecidesIff(s: Network, p: InstanceId, key: Key, draw: Option<Address>)
    requires p in s.nodes && key !in s.log.decisions
    ensures var s', n, t := DoClosePromises(s, p, key, draw), s.nodes[p], key.typeName;
            if MayDecide(n.numPeers, PromisesFor(n, t), RejectionsFor(n, t), draw)
            then DecidedOn(s, s', key, PromisesFor(n, t), draw)
            else s'.log == s.log.(closed := s.log.closed + {key})
  {
    PickIsNewest(PromisesFor(s.nodes[p], key.typeName));
  }

  /**
   * In any run the end of a promise wait decides if and only if, since the wait for the type last ended, at
   * least half of the peers' number of promises were heard and no more than half of it of rejections, and some
   * promise carries an address or one is left to draw; else the attempt comes to nothing and nothing is drawn.
   * Either way nothing is left waiting.
   */
  lemma DecidedIff(ids: set<InstanceId>, es: seq<Event>, s: Network, p: InstanceId, key: Key, draw: Option<Address>)
    requires FreeRun(Start(ids), es, s) && Enabled(s, ClosePromises(p, key, draw))
    ensures var s', t := Step(s, ClosePromises(p, key, draw)), key.typeName;
            var heard := SinceClosed(es, p, t);
            var promises := PromisesIn(heard, p, t);
            && (if MayDecide(PeersTold(es, p), promises, RejectionsIn(heard, p, t), draw)
                then DecidedOn(s, s', key, promises, draw)
                else s'.log == s.log.(closed := s.log.closed + {key}) && key !in s'.log.decisions)
            && s'.sent == s.sent
            && PromisesFor(s'.nodes[p], t) == [] && RejectionsFor(s'.nodes[p], t) == 0
  {
    FreeStart(ids);
    FreeRunKeeps(Start(ids), es, s);
    assert s.nodes.Keys == Start(ids).nodes.Keys;
    WaitingMeansHeard(ids, es, s, p, key.typeName);
    CloseDecidesIff(s, p, key, draw);
    ClosedEmpties(s, ClosePromises(p, key, draw), p, key.typeName);
  }

  /** What a wait did not decide is never decided, proposed or returned. */
  lemma {:induction false} UndecidedForGood(s: Network, key: Key, es: seq<Event>, m: Network)
    requires FreeInv(s) && FreeRun(s, es, m) && key in s.log.closed && key !in s.log.decisions
    ensures key !in m.log.decisions && key !in m.log.proposed && key !in m.log.returned
    decreases |es|
  {
    if es != [] {
      FreeStep(s, es[0]);
      StaysUndecided(s, es[0], key);
      UndecidedForGood(Step(s, es[0]), key, es[1..], m);
    }
  }

  lemma StaysUndecided(s: Network, e: Event, key: Key)
    requires Enabled(s, e) && key in s.log.closed && key !in s.log.decisions
    ensures key in Step(s, e).log.closed && key !in Step(s, e).log.decisions
  {
    if e.ClosePromises? {
      assert e.key != key;
    }
  }

  /**
   * More rejections than half of the peers end the attempt for good, however many promises were heard, old
   * rejections of the type included: nothing is drawn, and the ballot is never decided, proposed or returned.
   */
  lemma RejectedForGood(ids: set<InstanceId>, es: seq<Event>, s: Network, p: InstanceId, key: Key,
                        draw: Option<Address>, fs: seq<Event>, m: Network)
    requires FreeRun(Start(ids), es, s) && Enabled(s, ClosePromises(p, key, draw))
    requires 2 * RejectionsIn(SinceClosed(es, p, key.typeName), p, key.typeName) > PeersTold(es, p)
    requires FreeRun(Step(s, ClosePromises(p, key, draw)), fs, m)
    ensures Step(s, ClosePromises(p, key, draw)).log.drawn == s.log.drawn
    ensures key !in m.log.decisions && key !in m.log.proposed && key !in m.log.returned
  {
    DecidedIff(ids, es, s, p, key, draw);
    FreeStart(ids);
    FreeRunKeeps(Start(ids), es, s);
    FreeStep(s, ClosePromises(p, key, draw));
    UndecidedForGood(Step(s, ClosePromises(p, key, draw)), key, fs, m);
  }

  // ----- The approval wait

  /** The node counts the approvals of its own ballot from the first on. */
  ghost predicate OwnCount(s: Network, es: seq<Event>, key: Key) {
    var p := key.ballot.instanceId;
    && p in s.nodes && s.nodes[p].id == p && s.nodes[p].numPeers == PeersTold(es, p)
    && ApprovalsFor(s.nodes[p], key) == ApprovalsIn(es, p, key)
  }

  lemma ApprovalsCounted(s: Network, e: Event, key: Key)
    requires Enabled(s, e) && key.ballot.instanceId in s.nodes
    requires s.nodes[key.ballot.instanceId].id == key.ballot.instanceId
    ensures var p := key.ballot.instanceId;
            && p in Step(s, e).nodes
            && ApprovalsFor(Step(s, e).nodes[p], key)
               == ApprovalsFor(s.nodes[p], key) + if BringsApproval(e, p, key) then 1 else 0
  {
  }

  lemma {:induction false} OwnCountRun(s: Network, es: seq<Event>, fs: seq<Event>, s': Network, key: Key)
    requires FreeRun(s, fs, s') && OwnCount(s, es, key)
    ensures OwnCount(s', es + fs, key)
    decreases |fs|
  {
    if fs == [] {
      assert es + fs == es;
    } else {
      var all := es + [fs[0]];
      assert all[..|all| - 1] == es;
      PeersHeard(s, fs[0], key.ballot.instanceId);
      ApprovalsCounted(s, fs[0], key);
      OwnCountRun(Step(s, fs[0]), all, fs[1..], s', key);
      assert all + fs[1..] == es + fs;
    }
  }

  /**
   * In any run the end of the approval wait returns the decided address if and only if the approvals of the
   * ballot that the proposer received number at least half of its peers.
   */
  lemma ReturnedIff(ids: set<InstanceId>, es: seq<Event>, s: Network, p: InstanceId, key: Key)
    requires FreeRun(Start(ids), es, s) && Enabled(s, CloseApprovals(p, key))
    ensures var s' := Step(s, CloseApprovals(p, key));
            && s'.log.returned == (if 2 * ApprovalsIn(es, p, key) >= PeersTold(es, p)
                                   then s.log.returned[key := s.log.decisions[key].address] else s.log.returned)
            && key !in s.log.returned && key in s'.log.finished
  {
    FreeStart(ids);
    FreeRunKeeps(Start(ids), es, s);
    assert s.nodes.Keys == Start(ids).nodes.Keys;
    OwnCountRun(Start(ids), [], es, s, key);
    assert [] + es == es;
  }

  /**
   * What counting one approval makes a node do: it stops its own wait if and only if more than half of its peers
   * are now counted for its own ballot, and commits if and only if they are for another's; it counts one more,
   * unless a commit went through, which starts the count again.
   */
  lemma CountingEffect(n: Node, key: Key, a: Address, ok: bool)
    ensures var (n', effect) := Counted(n, key, a, ok);
            var own, most := key.ballot.instanceId == n.id, 2 * (ApprovalsFor(n, key) + 1) > n.numPeers;
            && (effect == StopWaiting <==> own && 2 * ApprovalsFor(n', key) > n'.numPeers)
            && (effect.Commit? <==> !own && most)
            && (effect.Commit? ==> effect.address == a)
            && ApprovalsFor(n', key) == (if !own && most && ok then 0 else ApprovalsFor(n, key) + 1)
            && (forall k :: k != key ==> ApprovalsFor(n', k) == ApprovalsFor(n, k))
  {
  }

  /** Ended at once, an own wait is agreed if it was cut short, or if exactly half of the peers are counted. */
  lemma AgreedAtOnce(n: Node, key: Key, a: Address, ok: bool)
    requires key.ballot.instanceId == n.id
    ensures var (n', effect) := Counted(n, key, a, ok);
            ApprovalTest(n', key) <==> effect == StopWaiting || 2 * ApprovalsFor(n', key) == n'.numPeers
  {
  }

  lemma {:induction false} OwnCountGrows(s: Network, fs: seq<Event>, s': Network, key: Key)
    requires FreeRun(s, fs, s') && key.ballot.instanceId in s.nodes
    requires s.nodes[key.ballot.instanceId].id == key.ballot.instanceId
    ensures var p := key.ballot.instanceId;
            p in s'.nodes && s'.nodes[p].id == p && ApprovalsFor(s'.nodes[p], key) >= ApprovalsFor(s.nodes[p], key)
    decreases |fs|
  {
    if fs != [] {
      PeersHeard(s, fs[0], key.ballot.instanceId);
      ApprovalsCounted(s, fs[0], key);
      OwnCountGrows(Step(s, fs[0]), fs[1..], s', key);
    }
  }

  /** A wait that an approval cut short returns its address, whatever happens before it ends, unless peers join. */
  lemma CutShortReturns(s: Network, p: InstanceId, env: Envelope, ok: bool, fs: seq<Event>, m: Network)
    requires FreeInv(s) && Enabled(s, ReceiveApproval(p, env, ok))
    requires Counted(s.nodes[p], env.msg.key, env.msg.address, ok).1 == StopWaiting
    requires FreeRun(Step(s, ReceiveApproval(p, env, ok)), fs, m) && Enabled(m, CloseApprovals(p, env.msg.key))
    requires m.nodes[p].numPeers <= s.nodes[p].numPeers
    ensures var key, m' := env.msg.key, Step(m, CloseApprovals(p, env.msg.key));
            key in m'.log.returned && m'.log.returned[key] == m.log.decisions[key].address
  {
    var key, c := env.msg.key, Step(s, ReceiveApproval(p, env, ok));
    CountingEffect(s.nodes[p], key, env.msg.address, ok);
    ApprovalsCounted(s, ReceiveApproval(p, env, ok), key);
    PeersHeard(s, ReceiveApproval(p, env, ok), p);
    OwnCountGrows(c, fs, m, key);
  }

  // ----- Commits

  /** Until it commits another's ballot, a node counts its approvals from the first on. */
  ghost predicate CountsUntilCommit(s: Network, es: seq<Event>, p: InstanceId, key: Key) {
    && p in s.nodes && s.nodes[p].id == p && s.nodes[p].numPeers == PeersTold(es, p)
    && (CommitsOf(s, p, key) == [] ==> ApprovalsFor(s.nodes[p], key) == ApprovalsIn(es, p, key))
  }

  /** What counting one approval records as committed. */
  lemma CommitRecorded(s: Network, p: InstanceId, env: Envelope, ok: bool)
    requires Enabled(s, ReceiveApproval(p, env, ok))
    ensures var s', key, n := Step(s, ReceiveApproval(p, env, ok)), env.msg.key, s.nodes[p];
            var commits := ok && key.ballot.instanceId != n.id && 2 * (ApprovalsFor(n, key) + 1) > n.numPeers;
            && CommitsOf(s', p, key) == CommitsOf(s, p, key) + (if commits then [env.msg.address] else [])
            && (!commits ==> ApprovalsFor(s'.nodes[p], key) == ApprovalsFor(n, key) + 1)
            && (forall q: InstanceId, k: Key :: (q, k) != (p, key) ==> CommitsOf(s', q, k) == CommitsOf(s, q, k))
            && (forall k :: k != key ==> ApprovalsFor(s'.nodes[p], k) == ApprovalsFor(n, k))
  {
  }

  /** Only counting approvals commits anything. */
  lemma NothingElseCommits(s: Network, e: Event, p: InstanceId, key: Key)
    requires Enabled(s, e) && p in s.nodes && !BringsApproval(e, p, key)
    ensures p in Step(s, e).nodes && ApprovalsFor(Step(s, e).nodes[p], key) == ApprovalsFor(s.nodes[p], key)
    ensures CommitsOf(Step(s, e), p, key) == CommitsOf(s, p, key)
  {
    if e.ReceiveApproval? {
      CommitRecorded(s, e.p, e.env, e.commitSucceeds);
    }
  }

  lemma {:induction false} CountsUntilCommitRun(s: Network, es: seq<Event>, fs: seq<Event>, s': Network, p: InstanceId,
                                                key: Key)
    requires FreeRun(s, fs, s') && CountsUntilCommit(s, es, p, key)
    ensures CountsUntilCommit(s', es + fs, p, key)
    decreases |fs|
  {
    if fs == [] {
      assert es + fs == es;
    } else {
      var e, all := fs[0], es + [fs[0]];
      assert all[..|all| - 1] == es;
      PeersHeard(s, e, p);
      if BringsApproval(e, p, key) {
        CommitRecorded(s, p, e.env, e.commitSucceeds);
      } else {
        NothingElseCommits(s, e, p, key);
      }
      CountsUntilCommitRun(Step(s, e), all, fs[1..], s', p, key);
      assert all + fs[1..] == es + fs;
    }
  }

  /**
   * In any run a node that has not committed another's ballot commits it on an approval if and only if the
   * approvals of it that the node received now exceed half of its peers and the commit goes through; then it
   * commits the address approved.
   */
  lemma CommittedIff(ids: set<InstanceId>, es: seq<Event>, s: Network, p: InstanceId, env: Envelope, ok: bool)
    requires FreeRun(Start(ids), es, s) && Enabled(s, ReceiveApproval(p, env, ok))
    requires env.msg.key.ballot.instanceId != p && CommitsOf(s, p, env.msg.key) == []
    ensures CommitsOf(Step(s, ReceiveApproval(p, env, ok)), p, env.msg.key)
         == if ok && 2 * (ApprovalsIn(es, p, env.msg.key) + 1) > PeersTold(es, p) then [env.msg.address] else []
  {
    FreeStart(ids);
    FreeRunKeeps(Start(ids), es, s);
    assert s.nodes.Keys == Start(ids).nodes.Keys;
    CountsUntilCommitRun(Start(ids), [], es, s, p, env.msg.key);
    assert [] + es == es;
    CommitRecorded(s, p, env, ok);
  }
}
