/**
 * What each assumption is worth. Runs are quantified in which the assumptions need to hold only of the events
 * about one type `t`; whatever the nodes do about other types, contention included, is free.
 */
module Conditions {
  import opened Ballots
  import opened ConsensusNetwork
  import opened ConsensusInvariants
  import opened Agreement
  import opened SmallNetworks
  import opened Limits
  import opened Necessity
  import opened Miscounts
  import opened Locality

  // ----- What concerns the type is seen alike

  lemma SameChosen(s: Network, s': Network, t: TypeName, key: Key)
    requires Alike(s, s', t) && key.typeName == t
    ensures Chosen(s', key) <==> Chosen(s, key)
    ensures key in s.log.decisions ==> key in s'.log.decisions && s'.log.decisions[key] == s.log.decisions[key]
  {
    assert AlikeProgress(s, s', key);
    SameSize(s.nodes, s'.nodes);
    if key in s.log.decisions {
      assert Approvers(s', key) == Approvers(s, key);
    }
  }

  lemma SameOutcome(s: Network, s': Network, t: TypeName, a: Address)
    requires Alike(s, s', t)
    ensures Committed(s, t, a) ==> Committed(s', t, a)
    ensures Returned(s, t, a) ==> Returned(s', t, a)
  {
    if Committed(s, t, a) {
      var l, key :| CommittedAt(s, l, key, a) && key.typeName == t;
      assert CommittedAt(s', l, key, a);
    }
    if Returned(s, t, a) {
      var key :| key in s.log.returned && key.typeName == t && s.log.returned[key] == a;
      assert AlikeProgress(s, s', key);
    }
  }

  lemma AlikeChosen(s: Network, s': Network, t: TypeName)
    requires Alike(s, s', t)
    ensures forall key: Key :: key.typeName == t && Chosen(s, key) ==>
              Chosen(s', key) && s'.log.decisions[key] == s.log.decisions[key]
  {
    forall key: Key | key.typeName == t && Chosen(s, key)
      ensures Chosen(s', key) && s'.log.decisions[key] == s.log.decisions[key]
    {
      SameChosen(s, s', t, key);
    }
  }

  lemma AlikeUnique(s: Network, s': Network, t: TypeName)
    requires Alike(s, s', t) && ChosenUniqueFor(s', t)
    ensures ChosenUniqueFor(s, t)
  {
    AlikeChosen(s, s', t);
  }

  lemma AlikeCommitsAgree(s: Network, s': Network, t: TypeName)
    requires Alike(s, s', t) && CommitsAgreeFor(s', t)
    ensures CommitsAgreeFor(s, t)
  {
    forall a, b | Committed(s, t, a) && Committed(s, t, b) ensures a == b {
      SameOutcome(s, s', t, a);
      SameOutcome(s, s', t, b);
    }
  }

  lemma AlikeOutcomesAgree(s: Network, s': Network, t: TypeName)
    requires Alike(s, s', t) && OutcomesAgreeFor(s', t)
    ensures OutcomesAgreeFor(s, t)
  {
    forall a, b | Outcome(s, t, a) && Outcome(s, t, b) ensures a == b {
      SameOutcome(s, s', t, a);
      SameOutcome(s, s', t, b);
      assert Outcome(s', t, a) && Outcome(s', t, b);
    }
  }

  lemma AlikeAgrees(s: Network, s': Network, t: TypeName)
    requires Alike(s, s', t)
    ensures ChosenUniqueFor(s', t) ==> ChosenUniqueFor(s, t)
    ensures CommitsAgreeFor(s', t) ==> CommitsAgreeFor(s, t)
    ensures OutcomesAgreeFor(s', t) ==> OutcomesAgreeFor(s, t)
  {
    if ChosenUniqueFor(s', t) {
      AlikeUnique(s, s', t);
    }
    if CommitsAgreeFor(s', t) {
      AlikeCommitsAgree(s, s', t);
    }
    if OutcomesAgreeFor(s', t) {
      AlikeOutcomesAgree(s, s', t);
    }
  }

  // ----- Agreement per type

  /**
   * Agreement: on any number of nodes, in every run that keeps Basic and has honest picks where type `t` is
   * concerned, at most one address of `t` is ever chosen, however often approvals are counted. If they are counted
   * once, all commits agree, and with an odd number of nodes returned addresses agree with them too.
   */
  lemma AgreementPerType(h: Hypothesis, t: TypeName, ids: set<InstanceId>, s: Network)
    requires h.Honest? || h.NoDangling? || h.Recounted? || (h.Repeated? && |ids| <= 2)
    requires ReachableFor(h, t, ids, s)
    ensures ChosenUniqueFor(s, t)
    ensures !h.Recounted? ==> CommitsAgreeFor(s, t)
    ensures !h.Recounted? && |ids| % 2 == 1 ==> OutcomesAgreeFor(s, t)
  {
    var s' := ReachableAlike(h, t, ids, s);
    AgreementHolds(h, ids, s');
    AlikeAgrees(s, s', t);
  }

  /** Agreement without honest reports, on at most three nodes. */
  lemma SmallPerType(t: TypeName, ids: set<InstanceId>, s: Network)
    requires ReachableFor(Basic, t, ids, s) && |ids| <= 3
    ensures ChosenUniqueFor(s, t) && CommitsAgreeFor(s, t)
    ensures |ids| % 2 == 1 ==> OutcomesAgreeFor(s, t)
  {
    var s' := ReachableAlike(Basic, t, ids, s);
    SmallAgreement(ids, s');
    AlikeAgrees(s, s', t);
  }

  lemma SmallOutcomesAgree(t: TypeName, ids: set<InstanceId>, s: Network)
    requires ReachableFor(Basic, t, ids, s) && |ids| <= 3 && |ids| != 2
    ensures OutcomesAgreeFor(s, t)
  {
    if |ids| <= 1 {
      LonePerType(Basic, t, ids, s);
    } else {
      SmallPerType(t, ids, s);
    }
  }

  lemma LonePerType(h: Hypothesis, t: TypeName, ids: set<InstanceId>, s: Network)
    requires !h.Undercounted? && ReachableFor(h, t, ids, s) && |ids| <= 1
    ensures ChosenUniqueFor(s, t) && OutcomesAgreeFor(s, t)
  {
    var s' := ReachableAlike(h, t, ids, s);
    LoneAgreement(h, ids, s');
    AlikeAgrees(s, s', t);
  }

  lemma {:induction false} NobodyRuns(h: Hypothesis, t: TypeName, s: Network, es: seq<Event>, s': Network)
    requires RunFor(h, t, s, es, s') && s.nodes == map[]
    ensures s' == s
  {
  }

  lemma SameReport(s: Network, s': Network, t: TypeName, b: Key, c: Key)
    requires Alike(s, s', t) && b.typeName == t && ReportedTo(s', b, c) && b in s.log.decisions
    ensures ReportedTo(s, b, c)
  {
    assert AlikeProgress(s, s', b);
  }

  /**
   * Once a majority approved ballot `c` of a type, no newer attempt draws a fresh address: it proposes again one
   * reported to it, in a promise reporting `c` or a newer ballot. Reports need not be honest, nor approvals
   * counted right.
   */
  lemma NoFreshDrawPerType(t: TypeName, ids: set<InstanceId>, s: Network, b: Key, c: Key)
    requires ReachableFor(Proposing, t, ids, s)
    requires Chosen(s, c) && b in s.log.decisions && b.typeName == c.typeName == t
    requires ProposalIsNewer(c.ballot, b.ballot)
    ensures !s.log.decisions[b].newlyDrawn && ReportedTo(s, b, c)
  {
    var s' := ReachableAlike(Proposing, t, ids, s);
    SameChosen(s, s', t, c);
    SameChosen(s, s', t, b);
    NoFreshDraw(ids, s', b, c);
    SameReport(s, s', t, b, c);
  }

  // ----- The exact conditions

  lemma TwoReturns(s: Network, k1: Key, k2: Key)
    requires k1 in s.log.returned && k2 in s.log.returned && k1.typeName == k2.typeName
    requires s.log.returned[k1] != s.log.returned[k2]
    ensures !OutcomesAgreeFor(s, k1.typeName)
  {
    var t, a, b := k1.typeName, s.log.returned[k1], s.log.returned[k2];
    assert Outcome(s, t, a) && Outcome(s, t, b);
  }

  lemma DisagreementCounts(s: Network, k1: Key, k2: Key, a: Address, b: Address)
    requires Disagrees(s, k1, k2, a, b) && k1.typeName == k2.typeName && a != b
    ensures !ChosenUniqueFor(s, k1.typeName) && !OutcomesAgreeFor(s, k1.typeName)
  {
    TwoReturns(s, k1, k2);
  }

  lemma NoDanglingPermits(h: Hypothesis, s: Network, e: Event)
    requires (h.Basic? || h.Repeated?) && Permits(NoDangling, s, e) && Inv(s) && ReportsHonest(s)
    ensures Permits(h, s, e)
  {
    NoDanglingPermitsHonest(s, e);
  }

  /** A run in which nothing dangles keeps every assumption of `h`, honest picks included. */
  lemma {:induction false} NoDanglingLifts(h: Hypothesis, s: Network, es: seq<Event>, s': Network)
    requires (h.Basic? || h.Repeated?) && Run(NoDangling, s, es, s') && Facts(NoDangling, s)
    ensures Run(h, s, es, s')
    decreases |es|
  {
    if es == [] {
      var states :| Chain(NoDangling, states, es) && states[0] == s && states[|es|] == s';
      RunNothing(h, s);
    } else {
      RunHead(NoDangling, s, es, s');
      NoDanglingPermits(h, s, es[0]);
      FactsStep(NoDangling, s, es[0]);
      NoDanglingLifts(h, Step(s, es[0]), es[1..], s');
      RunFrom(h, s, es, s');
    }
  }

  lemma RunFrom(h: Hypothesis, s: Network, es: seq<Event>, s': Network)
    requires es != [] && Permits(h, s, es[0]) && Run(h, Step(s, es[0]), es[1..], s')
    ensures Run(h, s, es, s')
  {
    RunOne(h, s, es[0], Step(s, es[0]));
    RunConcat(h, s, [es[0]], Step(s, es[0]), es[1..], s');
    assert [es[0]] + es[1..] == es;
  }

  /** On an even number of nodes two addresses can be returned even if nothing dangles. */
  lemma EvenOutcomesDisagree(h: Hypothesis, ids: set<InstanceId>, t: TypeName)
    requires (h.Basic? || h.Repeated?) && |ids| % 2 == 0 && ids != {}
    ensures exists s :: ReachableFor(h, t, ids, s) && !OutcomesAgreeFor(s, t)
  {
    var s, k1, k2 := EvenDisagree(ids, t, 0, 1);
    TwoReturns(s, k1, k2);
    var es :| Run(NoDangling, Start(ids), es, s);
    StartFacts(ids);
    NoDanglingLifts(h, Start(ids), es, s);
    ReachableIsReachableFor(h, t, ids, s);
  }

  lemma StartFacts(ids: set<InstanceId>)
    ensures Facts(NoDangling, Start(ids))
  {
    RunNothing(NoDangling, Start(ids));
    ReachableFacts(NoDangling, ids, Start(ids));
  }

  /**
   * Given Basic and acceptors that leave no promise dangling, all returned and committed addresses of a
   * type agree in every run if and only if the number of nodes is odd (or there are no nodes).
   */
  lemma AgreementIffOdd(ids: set<InstanceId>, t: TypeName)
    ensures (forall s :: ReachableFor(NoDangling, t, ids, s) ==> OutcomesAgreeFor(s, t))
            <==> |ids| % 2 == 1 || ids == {}
  {
    if |ids| % 2 == 1 {
      forall s | ReachableFor(NoDangling, t, ids, s) ensures OutcomesAgreeFor(s, t) {
        AgreementPerType(NoDangling, t, ids, s);
      }
    } else if ids == {} {
      forall s | ReachableFor(NoDangling, t, ids, s) ensures OutcomesAgreeFor(s, t) {
        LonePerType(NoDangling, t, ids, s);
      }
    } else {
      var s, k1, k2 := EvenDisagree(ids, t, 0, 1);
      TwoReturns(s, k1, k2);
      ReachableIsReachableFor(NoDangling, t, ids, s);
    }
  }

  /**
   * Given Basic, but nothing about what promises report, a single address per type is chosen in every
   * run if and only if there are at most three nodes; all outcomes agree if moreover there are not two.
   */
  lemma SingleRecordSafeIffSmall(ids: set<InstanceId>, t: TypeName)
    ensures (forall s :: ReachableFor(Basic, t, ids, s) ==> ChosenUniqueFor(s, t)) <==> |ids| <= 3
    ensures (forall s :: ReachableFor(Basic, t, ids, s) ==> OutcomesAgreeFor(s, t)) <==> |ids| <= 3 && |ids| != 2
  {
    if |ids| <= 3 {
      forall s | ReachableFor(Basic, t, ids, s) ensures ChosenUniqueFor(s, t) {
        SmallPerType(t, ids, s);
      }
      if |ids| == 2 {
        EvenOutcomesDisagree(Basic, ids, t);
      } else {
        forall s | ReachableFor(Basic, t, ids, s) ensures OutcomesAgreeFor(s, t) {
          SmallOutcomesAgree(t, ids, s);
        }
      }
    } else {
      var s, k2, k3 := StaleDisagree(ids, t, 0, 1);
      DisagreementCounts(s, k2, k3, 1, 0);
      ReachableIsReachableFor(Basic, t, ids, s);
    }
  }

  /** If own writes may lower records, agreement holds in every run if and only if there is at most one node. */
  lemma ContendedAgreeIffAlone(ids: set<InstanceId>, t: TypeName)
    ensures (forall s :: ReachableFor(Contended, t, ids, s) ==> ChosenUniqueFor(s, t)) <==> |ids| <= 1
    ensures (forall s :: ReachableFor(Contended, t, ids, s) ==> OutcomesAgreeFor(s, t)) <==> |ids| <= 1
  {
    if |ids| <= 1 {
      forall s | ReachableFor(Contended, t, ids, s) ensures ChosenUniqueFor(s, t) && OutcomesAgreeFor(s, t) {
        LonePerType(Contended, t, ids, s);
      }
    } else {
      var s, k1, k2 := ContentionDisagrees(ids, t, 0, 1);
      DisagreementCounts(s, k1, k2, 0, 1);
      ReachableIsReachableFor(Contended, t, ids, s);
    }
  }

  /** The same if promises may count toward a later ballot. */
  lemma MiscountedAgreeIffAlone(ids: set<InstanceId>, t: TypeName)
    ensures (forall s :: ReachableFor(Miscounted, t, ids, s) ==> ChosenUniqueFor(s, t)) <==> |ids| <= 1
    ensures (forall s :: ReachableFor(Miscounted, t, ids, s) ==> OutcomesAgreeFor(s, t)) <==> |ids| <= 1
  {
    if |ids| <= 1 {
      forall s | ReachableFor(Miscounted, t, ids, s) ensures ChosenUniqueFor(s, t) && OutcomesAgreeFor(s, t) {
        LonePerType(Miscounted, t, ids, s);
      }
    } else {
      var s, k2, k3 := MiscountDisagrees(ids, t, 0, 1);
      DisagreementCounts(s, k2, k3, 1, 0);
      ReachableIsReachableFor(Miscounted, t, ids, s);
    }
  }

  /**
   * If a promise may be counted again, one address per type is chosen in every run if and only if there are at most
   * two nodes; all outcomes agree if and only if there is at most one.
   */
  lemma RepeatedAgreeIffTwo(ids: set<InstanceId>, t: TypeName)
    ensures (forall s :: ReachableFor(Repeated, t, ids, s) ==> ChosenUniqueFor(s, t)) <==> |ids| <= 2
    ensures (forall s :: ReachableFor(Repeated, t, ids, s) ==> OutcomesAgreeFor(s, t)) <==> |ids| <= 1
  {
    if |ids| <= 2 {
      forall s | ReachableFor(Repeated, t, ids, s) ensures ChosenUniqueFor(s, t) {
        AgreementPerType(Repeated, t, ids, s);
      }
      if |ids| == 2 {
        EvenOutcomesDisagree(Repeated, ids, t);
      } else {
        forall s | ReachableFor(Repeated, t, ids, s) ensures OutcomesAgreeFor(s, t) {
          LonePerType(Repeated, t, ids, s);
        }
      }
    } else {
      var s, k1, k2 := RepeatDisagrees(ids, t, 0, 1);
      DisagreementCounts(s, k1, k2, 0, 1);
      ReachableIsReachableFor(Repeated, t, ids, s);
    }
  }

  /**
   * If an approval may be counted again, one address per type is chosen all the same, but returned addresses
   * agree in every run if and only if there is at most one node.
   */
  lemma RecountedAgreeIffAlone(ids: set<InstanceId>, t: TypeName)
    ensures forall s :: ReachableFor(Recounted, t, ids, s) ==> ChosenUniqueFor(s, t)
    ensures (forall s :: ReachableFor(Recounted, t, ids, s) ==> OutcomesAgreeFor(s, t)) <==> |ids| <= 1
  {
    forall s | ReachableFor(Recounted, t, ids, s) ensures ChosenUniqueFor(s, t) {
      AgreementPerType(Recounted, t, ids, s);
    }
    if |ids| <= 1 {
      forall s | ReachableFor(Recounted, t, ids, s) ensures OutcomesAgreeFor(s, t) {
        LonePerType(Recounted, t, ids, s);
      }
    } else {
      var s, k1, k2 := RecountDisagrees(ids, t, 0, 1);
      TwoReturns(s, k1, k2);
      ReachableIsReachableFor(Recounted, t, ids, s);
    }
  }

  /** If a node may know of too few peers, agreement holds in every run only where there is no node. */
  lemma UndercountedAgreeIffNobody(ids: set<InstanceId>, t: TypeName)
    ensures (forall s :: ReachableFor(Undercounted, t, ids, s) ==> ChosenUniqueFor(s, t)) <==> ids == {}
    ensures (forall s :: ReachableFor(Undercounted, t, ids, s) ==> OutcomesAgreeFor(s, t)) <==> ids == {}
  {
    if ids == {} {
      forall s | ReachableFor(Undercounted, t, ids, s) ensures ChosenUniqueFor(s, t) && OutcomesAgreeFor(s, t) {
        var es :| RunFor(Undercounted, t, Start(ids), es, s);
        NobodyRuns(Undercounted, t, Start(ids), es, s);
      }
    } else {
      var s, k1, k2 := UndercountDisagrees(ids, t, 0, 1);
      DisagreementCounts(s, k1, k2, 0, 1);
      ReachableIsReachableFor(Undercounted, t, ids, s);
    }
  }
}
