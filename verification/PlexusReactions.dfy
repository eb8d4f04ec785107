/** The plexus as an object: each reaction is one step of the flooding model, each growth one of the adaptations. */
module PlexusReactions {
  import opened Wrappers
  import opened Flooding
  import opened Adaptations

  function HandledBy(p: Plexus, id: ReactionId, g: Ganglion): Event {
    if id in p.floods then React(id, g) else Enter(id, g)
  }

  function SentSoFar(p: Plexus, id: ReactionId, g: Ganglion): Flood {
    if id in p.floods then p.floods[id] else Unsent(g)
  }

  lemma InternalStep(p: Plexus, id: ReactionId, g: Ganglion) returns (f: Flood)
    requires Enabled(p, HandledBy(p, id, g))
    ensures Step(p, HandledBy(p, id, g)) == p.(floods := p.floods[id := f])
    ensures var sent := SentSoFar(p, id, g);
            && f.visited == sent.visited + {g}
            && f.inward == sent.inward + multiset(p.ganglia.internal - f.visited)
            && f.outward == sent.outward + multiset(p.ganglia.external - f.visited)
  {
    f := After(p, HandledBy(p, id, g));
  }

  class PlexusObject {
    var internal: set<Ganglion>
    var external: set<Ganglion>
    var neurons: set<Neuron>
    var neuronGanglia: set<Pair>
    var reactions: map<ReactionId, set<Ganglion>>

    /** The copies in flight, and every call to adapt. */
    ghost var floods: map<ReactionId, Flood>
    ghost var adapted: multiset<Pair>

    ghost function View(): Plexus
      reads `internal, `external, `floods
    {
      Plexus(Ganglia(internal, external), floods)
    }

    ghost function Adapted(): Adapting
      reads `internal, `external, `neurons, `neuronGanglia, `adapted
    {
      Adapting(neurons, internal + external, neuronGanglia, adapted)
    }

    ghost predicate ReactionsOk()
      reads `internal, `external, `reactions, `floods
    {
      && (forall g :: g in internal ==> g.Inner?)
      && (forall g :: g in external ==> g.Outer?)
      && reactions.Keys == floods.Keys
      && forall id :: id in reactions ==> reactions[id] == floods[id].visited
    }

    ghost predicate Valid()
      reads this
    {
      ReactionsOk() && Once(Adapted()) && neuronGanglia == Product(neurons, internal + external)
    }

    constructor (ganglia: set<Ganglion>, inproc: Ganglion)
      requires inproc.Inner?
      ensures Valid()
      ensures View() == Quiet(Ganglia(internal, external))
      ensures Adapted() == Begin(ganglia + {inproc})
    {
      external := set g | g in ganglia && g.Outer?;
      internal := (set g | g in ganglia && !g.Outer?) + {inproc};
      neurons, neuronGanglia, reactions := {}, {}, map[];
      floods, adapted := map[], multiset{};
      new;
      assert internal + external == ganglia + {inproc};
    }

    /** Marks `current` for the id and says who is not marked yet. */
    method Mark(id: ReactionId, current: Ganglion) returns (visited: set<Ganglion>)
      modifies `reactions
      ensures visited == {current} + if id in old(reactions) then old(reactions[id]) else {}
      ensures reactions == old(reactions)[id := visited]
    {
      if id !in reactions {
        reactions := reactions[id := {current}];
      } else {
        reactions := reactions[id := reactions[id] + {current}];
      }
      visited := reactions[id];
    }

    /** The reaction of an internal ganglion: to a new message, or to a copy it was sent. */
    method InternalReaction(current: Ganglion, given: Option<ReactionId>, drawn: ReactionId)
      returns (id: ReactionId, inward: set<Ganglion>, outward: set<Ganglion>)
      requires ReactionsOk() && current in internal && drawn !in reactions
      requires given.Some? && given.value in reactions ==> current in floods[given.value].pending
      modifies `reactions, `floods
      ensures ReactionsOk()
      ensures id == if given.Some? then given.value else drawn
      ensures var e := HandledBy(old(View()), id, current);
              Enabled(old(View()), e) && View() == Step(old(View()), e)
      ensures var sent := SentSoFar(old(View()), id, current);
              && floods[id].inward == sent.inward + multiset(inward)
              && floods[id].outward == sent.outward + multiset(outward)
    {
      id := if given.Some? then given.value else drawn;
      ghost var f := InternalStep(View(), id, current);
      var visited := Mark(id, current);
      inward := internal - visited;
      outward := external - visited;
      floods := floods[id := f];
    }

    /** The decoding reaction to a message from outside: it goes to the internal ganglia. */
    method ExternalInternalReaction(current: Ganglion, drawn: ReactionId) returns (inward: set<Ganglion>)
      requires ReactionsOk() && current in external && drawn !in reactions
      modifies `reactions, `floods
      ensures ReactionsOk()
      ensures var e := ArriveInward(drawn, current);
              Enabled(old(View()), e) && View() == Step(old(View()), e)
      ensures floods[drawn].inward == multiset(inward)
    {
      var visited := Mark(drawn, current);
      inward := internal - visited;
      floods := Step(View(), ArriveInward(drawn, current)).floods;
    }

    /** The raw reaction to a message from outside: it goes, still encoded, to the other external ganglia. */
    method ExternalExternalReaction(current: Ganglion, drawn: ReactionId) returns (outward: set<Ganglion>)
      requires ReactionsOk() && current in external && drawn !in reactions
      modifies `reactions, `floods
      ensures ReactionsOk()
      ensures var e := ArriveOutward(drawn, current);
              Enabled(old(View()), e) && View() == Step(old(View()), e)
      ensures floods[drawn].outward == multiset(outward)
    {
      var visited := Mark(drawn, current);
      outward := external - visited;
      floods := Step(View(), ArriveOutward(drawn, current)).floods;
    }

    /** Adapts every pair that is not recorded; `decoded` and `encoded` get their different reactants. */
    method UpdateNeuronGanglia() returns (decoded: set<Pair>, encoded: set<Pair>)
      requires ReactionsOk() && Once(Adapted())
      modifies `neuronGanglia, `adapted
      ensures Valid() && Adapted() == Refreshed(old(Adapted()))
      ensures decoded + encoded == neuronGanglia - old(neuronGanglia)
      ensures forall pair :: pair in decoded ==> pair.1.Inner?
      ensures forall pair :: pair in encoded ==> pair.1.Outer?
    {
      RefreshedOnce(Adapted());
      var all := Product(neurons, internal + external);
      var unrecorded := all - neuronGanglia;
      neuronGanglia := all;
      encoded := set pair | pair in unrecorded && pair.1.Outer?;
      decoded := unrecorded - encoded;
      adapted := adapted + multiset(unrecorded);
    }

    method AddGanglion(ganglion: Ganglion)
      requires ReactionsOk()
      modifies `internal, `external
      ensures ReactionsOk()
      ensures external == old(external) + if ganglion.Outer? then {ganglion} else {}
      ensures internal == old(internal) + if ganglion.Inner? then {ganglion} else {}
      ensures Adapted() == old(Adapted()).(ganglia := old(internal + external) + {ganglion})
    {
      if ganglion.Outer? {
        external := external + {ganglion};
      } else {
        internal := internal + {ganglion};
      }
      assert internal + external == old(internal + external) + {ganglion};
    }

    method InfuseGanglion(ganglion: Ganglion)
      requires Valid()
      modifies `internal, `external, `neuronGanglia, `adapted
      ensures Valid() && Adapted() == Grown(old(Adapted()), Infused(ganglion))
      ensures external == old(external) + if ganglion.Outer? then {ganglion} else {}
      ensures internal == old(internal) + if ganglion.Inner? then {ganglion} else {}
    {
      AddGanglion(ganglion);
      StillOnce(old(Adapted()), Adapted());
      var _, _ := UpdateNeuronGanglia();
    }

    method UpdateNeurons(neuron: Neuron)
      requires Valid()
      modifies `neurons, `neuronGanglia, `adapted
      ensures Valid() && Adapted() == Grown(old(Adapted()), Known(neuron))
    {
      neurons := neurons + {neuron};
      StillOnce(old(Adapted()), Adapted());
      var _, _ := UpdateNeuronGanglia();
    }
  }

  lemma StillOnce(a: Adapting, b: Adapting)
    requires Once(a) && a.neurons <= b.neurons && a.ganglia <= b.ganglia
    requires b.pairs == a.pairs && b.adapted == a.adapted
    ensures Once(b)
  {
  }
}
