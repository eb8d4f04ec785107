/** Which pairs of a neuron and a ganglion a plexus has adapted, over any growth of either. */
module Adaptations {
  import opened Flooding

  /** A neuron is identified by its name. */
  type Neuron = string
  type Pair = (Neuron, Ganglion)

  /** `pairs` is the recorded set; `adapted` counts the calls to adapt ever made. */
  datatype Adapting = Adapting(
    neurons: set<Neuron>,
    ganglia: set<Ganglion>,
    pairs: set<Pair>,
    adapted: multiset<Pair>)

  datatype Growth = Infused(g: Ganglion) | Known(neuron: Neuron)

  function Product(neurons: set<Neuron>, ganglia: set<Ganglion>): set<Pair> {
    set n, g | n in neurons && g in ganglia :: (n, g)
  }

  /** Adapts the pairs not recorded, and records them all. */
  function Refreshed(a: Adapting): Adapting {
    var all := Product(a.neurons, a.ganglia);
    a.(pairs := all, adapted := a.adapted + multiset(all - a.pairs))
  }

  function Grown(a: Adapting, op: Growth): Adapting {
    match op
    case Infused(g) => Refreshed(a.(ganglia := a.ganglia + {g}))
    case Known(n) => Refreshed(a.(neurons := a.neurons + {n}))
  }

  function GrownAll(a: Adapting, ops: seq<Growth>): Adapting
    decreases |ops|
  {
    if ops == [] then a else GrownAll(Grown(a, ops[0]), ops[1..])
  }

  function Begin(ganglia: set<Ganglion>): Adapting {
    Adapting({}, ganglia, {}, multiset{})
  }

  function NeuronsOf(ops: seq<Growth>): set<Neuron> {
    set op | op in ops && op.Known? :: op.neuron
  }

  function GangliaOf(ops: seq<Growth>): set<Ganglion> {
    set op | op in ops && op.Infused? :: op.g
  }

  /** Nothing is recorded outside the product, and each recorded pair was adapted exactly once. */
  ghost predicate Once(a: Adapting) {
    a.pairs <= Product(a.neurons, a.ganglia) && a.adapted == multiset(a.pairs)
  }

  lemma RefreshedOnce(a: Adapting)
    requires Once(a)
    ensures Once(Refreshed(a)) && Refreshed(a).pairs == Product(a.neurons, a.ganglia)
  {
  }

  lemma GrownOnce(a: Adapting, op: Growth)
    requires Once(a)
    ensures var b := Grown(a, op); Once(b) && b.pairs == Product(b.neurons, b.ganglia)
  {
  }

  ghost predicate Complete(a: Adapting) {
    Once(a) && a.pairs == Product(a.neurons, a.ganglia)
  }

  lemma {:induction false} GrownAllComplete(a: Adapting, ops: seq<Growth>)
    requires Complete(a)
    ensures Complete(GrownAll(a, ops))
    decreases |ops|
  {
    if ops != [] {
      GrownOnce(a, ops[0]);
      GrownAllComplete(Grown(a, ops[0]), ops[1..]);
    }
  }

  lemma {:induction false} GrownAllMembers(a: Adapting, ops: seq<Growth>)
    ensures GrownAll(a, ops).neurons == a.neurons + NeuronsOf(ops)
    ensures GrownAll(a, ops).ganglia == a.ganglia + GangliaOf(ops)
    decreases |ops|
  {
    if ops == [] {
    } else {
      var b := Grown(a, ops[0]);
      GrownAllMembers(b, ops[1..]);
      assert ops == [ops[0]] + ops[1..];
      assert a.neurons + NeuronsOf(ops) == b.neurons + NeuronsOf(ops[1..]);
      assert a.ganglia + GangliaOf(ops) == b.ganglia + GangliaOf(ops[1..]);
    }
  }

  /** Over any sequence of infused ganglia and new neurons, in any order and with repeats. */
  lemma EachPairAdaptedOnce(a: Adapting, ops: seq<Growth>)
    requires Complete(a)
    ensures var b := GrownAll(a, ops);
            && b.neurons == a.neurons + NeuronsOf(ops)
            && b.ganglia == a.ganglia + GangliaOf(ops)
            && b.pairs == Product(b.neurons, b.ganglia)
            && forall n: Neuron, g: Ganglion :: b.adapted[(n, g)] == if n in b.neurons && g in b.ganglia then 1 else 0
  {
    GrownAllComplete(a, ops);
    GrownAllMembers(a, ops);
  }

  /** So the order of growth does not matter. */
  lemma OrderOfGrowthIrrelevant(ganglia: set<Ganglion>, ops: seq<Growth>, ops': seq<Growth>)
    requires NeuronsOf(ops) == NeuronsOf(ops') && GangliaOf(ops) == GangliaOf(ops')
    ensures GrownAll(Begin(ganglia), ops) == GrownAll(Begin(ganglia), ops')
  {
    EachPairAdaptedOnce(Begin(ganglia), ops);
    EachPairAdaptedOnce(Begin(ganglia), ops');
    var b, b' := GrownAll(Begin(ganglia), ops), GrownAll(Begin(ganglia), ops');
    forall pair: Pair ensures b.adapted[pair] == b'.adapted[pair] {
      assert pair == (pair.0, pair.1);
    }
    assert b.adapted == b'.adapted;
  }
}
