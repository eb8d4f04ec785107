/**
 * Messages flooding through a plexus: which copies the reactions send, in every interleaving. A ganglion
 * is marked when it reacts and not when it is sent a copy, so duplicates are possible.
 */
module Flooding {

  /** Inner: an internal ganglion; Outer: one that reaches other processes. */
  datatype Ganglion = Inner(n: nat) | Outer(n: nat)

  type ReactionId = nat

  /**
   * One reaction id: the ganglion the message came through, who has reacted, which copies await the reaction
   * of an internal ganglion, how many reactions sent copies inward, and every copy sent inward and outward.
   */
  datatype Flood = Flood(
    origin: Ganglion,
    visited: set<Ganglion>,
    pending: multiset<Ganglion>,
    rounds: nat,
    inward: multiset<Ganglion>,
    outward: multiset<Ganglion>)

  datatype Ganglia = Ganglia(internal: set<Ganglion>, external: set<Ganglion>)

  datatype Plexus = Plexus(ganglia: Ganglia, floods: map<ReactionId, Flood>)

  /**
   * Enter: an internal ganglion handles a message that has no reaction id yet. ArriveInward and
   * ArriveOutward: the two reactions to a message from outside, each with its own new id.
   * React: an internal ganglion handles one of the copies it was sent.
   */
  datatype Event =
    | Enter(id: ReactionId, g: Ganglion)
    | ArriveInward(id: ReactionId, g: Ganglion)
    | ArriveOutward(id: ReactionId, g: Ganglion)
    | React(id: ReactionId, g: Ganglion)

  function Unreached(all: set<Ganglion>, visited: set<Ganglion>): set<Ganglion> {
    all - visited
  }

  /** `g` marks itself and sends a copy to everyone who is not marked. */
  function Internal(gs: Ganglia, f: Flood, g: Ganglion): Flood {
    var visited := f.visited + {g};
    var inward := multiset(Unreached(gs.internal, visited));
    var outward := multiset(Unreached(gs.external, visited));
    Flood(f.origin, visited, f.pending + inward, f.rounds + 1, f.inward + inward, f.outward + outward)
  }

  function Inward(gs: Ganglia, g: Ganglion): Flood {
    var inward := multiset(Unreached(gs.internal, {g}));
    Flood(g, {g}, inward, 1, inward, multiset{})
  }

  function Outward(gs: Ganglia, g: Ganglion): Flood {
    Flood(g, {g}, multiset{}, 0, multiset{}, multiset(Unreached(gs.external, {g})))
  }

  function Unsent(g: Ganglion): Flood {
    Flood(g, {}, multiset{}, 0, multiset{}, multiset{})
  }

  function Entered(gs: Ganglia, g: Ganglion): Flood {
    Internal(gs, Unsent(g), g)
  }

  function Reacted(gs: Ganglia, f: Flood, g: Ganglion): Flood {
    Internal(gs, f.(pending := f.pending - multiset{g}), g)
  }

  predicate Enabled(p: Plexus, e: Event) {
    match e
    case Enter(id, g) => id !in p.floods && g in p.ganglia.internal
    case ArriveInward(id, g) => id !in p.floods && g in p.ganglia.external
    case ArriveOutward(id, g) => id !in p.floods && g in p.ganglia.external
    case React(id, g) => id in p.floods && g in p.floods[id].pending
  }

  function After(p: Plexus, e: Event): Flood
    requires Enabled(p, e)
  {
    match e
    case Enter(id, g) => Entered(p.ganglia, g)
    case ArriveInward(id, g) => Inward(p.ganglia, g)
    case ArriveOutward(id, g) => Outward(p.ganglia, g)
    case React(id, g) => Reacted(p.ganglia, p.floods[id], g)
  }

  function Step(p: Plexus, e: Event): Plexus
    requires Enabled(p, e)
  {
    p.(floods := p.floods[e.id := After(p, e)])
  }

  predicate Run(p: Plexus, es: seq<Event>, p': Plexus)
    decreases |es|
  {
    if es == [] then p' == p
    else Enabled(p, es[0]) && Run(Step(p, es[0]), es[1..], p')
  }

  function Quiet(gs: Ganglia): Plexus {
    Plexus(gs, map[])
  }

  // ----- What every reaction keeps

  /** How often each external ganglion but the origin has been sent a copy. */
  function TimesOutward(gs: Ganglia, f: Flood): nat {
    if f.origin in gs.internal then f.rounds
    else if f.rounds == 0 then 1
    else f.rounds - 1
  }

  ghost predicate MarksOk(gs: Ganglia, f: Flood) {
    && f.origin in f.visited
    && f.visited <= gs.internal + {f.origin}
    && f.origin in gs.internal + gs.external
    && (f.origin in gs.internal ==> f.rounds > 0)
  }

  /** Every internal ganglion that has not reacted is owed one copy for each reaction so far. */
  ghost predicate InwardOk(gs: Ganglia, f: Flood) {
    && (forall g :: g in f.pending ==> g in gs.internal && f.rounds > 0)
    && (forall g :: g in Unreached(gs.internal, f.visited) ==> f.pending[g] == f.rounds)
    && (forall g :: g in f.inward ==> g in gs.internal - {f.origin})
    && (f.rounds > 0 ==> forall g :: g in gs.internal - {f.origin} ==> f.inward[g] > 0)
    && |f.inward| + 1 == |f.pending| + if f.rounds == 0 then 1 else f.rounds
  }

  ghost predicate OutwardOk(gs: Ganglia, f: Flood) {
    && (forall g :: g in f.outward ==> g in gs.external - {f.origin})
    && (forall g :: g in gs.external - {f.origin} ==> f.outward[g] == TimesOutward(gs, f))
  }

  ghost predicate FloodOk(gs: Ganglia, f: Flood) {
    MarksOk(gs, f) && InwardOk(gs, f) && OutwardOk(gs, f)
  }

  lemma ReactedInward(gs: Ganglia, f: Flood, g: Ganglion)
    requires MarksOk(gs, f) && InwardOk(gs, f) && g in f.pending
    ensures InwardOk(gs, Reacted(gs, f, g))
  {
  }

  lemma ReactedOutward(gs: Ganglia, f: Flood, g: Ganglion)
    requires gs.internal !! gs.external && MarksOk(gs, f) && OutwardOk(gs, f) && g in gs.internal && f.rounds > 0
    ensures OutwardOk(gs, Reacted(gs, f, g))
  {
    var f' := Reacted(gs, f, g);
    assert Unreached(gs.external, f'.visited) == gs.external - {f.origin};
    forall h | h in gs.external - {f.origin} ensures f'.outward[h] == TimesOutward(gs, f') {
      assert f'.outward[h] == f.outward[h] + 1;
    }
  }

  lemma ReactedKeeps(gs: Ganglia, f: Flood, g: Ganglion)
    requires gs.internal !! gs.external && FloodOk(gs, f) && g in f.pending
    ensures FloodOk(gs, Reacted(gs, f, g))
  {
    ReactedInward(gs, f, g);
    ReactedOutward(gs, f, g);
  }

  lemma EnteredOk(gs: Ganglia, g: Ganglion)
    requires gs.internal !! gs.external && g in gs.internal
    ensures FloodOk(gs, Entered(gs, g))
  {
  }

  lemma InwardStarts(gs: Ganglia, g: Ganglion)
    requires gs.internal !! gs.external && g in gs.external
    ensures FloodOk(gs, Inward(gs, g))
  {
    var f := Inward(gs, g);
    assert InwardOk(gs, f);
    assert OutwardOk(gs, f);
  }

  lemma OutwardStarts(gs: Ganglia, g: Ganglion)
    requires gs.internal !! gs.external && g in gs.external
    ensures FloodOk(gs, Outward(gs, g))
  {
  }
}
