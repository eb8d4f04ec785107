/**
 * Flooding stops, reaches every ganglion, and never echoes: the measure over the pending copies, the exact
 * number of reactions in the worst interleaving, and what holds when nothing is pending.
 */
module FloodingBounds {
  import opened Flooding

  function Pow2(n: nat): nat {
    if n == 0 then 1 else 2 * Pow2(n - 1)
  }

  /** How many internal ganglia have not reacted. */
  function Left(gs: Ganglia, f: Flood): nat {
    |Unreached(gs.internal, f.visited)|
  }

  /** How many copies await a ganglion that has already reacted. */
  function Stale(gs: Ganglia, f: Flood): int {
    |f.pending| - Left(gs, f) * f.rounds
  }

  /** With `u` ganglia left, `v` stale copies and `m` reactions so far: how many more reactions are possible. */
  function Measure(u: nat, v: int, m: nat): int {
    Pow2(u) * v + m * (Pow2(u) - 1)
  }

  /** The most reactions a flood can still cause. */
  function Potential(gs: Ganglia, f: Flood): int {
    Measure(Left(gs, f), Stale(gs, f), f.rounds)
  }

  // ----- Arithmetic of the measure

  lemma {:induction false} Pow2Exceeds(n: nat)
    ensures Pow2(n) > n
  {
    if n > 0 {
      Pow2Exceeds(n - 1);
    }
  }

  lemma TimesMonotone(a: int, b: int, c: nat)
    requires a <= b
    ensures c * a <= c * b && a * c <= b * c
  {
  }

  lemma MeasureFloor(u: nat, v: nat, m: nat)
    ensures Measure(u, v, m) >= v + u * m
  {
    Pow2Exceeds(u);
    TimesMonotone(1, Pow2(u), v);
    TimesMonotone(u, Pow2(u) - 1, m);
  }

  lemma OneMore(u: nat, m: nat)
    ensures u * (m + 1) == u * m + u && (u + 1) * m == u * m + m
  {
  }

  lemma SpendStale(u: nat, v: int, m: nat)
    ensures Measure(u, v - 1, m + 1) == Measure(u, v, m) - 1
  {
  }

  lemma SpendNew(u: nat, v: int, m: nat)
    ensures Measure(u, v + m - 1, m + 1) == Measure(u + 1, v, m) - 1 - Pow2(u) * v
  {
    var a := Pow2(u);
    assert Pow2(u + 1) == 2 * a;
    assert a * (v + m - 1) == a * v + a * m - a;
    assert (m + 1) * (a - 1) == m * a - m + a - 1;
    assert (2 * a) * v == a * v + a * v;
    assert m * (2 * a - 1) == m * a + m * a - m;
  }

  /** A bag with `m` copies of each element of `s` has at least that many elements, exactly that many if no others. */
  lemma {:induction false} CopiesCount(bag: multiset<Ganglion>, s: set<Ganglion>, m: nat)
    requires forall h :: h in s ==> bag[h] == m
    ensures |bag| >= |s| * m
    ensures |bag| == |s| * m <==> forall h :: h in bag ==> h in s
  {
    if s == {} {
      if |bag| > 0 {
        var h :| h in bag;
      }
    } else {
      var h :| h in s;
      var rest := bag[h := 0];
      assert forall k :: k != h ==> rest[k] == bag[k];
      CopiesCount(rest, s - {h}, m);
      assert |bag| == |rest| + m;
      assert |s| * m == |s - {h}| * m + m;
      assert forall k :: k != h ==> (k in rest <==> k in bag);
    }
  }

  // ----- What one reaction spends

  lemma PotentialNonNegative(gs: Ganglia, f: Flood)
    requires InwardOk(gs, f)
    ensures Stale(gs, f) >= 0 && Potential(gs, f) >= |f.pending|
    ensures Stale(gs, f) == 0 <==> forall g :: g in f.pending ==> g !in f.visited
  {
    CopiesCount(f.pending, Unreached(gs.internal, f.visited), f.rounds);
    MeasureFloor(Left(gs, f), Stale(gs, f), f.rounds);
  }

  lemma ReactedSizes(gs: Ganglia, f: Flood, g: Ganglion)
    requires g in f.pending && g in gs.internal
    ensures var f' := Reacted(gs, f, g);
            && Left(gs, f') == (if g in f.visited then Left(gs, f) else Left(gs, f) - 1)
            && |f'.pending| == |f.pending| - 1 + Left(gs, f')
  {
    var f' := Reacted(gs, f, g);
    assert Unreached(gs.internal, f'.visited) == Unreached(gs.internal, f.visited) - {g};
  }

  lemma ReactedStale(gs: Ganglia, f: Flood, g: Ganglion)
    requires g in f.pending && g in gs.internal
    ensures var f' := Reacted(gs, f, g);
            Stale(gs, f') == Stale(gs, f) - 1 + if g in f.visited then 0 else f.rounds
  {
    ReactedSizes(gs, f, g);
    OneMore(Left(gs, Reacted(gs, f, g)), f.rounds);
  }

  /** Each reaction spends at least one unit, and exactly one if `g` is marked or no copy awaits a marked ganglion. */
  lemma ReactionSpends(gs: Ganglia, f: Flood, g: Ganglion)
    requires InwardOk(gs, f) && g in f.pending
    ensures Potential(gs, Reacted(gs, f, g)) <= Potential(gs, f) - 1
    ensures g in f.visited || Stale(gs, f) == 0 ==> Potential(gs, Reacted(gs, f, g)) == Potential(gs, f) - 1
  {
    PotentialNonNegative(gs, f);
    ReactedSizes(gs, f, g);
    ReactedStale(gs, f, g);
    var u, v := Left(gs, Reacted(gs, f, g)), Stale(gs, f);
    SpendStale(u, v, f.rounds);
    SpendNew(u, v, f.rounds);
    TimesMonotone(0, Pow2(u), v);
    assert v == 0 ==> Pow2(u) * v == 0;
  }

  // ----- What every reachable flood keeps

  /** Reactions so far and still possible, against the internal ganglia the message did not come through. */
  ghost predicate WithinBudget(gs: Ganglia, f: Flood) {
    f.rounds + Potential(gs, f) <= Pow2(|gs.internal - {f.origin}|)
  }

  ghost predicate FloodSound(gs: Ganglia, f: Flood) {
    FloodOk(gs, f) && WithinBudget(gs, f)
  }

  ghost predicate Sound(p: Plexus) {
    p.ganglia.internal !! p.ganglia.external && forall id :: id in p.floods ==> FloodSound(p.ganglia, p.floods[id])
  }

  lemma StartPotential(gs: Ganglia, f: Flood)
    requires f.visited == {f.origin}
    requires f.rounds <= 1 && f.pending == if f.rounds == 1 then multiset(gs.internal - {f.origin}) else multiset{}
    ensures f.rounds == 1 ==> f.rounds + Potential(gs, f) == Pow2(|gs.internal - {f.origin}|)
    ensures WithinBudget(gs, f)
  {
  }

  lemma EnterSound(gs: Ganglia, g: Ganglion)
    requires gs.internal !! gs.external && g in gs.internal
    ensures FloodSound(gs, Entered(gs, g))
    ensures 1 + Potential(gs, Entered(gs, g)) == Pow2(|gs.internal - {g}|)
  {
    EnteredOk(gs, g);
    assert Entered(gs, g).visited == {g};
    assert Entered(gs, g).pending == multiset(gs.internal - {g});
    StartPotential(gs, Entered(gs, g));
  }

  lemma ArriveSound(gs: Ganglia, g: Ganglion)
    requires gs.internal !! gs.external && g in gs.external
    ensures FloodSound(gs, Inward(gs, g)) && FloodSound(gs, Outward(gs, g))
    ensures 1 + Potential(gs, Inward(gs, g)) == Pow2(|gs.internal - {g}|)
  {
    InwardStarts(gs, g);
    StartPotential(gs, Inward(gs, g));
    OutwardStarts(gs, g);
    StartPotential(gs, Outward(gs, g));
  }

  lemma ReactSound(gs: Ganglia, f: Flood, g: Ganglion)
    requires gs.internal !! gs.external && FloodSound(gs, f) && g in f.pending
    ensures FloodSound(gs, Reacted(gs, f, g))
  {
    ReactedKeeps(gs, f, g);
    ReactionSpends(gs, f, g);
  }

  lemma AfterSound(p: Plexus, e: Event)
    requires Sound(p) && Enabled(p, e)
    ensures FloodSound(p.ganglia, After(p, e))
  {
    match e
    case Enter(id, g) => EnterSound(p.ganglia, g);
    case ArriveInward(id, g) => ArriveSound(p.ganglia, g);
    case ArriveOutward(id, g) => ArriveSound(p.ganglia, g);
    case React(id, g) => ReactSound(p.ganglia, p.floods[id], g);
  }

  lemma StepKeeps(p: Plexus, e: Event)
    requires Sound(p) && Enabled(p, e)
    ensures Sound(Step(p, e))
  {
    AfterSound(p, e);
  }

  // ----- Whole runs

  function Counts(e: Event, id: ReactionId): nat {
    if e.React? && e.id == id then 1 else 0
  }

  function Reactions(es: seq<Event>, id: ReactionId): nat {
    if es == [] then 0
    else Counts(es[0], id) + Reactions(es[1..], id)
  }

  /** Between two states of a flood: `n` reactions happened and used up potential. */
  ghost predicate Spent(gs: Ganglia, f: Flood, f': Flood, n: nat) {
    && f'.origin == f.origin
    && f'.rounds == f.rounds + n
    && Potential(gs, f') + n <= Potential(gs, f)
  }

  lemma {:induction false} RunSound(p: Plexus, es: seq<Event>, p': Plexus)
    requires Sound(p) && Run(p, es, p')
    ensures Sound(p') && p'.ganglia == p.ganglia
    decreases |es|
  {
    if es != [] {
      StepKeeps(p, es[0]);
      RunSound(Step(p, es[0]), es[1..], p');
    }
  }

  lemma StepSpends(p: Plexus, e: Event, id: ReactionId)
    requires Sound(p) && Enabled(p, e) && id in p.floods
    ensures id in Step(p, e).floods && Spent(p.ganglia, p.floods[id], Step(p, e).floods[id], Counts(e, id))
  {
    if e.id == id {
      assert FloodSound(p.ganglia, p.floods[id]);
      ReactionSpends(p.ganglia, p.floods[id], e.g);
    }
  }

  lemma SpentTwice(gs: Ganglia, f: Flood, f': Flood, f'': Flood, m: nat, n: nat)
    requires Spent(gs, f, f', m) && Spent(gs, f', f'', n)
    ensures Spent(gs, f, f'', m + n)
  {
  }

  /** However the reactions of different ids interleave, those of one id use up its potential. */
  lemma {:induction false} RunSpends(p: Plexus, es: seq<Event>, p': Plexus, id: ReactionId)
    requires Sound(p) && Run(p, es, p') && id in p.floods
    ensures id in p'.floods && Spent(p.ganglia, p.floods[id], p'.floods[id], Reactions(es, id))
    decreases |es|
  {
    if es != [] {
      var q := Step(p, es[0]);
      StepKeeps(p, es[0]);
      StepSpends(p, es[0], id);
      RunSpends(q, es[1..], p', id);
      SpentTwice(p.ganglia, p.floods[id], q.floods[id], p'.floods[id], Counts(es[0], id), Reactions(es[1..], id));
    }
  }

  /**
   * Flooding stops: from any reachable state a flood causes at most as many further reactions as its
   * potential, however they interleave with other floods and with messages still to come.
   */
  lemma FloodingStops(gs: Ganglia, es: seq<Event>, p: Plexus, fs: seq<Event>, p': Plexus, id: ReactionId)
    requires gs.internal !! gs.external && Run(Quiet(gs), es, p) && id in p.floods
    requires Run(p, fs, p')
    ensures Reactions(fs, id) <= Potential(gs, p.floods[id])
  {
    RunSound(Quiet(gs), es, p);
    RunSpends(p, fs, p', id);
    RunSound(p, fs, p');
    assert FloodSound(gs, p'.floods[id]);
    PotentialNonNegative(gs, p'.floods[id]);
  }

  /** The sends a recursion over the unmarked ganglia allows: each of `k` copies may start over with one mark more. */
  function Sends(k: nat, x: nat): nat {
    if k == 0 then x else k + x + k * Sends(k - 1, x)
  }

  lemma {:induction false} BudgetWithinSends(k: nat, x: nat)
    ensures (1 + x) * Pow2(k) - 1 <= Sends(k, x)
  {
    if k > 1 {
      BudgetWithinSends(k - 1, x);
      assert (1 + x) * Pow2(k) == 2 * ((1 + x) * Pow2(k - 1)) by {
        assert Pow2(k) == 2 * Pow2(k - 1);
      }
      TimesMonotone(2, k, Sends(k - 1, x));
    } else if k == 1 {
      assert Pow2(1) == 2 * Pow2(0) == 2;
      assert Sends(1, x) == 1 + x + Sends(0, x);
    }
  }

  /** Copies sent inward were handled or are pending, so the budget covers them. */
  lemma InwardSends(gs: Ganglia, f: Flood)
    requires InwardOk(gs, f) && WithinBudget(gs, f)
    ensures f.rounds <= Pow2(|gs.internal - {f.origin}|) && |f.inward| <= Pow2(|gs.internal - {f.origin}|) - 1
  {
    Pow2Exceeds(|gs.internal - {f.origin}|);
    PotentialNonNegative(gs, f);
  }

  /** Every external ganglion but the origin is sent equally many copies. */
  lemma OutwardSends(gs: Ganglia, f: Flood, times: nat)
    requires OutwardOk(gs, f) && times == TimesOutward(gs, f)
    ensures |f.outward| == |gs.external - {f.origin}| * times
  {
    CopiesCount(f.outward, gs.external - {f.origin}, times);
  }

  lemma SumOfSends(bound: nat, x: nat, times: nat, inward: nat, outward: nat)
    requires inward <= bound - 1 && times <= bound && outward == x * times
    ensures outward <= x * bound && inward + outward <= (1 + x) * bound - 1
  {
    TimesMonotone(times, bound, x);
    assert (1 + x) * bound == bound + x * bound;
  }

  lemma FloodSends(gs: Ganglia, f: Flood)
    requires FloodSound(gs, f)
    ensures var k, x := |gs.internal - {f.origin}|, |gs.external - {f.origin}|;
            && f.rounds <= Pow2(k)
            && |f.inward| <= Pow2(k) - 1
            && |f.outward| == x * TimesOutward(gs, f) <= x * Pow2(k)
            && |f.inward| + |f.outward| <= (1 + x) * Pow2(k) - 1 <= Sends(k, x)
  {
    var k, x := |gs.internal - {f.origin}|, |gs.external - {f.origin}|;
    InwardSends(gs, f);
    OutwardSends(gs, f, TimesOutward(gs, f));
    Pow2Exceeds(k);
    SumOfSends(Pow2(k), x, TimesOutward(gs, f), |f.inward|, |f.outward|);
    BudgetWithinSends(k, x);
  }

  /** In every reachable state: how often a flood has reacted and how many copies it has sent. */
  lemma SendsBounded(gs: Ganglia, es: seq<Event>, p: Plexus, id: ReactionId)
    requires gs.internal !! gs.external && Run(Quiet(gs), es, p) && id in p.floods
    ensures var f := p.floods[id];
            var k, x := |gs.internal - {f.origin}|, |gs.external - {f.origin}|;
            && f.rounds <= Pow2(k)
            && |f.inward| <= Pow2(k) - 1
            && |f.outward| <= x * Pow2(k)
            && |f.inward| + |f.outward| <= (1 + x) * Pow2(k) - 1 <= Sends(k, x)
  {
    RunSound(Quiet(gs), es, p);
    assert FloodSound(gs, p.floods[id]);
    FloodSends(gs, p.floods[id]);
  }

  /**
   * A message from outside starts two floods; the one going outward sends one copy to every other external
   * ganglion.
   */
  lemma OutwardOnly(gs: Ganglia, f: Flood)
    requires InwardOk(gs, f) && OutwardOk(gs, f) && f.rounds == 0 && f.origin !in gs.internal
    ensures |f.inward| == 0 && |f.outward| == |gs.external - {f.origin}|
  {
    OutwardSends(gs, f, 1);
    NoRounds(gs, f);
  }

  lemma NoRounds(gs: Ganglia, f: Flood)
    requires InwardOk(gs, f) && f.rounds == 0
    ensures f.pending == multiset{} && |f.inward| == 0
  {
    assert forall g :: g !in f.pending;
    assert f.pending == multiset{};
  }

  lemma InwardFromOutside(gs: Ganglia, f: Flood)
    requires OutwardOk(gs, f) && f.rounds > 0 && f.origin !in gs.internal
    ensures |f.outward| == |gs.external - {f.origin}| * (f.rounds - 1)
  {
    OutwardSends(gs, f, f.rounds - 1);
  }

  lemma SumFromOutside(bound: nat, x: nat, rounds: nat, inward: nat)
    requires inward <= bound - 1 && 1 <= rounds <= bound
    ensures inward + x * (rounds - 1) + x <= (1 + x) * bound - 1
    ensures inward == bound - 1 && rounds == bound ==> inward + x * (rounds - 1) + x == (1 + x) * bound - 1
  {
    TimesMonotone(rounds, bound, x);
    assert x * (rounds - 1) == x * rounds - x;
    assert (1 + x) * bound == bound + x * bound;
  }

  /** The two floods of a message from outside together stay within the bound of a message from inside. */
  lemma ArrivalSendsBounded(gs: Ganglia, es: seq<Event>, p: Plexus, i: ReactionId, j: ReactionId)
    requires gs.internal !! gs.external && Run(Quiet(gs), es, p) && i in p.floods && j in p.floods
    requires p.floods[i].origin == p.floods[j].origin && p.floods[i].origin in gs.external
    requires p.floods[i].rounds > 0 && p.floods[j].rounds == 0
    ensures var f, f' := p.floods[i], p.floods[j];
            var k, x := |gs.internal - {f.origin}|, |gs.external - {f.origin}|;
            |f.inward| + |f.outward| + |f'.inward| + |f'.outward| <= (1 + x) * Pow2(k) - 1
  {
    RunSound(Quiet(gs), es, p);
    var f := p.floods[i];
    assert FloodSound(gs, f) && FloodSound(gs, p.floods[j]);
    InwardSends(gs, f);
    InwardFromOutside(gs, f);
    OutwardOnly(gs, p.floods[j]);
    SumFromOutside(Pow2(|gs.internal - {f.origin}|), |gs.external - {f.origin}|, f.rounds, |f.inward|);
  }

  // ----- The bound is attained

  /** The next copy to handle in the worst interleaving: one for a marked ganglion while there is any. */
  lemma WorstCopy(gs: Ganglia, f: Flood) returns (g: Ganglion)
    requires InwardOk(gs, f) && f.pending != multiset{}
    ensures g in f.pending && Potential(gs, Reacted(gs, f, g)) == Potential(gs, f) - 1
  {
    PotentialNonNegative(gs, f);
    if Stale(gs, f) == 0 {
      g :| g in f.pending;
    } else {
      g :| g in f.pending && g in f.visited;
    }
    ReactionSpends(gs, f, g);
  }

  lemma NothingPending(gs: Ganglia, f: Flood)
    requires InwardOk(gs, f) && f.pending == multiset{}
    ensures Potential(gs, f) == 0
  {
  }

  lemma RunAfter(p: Plexus, e: Event, rest: seq<Event>, p': Plexus)
    requires Enabled(p, e) && Run(Step(p, e), rest, p')
    ensures Run(p, [e] + rest, p')
    ensures forall id :: Reactions([e] + rest, id) == Counts(e, id) + Reactions(rest, id)
  {
  }

  lemma WorstStep(p: Plexus, id: ReactionId) returns (e: Event)
    requires Sound(p) && id in p.floods && p.floods[id].pending != multiset{}
    ensures Enabled(p, e) && e.React? && e.id == id && Sound(Step(p, e))
    ensures 1 <= Potential(p.ganglia, p.floods[id])
    ensures Potential(p.ganglia, Step(p, e).floods[id]) == Potential(p.ganglia, p.floods[id]) - 1
  {
    assert FloodSound(p.ganglia, p.floods[id]);
    PotentialNonNegative(p.ganglia, p.floods[id]);
    var g := WorstCopy(p.ganglia, p.floods[id]);
    e := React(id, g);
    StepKeeps(p, e);
  }

  /** From any sound state, some interleaving handles exactly `Potential` more copies of a flood. */
  lemma {:induction false} WorstRun(p: Plexus, id: ReactionId) returns (es: seq<Event>, p': Plexus)
    requires Sound(p) && id in p.floods
    ensures Run(p, es, p') && id in p'.floods
    ensures Reactions(es, id) == |es| == Potential(p.ganglia, p.floods[id])
    ensures p'.floods[id].pending == multiset{}
    decreases Potential(p.ganglia, p.floods[id])
  {
    if p.floods[id].pending == multiset{} {
      assert FloodSound(p.ganglia, p.floods[id]);
      NothingPending(p.ganglia, p.floods[id]);
      es, p' := [], p;
    } else {
      var e := WorstStep(p, id);
      var rest;
      rest, p' := WorstRun(Step(p, e), id);
      RunAfter(p, e, rest, p');
      es := [e] + rest;
    }
  }

  /** The bounds of SendsBounded are exact: some interleaving of a message entering at `g` meets all of them. */
  lemma BoundAttained(gs: Ganglia, g: Ganglion, id: ReactionId) returns (es: seq<Event>, p: Plexus)
    requires gs.internal !! gs.external && g in gs.internal
    ensures Run(Quiet(gs), es, p) && id in p.floods && p.floods[id].origin == g && p.floods[id].pending == multiset{}
    ensures var f := p.floods[id];
            var k, x := |gs.internal - {g}|, |gs.external - {g}|;
            && f.rounds == Pow2(k)
            && |f.inward| == Pow2(k) - 1
            && |f.outward| == x * Pow2(k)
  {
    var e := Enter(id, g);
    var q := Step(Quiet(gs), e);
    EnterSound(gs, g);
    var rest;
    rest, p := WorstRun(q, id);
    RunAfter(Quiet(gs), e, rest, p);
    es := [e] + rest;
    RunSpends(q, rest, p, id);
    RunSound(q, rest, p);
    assert FloodSound(gs, p.floods[id]);
    FloodSends(gs, p.floods[id]);
  }

  /** Both floods of a message from outside, before any copy is handled. */
  function Arrived(gs: Ganglia, g: Ganglion, i: ReactionId, j: ReactionId): Plexus
  {
    Plexus(gs, map[i := Inward(gs, g), j := Outward(gs, g)])
  }

  lemma TwoFloodsSound(gs: Ganglia, f: Flood, f': Flood, i: ReactionId, j: ReactionId)
    requires gs.internal !! gs.external && FloodSound(gs, f) && FloodSound(gs, f')
    ensures Sound(Plexus(gs, map[i := f, j := f']))
  {
  }

  lemma ArrivedSound(gs: Ganglia, g: Ganglion, i: ReactionId, j: ReactionId)
    requires gs.internal !! gs.external && g in gs.external && i != j
    ensures Sound(Arrived(gs, g, i, j))
    ensures Potential(gs, Inward(gs, g)) == Pow2(|gs.internal - {g}|) - 1
  {
    ArriveSound(gs, g);
    TwoFloodsSound(gs, Inward(gs, g), Outward(gs, g), i, j);
  }

  lemma ArrivedRun(gs: Ganglia, g: Ganglion, i: ReactionId, j: ReactionId, rest: seq<Event>, p: Plexus)
    requires g in gs.external && i != j && Run(Arrived(gs, g, i, j), rest, p)
    ensures Run(Quiet(gs), [ArriveInward(i, g)] + ([ArriveOutward(j, g)] + rest), p)
  {
    var m := Step(Quiet(gs), ArriveInward(i, g));
    assert Step(m, ArriveOutward(j, g)) == Arrived(gs, g, i, j);
    RunAfter(m, ArriveOutward(j, g), rest, p);
    RunAfter(Quiet(gs), ArriveInward(i, g), [ArriveOutward(j, g)] + rest, p);
  }

  /** An outward flood has nothing left to do, so no run changes it. */
  lemma OutwardStays(p: Plexus, es: seq<Event>, p': Plexus, j: ReactionId, g: Ganglion)
    requires Sound(p) && Run(p, es, p') && j in p.floods && p.floods[j] == Outward(p.ganglia, g)
    ensures j in p'.floods && p'.floods[j].rounds == 0 && p'.floods[j].origin == g
  {
    RunSpends(p, es, p', j);
    RunSound(p, es, p');
    assert FloodSound(p.ganglia, p.floods[j]) && FloodSound(p'.ganglia, p'.floods[j]);
    NothingPending(p.ganglia, p.floods[j]);
    PotentialNonNegative(p'.ganglia, p'.floods[j]);
  }

  /** The inward flood after it handled every copy, in the worst interleaving. */
  lemma InwardEnds(p: Plexus, es: seq<Event>, p': Plexus, i: ReactionId, g: Ganglion)
    requires Sound(p) && Run(p, es, p') && i in p.floods && p.floods[i] == Inward(p.ganglia, g)
    requires Reactions(es, i) == Potential(p.ganglia, Inward(p.ganglia, g)) == Pow2(|p.ganglia.internal - {g}|) - 1
    ensures i in p'.floods && p'.floods[i].origin == g && p'.floods[i].rounds == Pow2(|p.ganglia.internal - {g}|)
  {
    RunSpends(p, es, p', i);
  }

  lemma ArrivedTotal(gs: Ganglia, f: Flood, f': Flood, g: Ganglion, bound: nat)
    requires InwardOk(gs, f) && OutwardOk(gs, f) && InwardOk(gs, f') && OutwardOk(gs, f')
    requires g !in gs.internal && f.origin == f'.origin == g
    requires f.pending == multiset{} && f.rounds == bound >= 1 && f'.rounds == 0
    ensures f'.pending == multiset{}
    ensures |f.inward| + |f.outward| + |f'.inward| + |f'.outward| == (1 + |gs.external - {g}|) * bound - 1
  {
    InwardFromOutside(gs, f);
    OutwardOnly(gs, f');
    NoRounds(gs, f');
    SumFromOutside(bound, |gs.external - {g}|, bound, |f.inward|);
  }

  /** The worst interleaving of the two floods. */
  lemma WorstArrival(gs: Ganglia, g: Ganglion, i: ReactionId, j: ReactionId) returns (rest: seq<Event>, p: Plexus)
    requires gs.internal !! gs.external && g in gs.external && i != j
    ensures Run(Arrived(gs, g, i, j), rest, p) && i in p.floods && j in p.floods
    ensures p.floods[i].origin == p.floods[j].origin == g && p.floods[i].pending == multiset{}
    ensures p.floods[i].rounds == Pow2(|gs.internal - {g}|) && p.floods[j].rounds == 0
  {
    var q := Arrived(gs, g, i, j);
    ArrivedSound(gs, g, i, j);
    rest, p := WorstRun(q, i);
    InwardEnds(q, rest, p, i, g);
    OutwardStays(q, rest, p, j, g);
  }

  lemma FloodCounts(gs: Ganglia, es: seq<Event>, p: Plexus, id: ReactionId)
    requires gs.internal !! gs.external && Run(Quiet(gs), es, p) && id in p.floods
    ensures InwardOk(gs, p.floods[id]) && OutwardOk(gs, p.floods[id])
  {
    RunSound(Quiet(gs), es, p);
    assert FloodSound(gs, p.floods[id]);
  }

  /** The bound of ArrivalSendsBounded is exact, too. */
  lemma ArrivalBoundAttained(gs: Ganglia, g: Ganglion, i: ReactionId, j: ReactionId) returns (es: seq<Event>, p: Plexus)
    requires gs.internal !! gs.external && g in gs.external && i != j
    ensures Run(Quiet(gs), es, p) && i in p.floods && j in p.floods && p.floods[i].origin == p.floods[j].origin == g
    ensures p.floods[i].pending == p.floods[j].pending == multiset{}
    ensures var f, f' := p.floods[i], p.floods[j];
            var k, x := |gs.internal - {g}|, |gs.external - {g}|;
            |f.inward| + |f.outward| + |f'.inward| + |f'.outward| == (1 + x) * Pow2(k) - 1
  {
    var rest;
    rest, p := WorstArrival(gs, g, i, j);
    es := [ArriveInward(i, g)] + ([ArriveOutward(j, g)] + rest);
    ArrivedRun(gs, g, i, j, rest, p);
    FloodCounts(gs, es, p, i);
    FloodCounts(gs, es, p, j);
    Pow2Exceeds(|gs.internal - {g}|);
    ArrivedTotal(gs, p.floods[i], p.floods[j], g, Pow2(|gs.internal - {g}|));
  }

  // ----- Coverage, and no echo

  /** Nothing is ever sent back to the ganglion a message came through. */
  lemma NoEcho(gs: Ganglia, es: seq<Event>, p: Plexus, id: ReactionId)
    requires gs.internal !! gs.external && Run(Quiet(gs), es, p) && id in p.floods
    ensures var f := p.floods[id]; f.origin !in f.inward && f.origin !in f.outward
  {
    RunSound(Quiet(gs), es, p);
    assert FloodSound(gs, p.floods[id]);
  }

  /**
   * When nothing of a flood is pending, every internal ganglion has reacted and every other ganglion was
   * sent a copy.
   */
  lemma FullCoverage(gs: Ganglia, es: seq<Event>, p: Plexus, id: ReactionId)
    requires gs.internal !! gs.external && Run(Quiet(gs), es, p) && id in p.floods
    requires gs.internal != {} && p.floods[id].pending == multiset{} && p.floods[id].rounds > 0
    ensures var f := p.floods[id];
            && gs.internal <= f.visited
            && (forall g :: g in gs.internal - {f.origin} ==> g in f.inward)
            && (forall g :: g in gs.external - {f.origin} ==> g in f.outward)
  {
    RunSound(Quiet(gs), es, p);
    var f := p.floods[id];
    assert FloodSound(gs, f);
    forall g | g in gs.internal ensures g in f.visited {
      assert g in Unreached(gs.internal, f.visited) ==> f.pending[g] == f.rounds;
    }
    if f.origin !in gs.internal {
      var g :| g in gs.internal;
      assert g in f.inward;
      assert f.inward[g] > 0;
    }
  }
}
