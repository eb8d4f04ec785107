/** The loop that repeats attempts at consensus until one yields an address. */
module Acquisition {
  import opened Wrappers
  import opened Ballots
  import opened IpLease

  /**
   * How one attempt at consensus goes: what the promises decide, and whether enough approvals come.
   * In between a learner may create the synapse, and other tasks may lease `n` of the free addresses.
   */
  datatype Attempt =
    | Rejected
    | Reproposed(a: Address, approved: bool)
    | FreshlyDrawn(approved: bool)
    | Appeared
    | LeasedElsewhere(n: nat)

  datatype Acquired = Got(drawn: bool) | AlreadyExists | Exhausted | StillTrying

  /** How the loop ends, how many addresses it drew, and how many are left free. */
  datatype Ending = Ending(outcome: Acquired, drawn: nat, left: nat)

  function Taking(n: nat, free: nat): nat {
    if n <= free then n else free
  }

  /** What one attempt comes to: how the loop ends, if it does, how many addresses it drew, how many it leaves. */
  datatype Effect = Effect(end: Option<Acquired>, drawn: nat, left: nat)

  function Once(attempt: Attempt, free: nat): Effect {
    match attempt
    case Appeared => Effect(Some(AlreadyExists), 0, free)
    case Rejected => Effect(None, 0, free)
    case Reproposed(_, approved) => Effect(if approved then Some(Got(false)) else None, 0, free)
    case FreshlyDrawn(approved) =>
      if free == 0 then Effect(Some(Exhausted), 0, 0)
      else Effect(if approved then Some(Got(true)) else None, 1, free - 1)
    case LeasedElsewhere(n) => Effect(None, 0, free - Taking(n, free))
  }

  function Loop(attempts: seq<Attempt>, free: nat): Ending
    decreases |attempts|
  {
    if attempts == [] then Ending(StillTrying, 0, free)
    else
      var once := Once(attempts[0], free);
      if once.end.Some? then Ending(once.end.value, once.drawn, once.left)
      else
        var e := Loop(attempts[1..], once.left);
        e.(drawn := once.drawn + e.drawn)
  }

  function Draws(attempts: seq<Attempt>): nat
    decreases |attempts|
  {
    if attempts == [] then 0 else (if attempts[0].FreshlyDrawn? then 1 else 0) + Draws(attempts[1..])
  }

  function Taken(attempts: seq<Attempt>): nat
    decreases |attempts|
  {
    if attempts == [] then 0 else (if attempts[0].LeasedElsewhere? then attempts[0].n else 0) + Taken(attempts[1..])
  }

  predicate Fails(attempt: Attempt) {
    || attempt.Rejected?
    || attempt.LeasedElsewhere?
    || ((attempt.Reproposed? || attempt.FreshlyDrawn?) && !attempt.approved)
  }

  /**
   * Bounded waste: attempts that all fail draw at most as many addresses as are free, one for each
   * attempt that asks for a fresh one, and end the loop if they ask for more. With nothing leased
   * elsewhere they end it exactly then, and they never do while all that is asked for is free.
   */
  lemma {:induction false} BoundedWaste(attempts: seq<Attempt>, free: nat)
    requires forall x :: x in attempts ==> Fails(x)
    ensures var e := Loop(attempts, free);
            && e.outcome == (if e.drawn < Draws(attempts) then Exhausted else StillTrying)
            && e.drawn <= free && e.drawn <= Draws(attempts)
            && free - e.drawn - Taken(attempts) <= e.left <= free - e.drawn
            && (e.outcome == Exhausted ==> e.left == 0)
    ensures Draws(attempts) > free ==> Loop(attempts, free).outcome == Exhausted
    ensures Draws(attempts) + Taken(attempts) <= free ==> Loop(attempts, free).outcome == StillTrying
    decreases |attempts|
  {
    if attempts != [] {
      assert attempts[0] in attempts && Fails(attempts[0]);
      forall x | x in attempts[1..] ensures Fails(x) {
        assert x in attempts;
      }
      if attempts[0].FreshlyDrawn? {
        if free > 0 {
          BoundedWaste(attempts[1..], free - 1);
        }
      } else if attempts[0].LeasedElsewhere? {
        BoundedWaste(attempts[1..], free - Taking(attempts[0].n, free));
      } else {
        BoundedWaste(attempts[1..], free);
      }
    }
  }

  // ----- How the loop ends, told by the attempts alone

  /** The draws and leases of the first `i` attempts use up all that was free. */
  predicate UsedUp(attempts: seq<Attempt>, i: nat, free: nat)
    requires i <= |attempts|
  {
    Draws(attempts[..i]) + Taken(attempts[..i]) >= free
  }

  /** The attempt at `i` ends a loop that gets there: it is approved, or finds a synapse or nothing left to draw. */
  predicate Ends(attempts: seq<Attempt>, i: nat, free: nat)
    requires i < |attempts|
  {
    match attempts[i]
    case Appeared => true
    case Reproposed(_, approved) => approved
    case FreshlyDrawn(approved) => approved || UsedUp(attempts, i, free)
    case _ => false
  }

  /** No attempt before `i` ends the loop. */
  ghost predicate Reaches(attempts: seq<Attempt>, i: nat, free: nat)
    requires i <= |attempts|
  {
    forall j :: 0 <= j < i ==> !Ends(attempts, j, free)
  }

  /** What the attempt that ends the loop makes of it. */
  predicate EndsAs(attempts: seq<Attempt>, i: nat, free: nat, outcome: Acquired)
    requires i < |attempts|
  {
    match attempts[i]
    case Appeared => outcome == AlreadyExists
    case Reproposed(_, _) => outcome == Got(false)
    case FreshlyDrawn(_) => outcome == if UsedUp(attempts, i, free) then Exhausted else Got(true)
    case _ => false
  }

  /** What the first `i` attempts leave free. */
  function Remaining(attempts: seq<Attempt>, i: nat, free: nat): nat
    requires i <= |attempts|
  {
    if UsedUp(attempts, i, free) then 0 else free - Draws(attempts[..i]) - Taken(attempts[..i])
  }

  lemma {:induction false} CountsSplit(attempts: seq<Attempt>, more: seq<Attempt>)
    ensures Draws(attempts + more) == Draws(attempts) + Draws(more)
    ensures Taken(attempts + more) == Taken(attempts) + Taken(more)
    decreases |attempts|
  {
    if attempts == [] {
      assert attempts + more == more;
    } else {
      CountsSplit(attempts[1..], more);
      assert (attempts + more)[1..] == attempts[1..] + more;
    }
  }

  lemma CountsNext(attempts: seq<Attempt>, i: nat)
    requires i < |attempts|
    ensures Draws(attempts[..i + 1]) == Draws(attempts[..i]) + if attempts[i].FreshlyDrawn? then 1 else 0
    ensures Taken(attempts[..i + 1])
         == Taken(attempts[..i]) + if attempts[i].LeasedElsewhere? then attempts[i].n else 0
  {
    assert attempts[..i + 1] == attempts[..i] + [attempts[i]];
    CountsSplit(attempts[..i], [attempts[i]]);
  }

  /** What one attempt comes to in a loop that reached it. */
  lemma OnceInLoop(attempts: seq<Attempt>, i: nat, free: nat)
    requires i < |attempts|
    ensures var once := Once(attempts[i], Remaining(attempts, i, free));
            && (once.end.Some? <==> Ends(attempts, i, free))
            && (once.end.Some? ==> EndsAs(attempts, i, free, once.end.value))
            && once.drawn == (if attempts[i].FreshlyDrawn? && !UsedUp(attempts, i, free) then 1 else 0)
            && once.left == Remaining(attempts, i + 1, free)
  {
    CountsNext(attempts, i);
  }

  /** The loop from `i` on, having reached it. */
  lemma {:induction false} LoopFrom(attempts: seq<Attempt>, i: nat, free: nat)
    requires i <= |attempts| && Reaches(attempts, i, free)
    ensures var e := Loop(attempts[i..], Remaining(attempts, i, free));
            && (Reaches(attempts, |attempts|, free) ==>
                  && e.outcome == StillTrying && e.left == Remaining(attempts, |attempts|, free)
                  && e.drawn == Draws(attempts[i..]))
            && (forall j :: i <= j < |attempts| && Ends(attempts, j, free) && Reaches(attempts, j, free) ==>
                  && EndsAs(attempts, j, free, e.outcome) && e.left == Remaining(attempts, j + 1, free)
                  && e.drawn == Draws(attempts[i..j]) + if e.outcome == Got(true) then 1 else 0)
    decreases |attempts| - i
  {
    if i < |attempts| {
      OnceInLoop(attempts, i, free);
      assert attempts[i..][0] == attempts[i] && attempts[i..][1..] == attempts[i + 1..];
      if Ends(attempts, i, free) {
        assert attempts[i..i] == [];
      } else {
        LoopFrom(attempts, i + 1, free);
        forall j | i + 1 <= j <= |attempts|
          ensures Draws(attempts[i..j]) == Draws(attempts[i + 1..j]) + if attempts[i].FreshlyDrawn? then 1 else 0
        {
          assert attempts[i..j][1..] == attempts[i + 1..j];
        }
        assert attempts[i..|attempts|] == attempts[i..] && attempts[i + 1..|attempts|] == attempts[i + 1..];
      }
    } else {
      assert attempts[i..] == [];
    }
  }

  lemma LoopEndsAt(attempts: seq<Attempt>, i: nat, free: nat)
    requires i < |attempts| && Ends(attempts, i, free) && Reaches(attempts, i, free)
    ensures var e := Loop(attempts, free);
            && EndsAs(attempts, i, free, e.outcome) && e.left == Remaining(attempts, i + 1, free)
            && e.drawn == Draws(attempts[..i]) + if e.outcome == Got(true) then 1 else 0
  {
    assert attempts[..0] == [] && attempts[0..] == attempts && attempts[0..i] == attempts[..i];
    LoopFrom(attempts, 0, free);
  }

  lemma LoopNeverEnds(attempts: seq<Attempt>, free: nat)
    requires Reaches(attempts, |attempts|, free)
    ensures Loop(attempts, free) == Ending(StillTrying, Draws(attempts), Remaining(attempts, |attempts|, free))
  {
    assert attempts[..0] == [] && attempts[0..] == attempts;
    LoopFrom(attempts, 0, free);
  }

  /**
   * The loop ends with the first attempt that is approved, finds the synapse, or asks for a draw when the draws
   * and leases before it have used up what was free, and as that attempt says; with none it is still trying. It
   * has drawn once for each attempt before that asked for it, and once more if it ends on its own draw.
   */
  lemma LoopEndsFirst(attempts: seq<Attempt>, free: nat)
    ensures var e := Loop(attempts, free);
            && (e.outcome == StillTrying <==> Reaches(attempts, |attempts|, free))
            && (e.outcome == StillTrying ==> e.drawn == Draws(attempts))
            && (forall i :: 0 <= i < |attempts| && Ends(attempts, i, free) && Reaches(attempts, i, free) ==>
                  && EndsAs(attempts, i, free, e.outcome) && e.left == Remaining(attempts, i + 1, free)
                  && e.drawn == Draws(attempts[..i]) + if e.outcome == Got(true) then 1 else 0)
  {
    if Reaches(attempts, |attempts|, free) {
      LoopNeverEnds(attempts, free);
    } else {
      var i := FirstEnd(attempts, |attempts|, free);
      LoopEndsAt(attempts, i, free);
      forall j | 0 <= j < |attempts| && Ends(attempts, j, free) && Reaches(attempts, j, free) ensures j == i {
      }
    }
  }

  lemma {:induction false} FirstEnd(attempts: seq<Attempt>, n: nat, free: nat) returns (i: nat)
    requires n <= |attempts| && !Reaches(attempts, n, free)
    ensures i < n && Ends(attempts, i, free) && Reaches(attempts, i, free)
  {
    if Reaches(attempts, n - 1, free) {
      i := n - 1;
    } else {
      i := FirstEnd(attempts, n - 1, free);
    }
  }

  /** Attempts that all fail, then one approved on an address held elsewhere: that address is what is acquired. */
  lemma ApprovedAfterFailures(failed: seq<Attempt>, a: Address, rest: seq<Attempt>, free: nat)
    requires (forall x :: x in failed ==> Fails(x)) && Draws(failed) + Taken(failed) <= free
    ensures Loop(failed + [Reproposed(a, true)] + rest, free).outcome == Got(false)
    ensures Draws(failed) + Taken(failed) < free ==>
              var e := Loop(failed + [FreshlyDrawn(true)] + rest, free);
              e.outcome == Got(true) && e.drawn == Draws(failed) + 1
  {
    FailuresPass(failed, [Reproposed(a, true)] + rest, free);
    FailuresPass(failed, [FreshlyDrawn(true)] + rest, free);
    var held, drawn := failed + [Reproposed(a, true)] + rest, failed + [FreshlyDrawn(true)] + rest;
    assert held == failed + ([Reproposed(a, true)] + rest) && drawn == failed + ([FreshlyDrawn(true)] + rest);
    assert held[|failed|] == Reproposed(a, true) && drawn[|failed|] == FreshlyDrawn(true);
    assert drawn[..|failed|] == failed;
    LoopEndsAt(held, |failed|, free);
    if Draws(failed) + Taken(failed) < free {
      LoopEndsAt(drawn, |failed|, free);
    }
  }

  lemma FailuresPass(failed: seq<Attempt>, more: seq<Attempt>, free: nat)
    requires (forall x :: x in failed ==> Fails(x)) && Draws(failed) + Taken(failed) <= free
    ensures Reaches(failed + more, |failed|, free)
  {
    var all := failed + more;
    forall j | 0 <= j < |failed| ensures !Ends(all, j, free) {
      assert all[j] == failed[j] && failed[j] in failed && Fails(failed[j]);
      assert all[..j] == failed[..j] && failed == failed[..j] + failed[j..];
      CountsSplit(failed[..j], failed[j..]);
    }
  }

  method DrawOne(leases: IpLeaseManager) returns (r: Result<Address, LeaseError>)
    requires leases.Valid()
    modifies leases
    ensures leases.Valid() && leases.Network() == old(leases.Network()) && old(leases.Leased()) <= leases.Leased()
    ensures r.Err? <==> |old(leases.Free())| == 0
    ensures |leases.Free()| == |old(leases.Free())| - if r.Ok? then 1 else 0
    ensures r.Ok? ==> r.value in leases.Leased() - old(leases.Leased())
  {
    r := leases.GetAddress();
    assert leases.Free() == if r.Ok? then old(leases.Free()) - {r.value} else old(leases.Free());
    assert r.Err? ==> old(leases.Free()) == {};
  }

  /** Other tasks lease `n` of the free addresses, or all that are left. */
  method LeaseElsewhere(leases: IpLeaseManager, n: nat)
    requires leases.Valid()
    modifies leases
    ensures leases.Valid() && leases.Network() == old(leases.Network()) && old(leases.Leased()) <= leases.Leased()
    ensures |leases.Free()| == |old(leases.Free())| - Taking(n, |old(leases.Free())|)
  {
    var i := 0;
    while i < n
      invariant i <= n
      invariant leases.Valid() && leases.Network() == old(leases.Network()) && old(leases.Leased()) <= leases.Leased()
      invariant |leases.Free()| == |old(leases.Free())| - Taking(i, |old(leases.Free())|)
    {
      var drawn := DrawOne(leases);
      i := i + 1;
    }
  }

  method TryOnce(leases: IpLeaseManager, attempt: Attempt) returns (end: Option<Acquired>, address: Address)
    requires leases.Valid()
    modifies leases
    ensures leases.Valid() && leases.Network() == old(leases.Network()) && old(leases.Leased()) <= leases.Leased()
    ensures var once := Once(attempt, |old(leases.Free())|); end == once.end && |leases.Free()| == once.left
    ensures end == Some(Got(true)) ==> address in leases.Leased() - old(leases.Leased())
    ensures end == Some(Got(false)) ==> attempt == Reproposed(address, true)
  {
    end, address := None, 0;
    match attempt {
      case Appeared => end := Some(AlreadyExists);
      case Rejected =>
      case Reproposed(a, approved) =>
        if approved {
          end, address := Some(Got(false)), a;
        }
      case LeasedElsewhere(n) => LeaseElsewhere(leases, n);
      case FreshlyDrawn(approved) =>
        var r := DrawOne(leases);
        if r.Err? {
          end := Some(Exhausted);
        } else if approved {
          end, address := Some(Got(true)), r.value;
        }
    }
  }

  /** The first attempt to end the loop is at `i`, and ended it as `outcome`, with `address` if it was reproposed. */
  ghost predicate EndedAt(attempts: seq<Attempt>, i: nat, free: nat, outcome: Acquired, address: Address)
    requires i < |attempts|
  {
    && Ends(attempts, i, free) && Reaches(attempts, i, free) && EndsAs(attempts, i, free, outcome)
    && (attempts[i].Reproposed? ==> address == attempts[i].a)
  }

  /** The loop ended at the first attempt to end it and as that says, or is still trying, with `left` left free. */
  ghost predicate LoopResult(attempts: seq<Attempt>, free: nat, outcome: Acquired, address: Address, left: nat) {
    if Reaches(attempts, |attempts|, free)
    then outcome == StillTrying && left == Remaining(attempts, |attempts|, free)
    else exists i ::
           && 0 <= i < |attempts| && EndedAt(attempts, i, free, outcome, address)
           && left == Remaining(attempts, i + 1, free)
  }

  lemma LoopResultIsLoops(attempts: seq<Attempt>, free: nat, outcome: Acquired, address: Address, left: nat)
    requires LoopResult(attempts, free, outcome, address, left)
    ensures Loop(attempts, free).outcome == outcome && Loop(attempts, free).left == left
  {
    if Reaches(attempts, |attempts|, free) {
      LoopNeverEnds(attempts, free);
    } else {
      var i :| && 0 <= i < |attempts| && EndedAt(attempts, i, free, outcome, address)
               && left == Remaining(attempts, i + 1, free);
      LoopEndsAt(attempts, i, free);
    }
  }

  /** Tries attempt after attempt until an address is agreed on or none is left to draw. */
  method AcquireLoop(leases: IpLeaseManager, attempts: seq<Attempt>) returns (outcome: Acquired, address: Address)
    requires leases.Valid()
    modifies leases
    ensures leases.Valid() && leases.Network() == old(leases.Network()) && old(leases.Leased()) <= leases.Leased()
    ensures LoopResult(attempts, |old(leases.Free())|, outcome, address, |leases.Free()|)
    ensures outcome == Got(true) ==> address in leases.Leased() - old(leases.Leased())
  {
    ghost var free := |leases.Free()|;
    assert attempts[..0] == [];
    address := 0;
    var i := 0;
    while i < |attempts|
      invariant i <= |attempts| && Reaches(attempts, i, free) && |leases.Free()| == Remaining(attempts, i, free)
      invariant leases.Valid() && leases.Network() == old(leases.Network()) && old(leases.Leased()) <= leases.Leased()
    {
      OnceInLoop(attempts, i, free);
      var finished;
      finished, address := TryOnce(leases, attempts[i]);
      if finished.Some? {
        assert EndedAt(attempts, i, free, finished.value, address);
        return finished.value, address;
      }
      i := i + 1;
    }
    outcome := StillTrying;
  }
}
