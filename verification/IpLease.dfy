/** The lease manager: which addresses of the network are taken, and the set of those that are free. */
module IpLease {
  import opened Wrappers
  import opened Ballots

  datatype LeaseError = IpNotFound | IpLeaseExists | IpNotLeased | IpsExhausted

  class IpLeaseManager {
    var leaseMap: map<Address, bool>
    var availableIps: set<Address>

    /** What was leased, drawn and released so far. */
    ghost var history: seq<LeaseOp>

    ghost function Network(): set<Address>
      reads this
    {
      leaseMap.Keys
    }

    ghost function Leased(): set<Address>
      reads this
    {
      set a | a in leaseMap && leaseMap[a]
    }

    ghost function Free(): set<Address>
      reads this
    {
      Network() - Leased()
    }

    ghost predicate Recorded()
      reads this
    {
      History(Network(), {}, history) && Leased() == LeasedAfter({}, history)
    }

    /** The free set is exactly what is not leased, and the leases are those of the history. */
    ghost predicate Valid()
      reads this
    {
      availableIps == Free() && Recorded()
    }

    constructor (network: set<Address>)
      ensures Valid() && Network() == network && Leased() == {} && history == []
    {
      leaseMap := map a | a in network :: false;
      availableIps := network;
      history := [];
    }

    /** The same, except perhaps for `a`: it has been taken out of the free set ahead of being leased. */
    ghost predicate ValidBut(a: Address)
      reads this
    {
      availableIps - {a} == Free() - {a} && Recorded()
    }

    /** `drawn` only says how the history records the lease. */
    method LeaseAddress(a: Address, ghost drawn: bool := false) returns (r: Result<Address, LeaseError>)
      requires ValidBut(a)
      modifies this
      ensures r.Ok? || old(Valid()) ==> Valid()
      ensures Network() == old(Network())
      ensures r == if a !in old(Network()) then Err(IpNotFound)
                   else if a in old(Leased()) then Err(IpLeaseExists)
                   else Ok(a)
      ensures Leased() == if r.Ok? then old(Leased()) + {a} else old(Leased())
      ensures history == old(history) + if r.Err? then [] else if drawn then [Draw(a)] else [Lease(a)]
    {
      if a !in leaseMap {
        return Err(IpNotFound);
      }
      if leaseMap[a] {
        return Err(IpLeaseExists);
      }
      ghost var op := if drawn then Draw(a) else Lease(a);
      HistoryExtended(Network(), {}, history, op);
      history := history + [op];
      leaseMap := leaseMap[a := true];
      availableIps := availableIps - {a};
      assert Leased() == old(Leased()) + {a} && Network() == old(Network());
      r := Ok(a);
    }

    method ReleaseAddress(a: Address) returns (r: Result<Address, LeaseError>)
      requires Valid()
      modifies this
      ensures Valid() && Network() == old(Network())
      ensures r == if a !in old(Network()) then Err(IpNotFound)
                   else if a !in old(Leased()) then Err(IpNotLeased)
                   else Ok(a)
      ensures Leased() == if r.Ok? then old(Leased()) - {a} else old(Leased())
      ensures history == old(history) + if r.Err? then [] else [Release(a)]
    {
      if a !in leaseMap {
        return Err(IpNotFound);
      }
      if !leaseMap[a] {
        return Err(IpNotLeased);
      }
      HistoryExtended(Network(), {}, history, Release(a));
      history := history + [Release(a)];
      leaseMap := leaseMap[a := false];
      availableIps := availableIps + {a};
      assert Leased() == old(Leased()) - {a} && Network() == old(Network());
      r := Ok(a);
    }

    method AddressIsLeased(a: Address) returns (r: Result<bool, LeaseError>)
      ensures r == if a !in Network() then Err(IpNotFound) else Ok(a in Leased())
    {
      if a !in leaseMap {
        return Err(IpNotFound);
      }
      r := Ok(leaseMap[a]);
    }

    /** Fails only when every address is leased, and never hands out a leased one. */
    method GetAddress() returns (r: Result<Address, LeaseError>)
      requires Valid()
      modifies this
      ensures Valid() && Network() == old(Network())
      ensures r.Err? <==> old(Leased()) == old(Network())
      ensures r.Err? ==> r.error == IpsExhausted && Leased() == old(Leased())
      ensures r.Ok? ==> r.value in old(Free()) && Leased() == old(Leased()) + {r.value}
      ensures history == old(history) + if r.Err? then [] else [Draw(r.value)]
    {
      if availableIps == {} {
        forall a | a in Network() ensures a in Leased() {
          assert a !in availableIps;
        }
        return Err(IpsExhausted);
      }
      var a :| a in availableIps;
      availableIps := availableIps - {a};
      r := LeaseAddress(a, true);
    }

    /** An address that was leased or drawn is drawn again only after its release. */
    lemma DrawnAgainOnlyReleased(i: nat, j: nat) returns (k: nat)
      requires Valid() && i < j < |history|
      requires !history[i].Release? && history[j] == Draw(history[i].a)
      ensures i < k < j && history[k] == Release(history[i].a)
    {
      HistorySuffix(Network(), {}, history, i + 1);
      TakenIsLeased({}, history, i);
      var k' := LeasedUntilReleased(Network(), LeasedAfter({}, history[..i + 1]), history[i + 1..], j - i - 1);
      k := k' + i + 1;
    }

    /** The leases number the addresses taken less those given back, and with the free ones make up the network. */
    lemma Conserved()
      requires Valid()
      ensures |Leased()| == |history| - 2 * Releases(history)
      ensures |availableIps| + |Leased()| == |Network()|
    {
      LeasesConserved(Network(), {}, history);
      assert Network() == Free() + Leased();
    }
  }

  // ----- Sequences of successful operations

  datatype LeaseOp = Lease(a: Address) | Draw(a: Address) | Release(a: Address)

  predicate OpAllowed(network: set<Address>, leased: set<Address>, op: LeaseOp) {
    if op.Release? then op.a in leased else op.a in network - leased
  }

  function OpEffect(leased: set<Address>, op: LeaseOp): set<Address> {
    if op.Release? then leased - {op.a} else leased + {op.a}
  }

  predicate History(network: set<Address>, leased: set<Address>, ops: seq<LeaseOp>)
    decreases |ops|
  {
    ops != [] ==> OpAllowed(network, leased, ops[0]) && History(network, OpEffect(leased, ops[0]), ops[1..])
  }

  function LeasedAfter(leased: set<Address>, ops: seq<LeaseOp>): set<Address>
    decreases |ops|
  {
    if ops == [] then leased else LeasedAfter(OpEffect(leased, ops[0]), ops[1..])
  }

  lemma {:induction false} HistoryExtended(network: set<Address>, leased: set<Address>, ops: seq<LeaseOp>, op: LeaseOp)
    requires History(network, leased, ops) && OpAllowed(network, LeasedAfter(leased, ops), op)
    ensures History(network, leased, ops + [op])
    ensures LeasedAfter(leased, ops + [op]) == OpEffect(LeasedAfter(leased, ops), op)
    decreases |ops|
  {
    if ops == [] {
    } else {
      HistoryExtended(network, OpEffect(leased, ops[0]), ops[1..], op);
      assert (ops + [op])[1..] == ops[1..] + [op];
    }
  }

  lemma {:induction false} HistorySuffix(network: set<Address>, leased: set<Address>, ops: seq<LeaseOp>, i: nat)
    requires History(network, leased, ops) && i <= |ops|
    ensures History(network, LeasedAfter(leased, ops[..i]), ops[i..])
    decreases |ops|
  {
    if i == 0 {
      assert ops[..0] == [] && ops[0..] == ops;
    } else {
      var m, rest := OpEffect(leased, ops[0]), ops[1..];
      HistorySuffix(network, m, rest, i - 1);
      assert ops[..i][0] == ops[0] && ops[..i][1..] == rest[..i - 1];
      assert LeasedAfter(leased, ops[..i]) == LeasedAfter(m, rest[..i - 1]);
      assert ops[i..] == rest[i - 1..];
    }
  }

  lemma {:induction false} TakenIsLeased(leased: set<Address>, ops: seq<LeaseOp>, i: nat)
    requires i < |ops| && !ops[i].Release?
    ensures ops[i].a in LeasedAfter(leased, ops[..i + 1])
    decreases |ops|
  {
    if i == 0 {
      assert ops[..1] == [ops[0]];
    } else {
      TakenIsLeased(OpEffect(leased, ops[0]), ops[1..], i - 1);
      assert ops[..i + 1][1..] == ops[1..][..i];
    }
  }

  /** A leased address is drawn again only after it was released. */
  lemma {:induction false} LeasedUntilReleased(network: set<Address>, leased: set<Address>, ops: seq<LeaseOp>, j: nat)
    returns (k: nat)
    requires History(network, leased, ops) && j < |ops| && ops[j].Draw? && ops[j].a in leased
    ensures k < j && ops[k] == Release(ops[j].a)
    decreases |ops|
  {
    if ops[0] == Release(ops[j].a) {
      k := 0;
    } else {
      var k' := LeasedUntilReleased(network, OpEffect(leased, ops[0]), ops[1..], j - 1);
      k := k' + 1;
    }
  }

  function Releases(ops: seq<LeaseOp>): nat
    decreases |ops|
  {
    if ops == [] then 0 else (if ops[0].Release? then 1 else 0) + Releases(ops[1..])
  }

  /** Over any history the leases stay inside the network and number the addresses taken less those given back. */
  lemma {:induction false} LeasesConserved(network: set<Address>, leased: set<Address>, ops: seq<LeaseOp>)
    requires leased <= network && History(network, leased, ops)
    ensures LeasedAfter(leased, ops) <= network
    ensures |LeasedAfter(leased, ops)| == |leased| + |ops| - 2 * Releases(ops)
    decreases |ops|
  {
    if ops == [] {
    } else {
      LeasesConserved(network, OpEffect(leased, ops[0]), ops[1..]);
    }
  }
}
