/**
 * Which address each type name is bound to: the name and address indexes over mutable synapses, the
 * transmitters that alias those synapses, and the leases behind the addresses.
 */
module AddressBook {
  import opened Wrappers
  import opened Ballots
  import opened IpLease
  import opened Acquisition

  type Name = string

  datatype BookError =
    | LeaseFailed(error: LeaseError)
    | SynapseExists
    | SynapseDoesNotExist
    | IpAddressIsNotMulticast

  /** IPv4 multicast addresses, as numbers. */
  predicate IsMulticast(a: Address) {
    0xE000_0000 <= a <= 0xEFFF_FFFF
  }

  /** They are the addresses whose four leading bits are 1110. */
  lemma MulticastByLeadingBits(a: Address)
    ensures IsMulticast(a) <==> a < 0x1_0000_0000 && a / 0x1000_0000 == 0xE
  {
  }

  const RESERVED_COUNT := 32

  // ----- The book as a value

  datatype Book = Book(network: set<Address>, leased: set<Address>, bindings: map<Name, Address>)

  /** No two names share an address, and every bound address is leased. */
  ghost predicate BookOk(b: Book) {
    && b.leased <= b.network
    && (forall m, n :: m in b.bindings && n in b.bindings && b.bindings[m] == b.bindings[n] ==> m == n)
    && (forall n :: n in b.bindings ==> b.bindings[n] in b.leased)
  }

  /** A leased address may be used again as long as no synapse has it. */
  function TryLease(b: Book, a: Address): Result<Book, BookError> {
    if a !in b.network then Err(LeaseFailed(IpNotFound))
    else if a in b.leased then
      if a in b.bindings.Values then Err(LeaseFailed(IpLeaseExists)) else Ok(b)
    else Ok(b.(leased := b.leased + {a}))
  }

  function Create(b: Book, name: Name, a: Address): (Book, Option<BookError>) {
    if name in b.bindings then (b, Some(SynapseExists))
    else
      match TryLease(b, a)
      case Err(e) => (b, Some(e))
      case Ok(b') =>
        if !IsMulticast(a) then (b', Some(IpAddressIsNotMulticast))
        else (b'.(bindings := b'.bindings[name := a]), None)
  }

  function Update(b: Book, name: Name, a: Address): (Book, Option<BookError>) {
    if name !in b.bindings then (b, Some(SynapseDoesNotExist))
    else if b.bindings[name] == a then (b, None)
    else
      match TryLease(b, a)
      case Err(e) => (b, Some(e))
      case Ok(b') =>
        if !IsMulticast(a) then (b', Some(IpAddressIsNotMulticast))
        else (b'.(bindings := b'.bindings[name := a], leased := b'.leased - {b.bindings[name]}), None)
  }

  function CreateOrUpdate(b: Book, name: Name, a: Address): (Book, Option<BookError>) {
    if name in b.bindings then Update(b, name, a) else Create(b, name, a)
  }

  // ----- The book over sequences of operations

  /** `Draw` stands for the address get_address happened to pop. */
  datatype BookOp = CreateOp(name: Name, a: Address) | UpdateOp(name: Name, a: Address) | CommitOp(name: Name,
                             a: Address) | DrawOp(a: Address)

  function Apply(b: Book, op: BookOp): (Book, Option<BookError>) {
    match op
    case CreateOp(name, a) => Create(b, name, a)
    case UpdateOp(name, a) => Update(b, name, a)
    case CommitOp(name, a) => CreateOrUpdate(b, name, a)
    case DrawOp(a) => (if a in b.network - b.leased then b.(leased := b.leased + {a}) else b, None)
  }

  function ApplyAll(b: Book, ops: seq<BookOp>): Book
    decreases |ops|
  {
    if ops == [] then b else ApplyAll(Apply(b, ops[0]).0, ops[1..])
  }

  /** The operation moves the name bound to `a` elsewhere, which releases `a`. */
  predicate Releases(b: Book, op: BookOp, a: Address) {
    && (op.UpdateOp? || op.CommitOp?)
    && op.name in b.bindings && b.bindings[op.name] == a && op.a != a
    && Update(b, op.name, op.a).1 == None
  }

  predicate NeverReleased(b: Book, ops: seq<BookOp>, a: Address)
    decreases |ops|
  {
    ops != [] ==> !Releases(b, ops[0], a) && NeverReleased(Apply(b, ops[0]).0, ops[1..], a)
  }

  /** What is kept from `b` to `b'` when the lease on `released`, if any, is given up. */
  ghost predicate Follows(b: Book, b': Book, refused: bool, released: set<Address>) {
    && BookOk(b') && b'.network == b.network
    && (refused ==> b'.bindings == b.bindings)
    && b.bindings.Keys <= b'.bindings.Keys
    && b.leased - released <= b'.leased
  }

  /** An address that could be leased has no synapse. */
  lemma LeasedIsUnbound(b: Book, a: Address)
    requires BookOk(b) && TryLease(b, a).Ok?
    ensures forall n :: n in b.bindings ==> b.bindings[n] != a
  {
  }

  lemma CreateKeeps(b: Book, name: Name, a: Address)
    requires BookOk(b)
    ensures var (b', error) := Create(b, name, a); Follows(b, b', error.Some?, {})
  {
  }

  lemma UpdateKeeps(b: Book, name: Name, a: Address)
    requires BookOk(b)
    ensures var (b', error) := Update(b, name, a);
            var moved := error == None && name in b.bindings && b.bindings[name] != a;
            Follows(b, b', error.Some?, if moved then {b.bindings[name]} else {})
  {
    if TryLease(b, a).Ok? {
      LeasedIsUnbound(b, a);
    }
  }

  /** One operation keeps the book sound; a refused one binds and unbinds nothing. */
  lemma ApplyKeeps(b: Book, op: BookOp)
    requires BookOk(b)
    ensures BookOk(Apply(b, op).0) && Apply(b, op).0.network == b.network
    ensures Apply(b, op).1.Some? ==> Apply(b, op).0.bindings == b.bindings
    ensures b.bindings.Keys <= Apply(b, op).0.bindings.Keys
    ensures forall a :: a in b.leased && !Releases(b, op, a) ==> a in Apply(b, op).0.leased
  {
    if !op.DrawOp? {
      CreateKeeps(b, op.name, op.a);
      UpdateKeeps(b, op.name, op.a);
    }
  }

  /**
   * Dedicated addresses: after any sequence of operations no two names share an address and every bound
   * address is leased; no name is ever unbound; an address once leased, reserved ones included, stays
   * leased until an update moves the name bound to it, so until then it is never drawn again.
   */
  lemma {:induction false} DedicatedAddresses(b: Book, ops: seq<BookOp>, a: Address)
    requires BookOk(b)
    ensures BookOk(ApplyAll(b, ops)) && ApplyAll(b, ops).network == b.network
    ensures b.bindings.Keys <= ApplyAll(b, ops).bindings.Keys
    ensures a in b.leased && NeverReleased(b, ops, a) ==> a in ApplyAll(b, ops).leased
    decreases |ops|
  {
    if ops != [] {
      ApplyKeeps(b, ops[0]);
      DedicatedAddresses(Apply(b, ops[0]).0, ops[1..], a);
    }
  }

  // ----- When operations succeed, and what they come to

  predicate Holds(b: Book, a: Address) {
    exists n :: n in b.bindings && b.bindings[n] == a
  }

  /** An address of the network that is multicast and that no name is bound to, be it leased or not. */
  predicate Usable(b: Book, a: Address) {
    a in b.network && IsMulticast(a) && !Holds(b, a)
  }

  /** Why an address that is not usable is refused; one that is only not multicast is leased all the same. */
  ghost predicate RefusedFor(b: Book, b': Book, a: Address, error: BookError) {
    && b'.network == b.network && b'.bindings == b.bindings
    && (error == LeaseFailed(IpNotFound) <==> a !in b.network)
    && (error == LeaseFailed(IpLeaseExists) <==> Holds(b, a))
    && (error == IpAddressIsNotMulticast <==> a in b.network && !Holds(b, a) && !IsMulticast(a))
    && b'.leased == if error == IpAddressIsNotMulticast then b.leased + {a} else b.leased
  }

  /** A name gets a synapse if and only if it has none and the address is usable; that binds it and nothing else. */
  lemma CreateIff(b: Book, name: Name, a: Address)
    requires BookOk(b)
    ensures var (b', error) := Create(b, name, a);
            && Apply(b, CreateOp(name, a)) == (b', error)
            && if name in b.bindings then error == Some(SynapseExists) && b' == b
               else if Usable(b, a) then
                 error == None && b' == Book(b.network, b.leased + {a}, b.bindings[name := a])
               else error.Some? && RefusedFor(b, b', a, error.value)
  {
    assert a in b.bindings.Values <==> Holds(b, a);
  }

  /**
   * A name's synapse moves to another address if and only if that is usable: the name is bound to it instead,
   * and exactly the address it had is given up.
   */
  lemma UpdateIff(b: Book, name: Name, a: Address)
    requires BookOk(b)
    ensures var (b', error) := Update(b, name, a);
            && Apply(b, UpdateOp(name, a)) == (b', error)
            && if name !in b.bindings then error == Some(SynapseDoesNotExist) && b' == b
               else if b.bindings[name] == a then error == None && b' == b
               else if Usable(b, a) then
                 && error == None && b'.network == b.network && b'.bindings == b.bindings[name := a]
                 && b'.leased == b.leased + {a} - {b.bindings[name]}
               else error.Some? && RefusedFor(b, b', a, error.value)
  {
    assert a in b.bindings.Values <==> Holds(b, a);
  }

  /** A commit goes through if and only if the name is bound to the address already or that is usable. */
  lemma CommitIff(b: Book, name: Name, a: Address)
    requires BookOk(b)
    ensures var (b', error) := Apply(b, CommitOp(name, a));
            && (error == None <==> Usable(b, a) || (name in b.bindings && b.bindings[name] == a))
            && (error == None ==> b'.bindings == b.bindings[name := a] && a in b'.leased)
            && (error.Some? ==> b'.bindings == b.bindings)
  {
    CreateIff(b, name, a);
    UpdateIff(b, name, a);
    assert name in b.bindings && b.bindings[name] == a ==> b.bindings[name := a] == b.bindings;
  }

  /**
   * An address drawn can be bound to any name without a synapse, whatever happened since, as long as it is
   * multicast and nobody was bound to it.
   */
  lemma DrawnCanBeBound(b: Book, a: Address, ops: seq<BookOp>, name: Name)
    requires BookOk(b) && a in b.network - b.leased && IsMulticast(a)
    requires var b' := ApplyAll(Apply(b, DrawOp(a)).0, ops); name !in b'.bindings && !Holds(b', a)
    ensures a in Apply(b, DrawOp(a)).0.leased
    ensures var b' := ApplyAll(Apply(b, DrawOp(a)).0, ops);
            Apply(b', CreateOp(name, a)) == (Book(b.network, b'.leased + {a}, b'.bindings[name := a]), None)
  {
    ApplyKeeps(b, DrawOp(a));
    DedicatedAddresses(Apply(b, DrawOp(a)).0, ops, a);
    CreateIff(ApplyAll(Apply(b, DrawOp(a)).0, ops), name, a);
  }

  // ----- The objects

  class Synapse {
    const topic: Name
    var multicastAddress: Address

    constructor (topic: Name, a: Address)
      requires IsMulticast(a)
      ensures this.topic == topic && multicastAddress == a
    {
      this.topic := topic;
      multicastAddress := a;
    }

    /** Reopens the sockets on another address; refuses one that is not multicast. */
    method Reopen(a: Address) returns (ok: bool)
      modifies this
      ensures ok == IsMulticast(a)
      ensures multicastAddress == if ok then a else old(multicastAddress)
    {
      ok := IsMulticast(a);
      if ok {
        multicastAddress := a;
      }
    }
  }

  /** Leases distinct addresses one after the other. */
  method LeaseAll(leases: IpLeaseManager, addresses: seq<Address>)
    requires leases.Valid() && leases.Leased() == {}
    requires forall i, j :: 0 <= i < j < |addresses| ==> addresses[i] != addresses[j]
    requires forall a :: a in addresses ==> a in leases.Network()
    modifies leases
    ensures leases.Valid() && leases.Network() == old(leases.Network())
    ensures leases.Leased() == set a | a in addresses
  {
    for i := 0 to |addresses|
      invariant leases.Valid() && leases.Network() == old(leases.Network())
      invariant leases.Leased() == set a | a in addresses[..i]
    {
      var r := leases.LeaseAddress(addresses[i]);
      assert addresses[..i + 1] == addresses[..i] + [addresses[i]];
    }
    assert addresses[..|addresses|] == addresses;
  }

  class GanglionAddresses {
    const leases: IpLeaseManager
    const reserved: seq<Address>
    var synapses: map<Name, Synapse>
    var synapsesByAddress: map<Address, Synapse>
    var transmitters: map<Name, Synapse>
    var externalTransmitters: map<Name, Synapse>
    ghost var registered: set<Synapse>

    ghost function Bindings(): map<Name, Address>
      reads this`synapses, this`registered, registered
      requires InFootprint()
    {
      map n | n in synapses :: synapses[n].multicastAddress
    }

    ghost predicate InFootprint()
      reads this`synapses, this`registered
    {
      forall n :: n in synapses ==> synapses[n] in registered
    }

    ghost function State(): Book
      reads this`synapses, this`registered, leases, registered
      requires InFootprint()
    {
      Book(leases.Network(), leases.Leased(), Bindings())
    }

    /** The two indexes are inverse to each other, and a synapse is registered under its own topic only. */
    ghost predicate Indexed()
      reads this`synapses, this`synapsesByAddress, this`registered, registered
    {
      && InFootprint()
      && (forall n :: n in synapses ==>
            && synapses[n].topic == n
            && synapses[n].multicastAddress in synapsesByAddress
            && synapsesByAddress[synapses[n].multicastAddress] == synapses[n])
      && (forall a :: a in synapsesByAddress ==>
            && synapsesByAddress[a].topic in synapses
            && synapses[synapsesByAddress[a].topic] == synapsesByAddress[a]
            && synapsesByAddress[a].multicastAddress == a)
    }

    /** The indexes are sound and every bound address is leased. */
    ghost predicate Bound()
      reads this`synapses, this`synapsesByAddress, this`registered, registered, leases
    {
      leases.Valid() && Indexed() && synapsesByAddress.Keys <= leases.Leased()
    }

    ghost predicate Valid()
      reads this, leases, registered
    {
      Bound() && CachesOk(transmitters) && CachesOk(externalTransmitters)
    }

    /** Every cached transmitter sends through the synapse now registered under its name. */
    ghost predicate CachesOk(cache: map<Name, Synapse>)
      reads this`synapses
    {
      forall n :: n in cache ==> n in synapses && cache[n] == synapses[n]
    }

    /** The first addresses of the network, in its order, are leased for the ganglion's own messages. */
    constructor (cidr: seq<Address>)
      requires forall i, j :: 0 <= i < j < |cidr| ==> cidr[i] != cidr[j]
      ensures Valid() && fresh(leases)
      ensures reserved <= cidr && |reserved| == if |cidr| < 32 then |cidr| else 32
      ensures State() == Book(set a | a in cidr, set a | a in reserved, map[])
      ensures synapses == map[] && transmitters == map[] && externalTransmitters == map[]
    {
      var manager := new IpLeaseManager(set a | a in cidr);
      leases := manager;
      reserved := if |cidr| < RESERVED_COUNT then cidr else cidr[..RESERVED_COUNT];
      synapses, synapsesByAddress, transmitters, externalTransmitters := map[], map[], map[], map[];
      registered := {};
      new;
      LeaseAll(leases, reserved);
    }

    /** No two names share an address, and the addresses indexed are exactly those bound. */
    lemma IndexesInverse()
      requires Indexed()
      ensures forall m, n :: m in Bindings() && n in Bindings() && Bindings()[m] == Bindings()[n] ==> m == n
      ensures Bindings().Values == synapsesByAddress.Keys
    {
      forall a | a in synapsesByAddress.Keys ensures a in Bindings().Values {
        assert Bindings()[synapsesByAddress[a].topic] == a;
      }
    }

    lemma StateOk()
      requires Bound()
      ensures BookOk(State())
      ensures State().bindings.Values == synapsesByAddress.Keys
    {
      IndexesInverse();
    }

    lemma UsableHere(a: Address)
      requires Bound() && a in leases.Network() && IsMulticast(a) && a !in synapsesByAddress
      ensures Usable(State(), a)
    {
      IndexesInverse();
    }

    /** Enters a new synapse in both indexes. */
    method Register(name: Name, synapse: Synapse)
      requires Bound() && synapse.multicastAddress in leases.Leased() && name !in synapses && synapse.topic == name
      requires synapse.multicastAddress !in synapsesByAddress
      modifies this`synapses, this`synapsesByAddress, this`registered
      ensures Bound()
      ensures synapses == old(synapses)[name := synapse] && registered == old(registered) + {synapse}
      ensures Bindings() == old(Bindings())[name := synapse.multicastAddress]
      ensures synapsesByAddress.Keys == old(synapsesByAddress.Keys) + {synapse.multicastAddress}
    {
      synapses := synapses[name := synapse];
      synapsesByAddress := synapsesByAddress[synapse.multicastAddress := synapse];
      registered := registered + {synapse};
    }

    /** Moves a registered synapse to an unused address, unless that address is not multicast. */
    method Rebind(name: Name, a: Address) returns (ok: bool)
      requires Indexed() && name in synapses && a !in synapsesByAddress
      modifies this`synapsesByAddress, synapses[name]
      ensures Indexed()
      ensures ok == IsMulticast(a)
      ensures Bindings() == if ok then old(Bindings())[name := a] else old(Bindings())
      ensures synapsesByAddress.Keys
              == if ok then old(synapsesByAddress.Keys) + {a} - {old(Bindings())[name]} else old(synapsesByAddress.Keys)
    {
      var synapse := synapses[name];
      var current := synapse.multicastAddress;
      ok := synapse.Reopen(a);
      if !ok {
        return;
      }
      synapsesByAddress := synapsesByAddress[a := synapse];
      synapsesByAddress := synapsesByAddress - {current};
    }

    method TryLeaseAddress(a: Address) returns (error: Option<BookError>)
      requires Bound()
      modifies leases
      ensures Bound()
      ensures match TryLease(old(State()), a)
              case Ok(b) => error == None && State() == b
              case Err(e) => error == Some(e) && State() == old(State())
      ensures error == None <==> a in leases.Network() && (a in old(leases.Leased()) ==> a !in synapsesByAddress)
      ensures error == None ==> leases.Leased() == old(leases.Leased()) + {a}
    {
      StateOk();
      var r := leases.LeaseAddress(a);
      match r
      case Ok(_) => error := None;
      case Err(IpLeaseExists) =>
        if a in synapsesByAddress {
          error := Some(LeaseFailed(IpLeaseExists));
        } else {
          error := None;
        }
      case Err(e) => error := Some(LeaseFailed(e));
    }

    /** The rest of creating a synapse once its address is leased. */
    method OpenSynapse(name: Name, a: Address) returns (r: Result<Synapse, BookError>)
      requires Bound() && name !in synapses && a in leases.Leased() && a !in synapsesByAddress
      modifies this`synapses, this`synapsesByAddress, this`registered
      ensures Bound()
      ensures !IsMulticast(a) ==>
                  r == Err(IpAddressIsNotMulticast) && synapses == old(synapses) && Bindings() == old(Bindings())
      ensures IsMulticast(a) ==>
                && r.Ok? && fresh(r.value) && synapses == old(synapses)[name := r.value]
                && Bindings() == old(Bindings())[name := a]
    {
      if !IsMulticast(a) {
        return Err(IpAddressIsNotMulticast);
      }
      var synapse := new Synapse(name, a);
      Register(name, synapse);
      r := Ok(synapse);
    }

    method CreateSynapseWithAddress(name: Name, a: Address) returns (r: Result<Synapse, BookError>)
      requires Valid()
      modifies this`synapses, this`synapsesByAddress, this`registered, leases
      ensures Valid()
      ensures State() == Create(old(State()), name, a).0
      ensures Create(old(State()), name, a).1 == if r.Ok? then None else Some(r.error)
      ensures if r.Ok? then fresh(r.value) && synapses == old(synapses)[name := r.value] else synapses == old(synapses)
    {
      StateOk();
      if name in synapses {
        return Err(SynapseExists);
      }
      var error := TryLeaseAddress(a);
      if error.Some? {
        return Err(error.value);
      }
      r := OpenSynapse(name, a);
    }

    /** Gives up the lease on an address no synapse has any more. */
    method ReleaseUnbound(a: Address)
      requires Bound() && a in leases.Leased() && a !in synapsesByAddress
      modifies leases
      ensures Bound() && leases.Network() == old(leases.Network()) && leases.Leased() == old(leases.Leased()) - {a}
      ensures Bindings() == old(Bindings())
    {
      var released := leases.ReleaseAddress(a);
    }

    /** The rest of updating a synapse once its new address is leased. */
    method MoveSynapse(name: Name, a: Address) returns (r: Result<Synapse, BookError>)
      requires Bound() && name in synapses && a in leases.Leased() && a !in synapsesByAddress
      modifies this`synapsesByAddress, leases, synapses[name]
      ensures Bound()
      ensures r == if IsMulticast(a) then Ok(synapses[name]) else Err(IpAddressIsNotMulticast)
      ensures Bindings() == if IsMulticast(a) then old(Bindings())[name := a] else old(Bindings())
      ensures leases.Network() == old(leases.Network())
      ensures leases.Leased()
              == if IsMulticast(a) then old(leases.Leased()) - {old(Bindings())[name]} else old(leases.Leased())
    {
      var current := synapses[name].multicastAddress;
      var ok := Rebind(name, a);
      if !ok {
        return Err(IpAddressIsNotMulticast);
      }
      ReleaseUnbound(current);
      r := Ok(synapses[name]);
    }

    method UpdateSynapseWithAddress(name: Name, a: Address) returns (r: Result<Synapse, BookError>)
      requires Valid()
      modifies this`synapsesByAddress, leases, registered
      ensures Valid()
      ensures State() == Update(old(State()), name, a).0
      ensures Update(old(State()), name, a).1 == if r.Ok? then None else Some(r.error)
      ensures r.Ok? ==> name in synapses && r.value == synapses[name]
    {
      StateOk();
      if name !in synapses {
        return Err(SynapseDoesNotExist);
      }
      if synapses[name].multicastAddress == a {
        return Ok(synapses[name]);
      }
      var error := TryLeaseAddress(a);
      if error.Some? {
        return Err(error.value);
      }
      r := MoveSynapse(name, a);
    }

    method CreateOrUpdateSynapseWithAddress(name: Name, a: Address) returns (r: Result<Synapse, BookError>)
      requires Valid()
      modifies this`synapses, this`synapsesByAddress, this`registered, leases, registered
      ensures Valid()
      ensures State() == CreateOrUpdate(old(State()), name, a).0
      ensures CreateOrUpdate(old(State()), name, a).1 == if r.Ok? then None else Some(r.error)
    {
      if name in synapses {
        r := UpdateSynapseWithAddress(name, a);
      } else {
        r := CreateSynapseWithAddress(name, a);
      }
    }

    /**
     * Looks the synapse up, creating it on a miss. `acquired` is None for a hit; after a miss it is what
     * acquire_address_for_type came to, during which other tasks may have registered the name. An error
     * that says so is dropped in favour of the registered synapse, whoever raised it.
     */
    method GetSynapse(name: Name, acquired: Option<Result<Address, BookError>>) returns (r: Result<Synapse, BookError>)
      requires Valid()
      requires acquired == None || acquired == Some(Err(SynapseExists)) ==> name in synapses
      modifies this`synapses, this`synapsesByAddress, this`registered, leases
      ensures Valid()
      ensures acquired.Some? && acquired.value.Err? && acquired.value.error != SynapseExists ==>
                r == Err(acquired.value.error) && State() == old(State()) && synapses == old(synapses)
      ensures (&& name in old(synapses)
               && (r.Ok? || acquired == None || acquired.value.Ok? || acquired.value.error == SynapseExists)) ==>
                r == Ok(old(synapses)[name]) && synapses == old(synapses) && State() == old(State())
      ensures name !in old(synapses) && acquired.value.Ok? ==>
                && State() == Create(old(State()), name, acquired.value.value).0
                && Create(old(State()), name, acquired.value.value).1 == if r.Ok? then None else Some(r.error)
      ensures r.Ok? ==> name in synapses && synapses[name] == r.value
    {
      if acquired.Some? {
        match acquired.value
        case Err(SynapseExists) =>
        case Err(e) => return Err(e);
        case Ok(a) =>
          r := CreateSynapseWithAddress(name, a);
          if r != Err(SynapseExists) {
            return;
          }
      }
      r := Ok(synapses[name]);
    }

    method CreateTransmitter(name: Name, synapse: Synapse)
      modifies this`transmitters
      ensures transmitters
              == if name in old(transmitters) then old(transmitters) else old(transmitters)[name := synapse]
    {
      if name !in transmitters {
        transmitters := transmitters[name := synapse];
      }
    }

    method CreateExternalTransmitter(name: Name, synapse: Synapse)
      modifies this`externalTransmitters
      ensures externalTransmitters ==
              if name in old(externalTransmitters) then old(externalTransmitters)
              else old(externalTransmitters)[name := synapse]
    {
      if name !in externalTransmitters {
        externalTransmitters := externalTransmitters[name := synapse];
      }
    }

    method FillCaches(name: Name, synapse: Synapse)
      requires Valid() && name in synapses && synapse == synapses[name]
      modifies this`transmitters, this`externalTransmitters
      ensures Valid()
      ensures transmitters == old(transmitters)[name := synapse]
      ensures externalTransmitters == old(externalTransmitters)[name := synapse]
    {
      CreateTransmitter(name, synapse);
      CreateExternalTransmitter(name, synapse);
    }

    /** Fills both transmitter caches for a neuron; what was cached stays, and is still right. */
    method UpdateTransmitter(name: Name, acquired: Option<Result<Address, BookError>>)
      returns (r: Result<Synapse, BookError>)
      requires Valid()
      requires acquired == None || acquired == Some(Err(SynapseExists)) ==> name in synapses
      modifies this`synapses, this`synapsesByAddress, this`registered, this`transmitters, this`externalTransmitters
      modifies leases
      ensures Valid()
      ensures acquired.Some? && acquired.value.Err? && acquired.value.error != SynapseExists ==>
                r == Err(acquired.value.error)
      ensures (&& name in old(synapses)
               && (acquired == None || acquired.value.Ok? || acquired.value.error == SynapseExists)) ==>
                r == Ok(old(synapses)[name]) && State() == old(State())
      ensures name !in old(synapses) && acquired.value.Ok? ==>
                && State() == Create(old(State()), name, acquired.value.value).0
                && Create(old(State()), name, acquired.value.value).1 == if r.Ok? then None else Some(r.error)
      ensures if r.Err? then transmitters == old(transmitters) && externalTransmitters == old(externalTransmitters)
              else && name in synapses && r.value == synapses[name]
                   && transmitters == old(transmitters)[name := r.value]
                   && externalTransmitters == old(externalTransmitters)[name := r.value]
    {
      r := GetSynapse(name, acquired);
      if r.Ok? {
        FillCaches(name, r.value);
      }
    }

    /** A cached transmitter reaches the synapse registered under its name, at that synapse's address. */
    lemma TransmittersRight(name: Name)
      requires Valid()
      ensures name in transmitters ==>
                && name in State().bindings
                && State().bindings[name] in synapsesByAddress
                && synapsesByAddress[State().bindings[name]] == transmitters[name]
      ensures name in externalTransmitters ==>
                && name in State().bindings
                && State().bindings[name] in synapsesByAddress
                && synapsesByAddress[State().bindings[name]] == externalTransmitters[name]
    {
    }

    /** Acquires an address for a type without a synapse; a type that has one is refused. */
    method AcquireAddressForType(name: Name, attempts: seq<Attempt>) returns (outcome: Acquired, address: Address)
      requires Valid()
      modifies leases
      ensures Valid() && leases.Network() == old(leases.Network()) && Bindings() == old(Bindings())
      ensures name in synapses ==> outcome == AlreadyExists && leases.Leased() == old(leases.Leased())
      ensures name !in synapses ==>
                LoopResult(attempts, |old(leases.Free())|, outcome, address, |leases.Free()|)
      ensures outcome == Got(true) ==> address in leases.Leased() && address !in synapsesByAddress
    {
      address := 0;
      if name in synapses {
        return AlreadyExists, address;
      }
      outcome, address := AcquireLoop(leases, attempts);
    }

    /** Creates the synapse of a name without one at an address, if that is usable. */
    method BindAcquired(name: Name, a: Address) returns (error: Option<BookError>)
      requires Valid() && name !in synapses
      modifies this`synapses, this`synapsesByAddress, this`registered, leases
      ensures Valid()
      ensures error == None <==> Usable(old(State()), a)
      ensures a in old(leases.Leased()) && IsMulticast(a) && a !in old(synapsesByAddress) ==> error == None
      ensures Bindings() == if error == None then old(Bindings())[name := a] else old(Bindings())
    {
      StateOk();
      CreateIff(State(), name, a);
      if a in leases.Leased() && IsMulticast(a) && a !in synapsesByAddress {
        UsableHere(a);
      }
      var r := CreateSynapseWithAddress(name, a);
      error := if r.Ok? then None else Some(r.error);
    }

    /** Acquires an address for the name and creates its synapse there; an error of the latter is passed on. */
    method CreateSynapseByName(name: Name, attempts: seq<Attempt>)
      returns (outcome: Acquired, address: Address, error: Option<BookError>)
      requires Valid()
      modifies this`synapses, this`synapsesByAddress, this`registered, leases
      ensures Valid()
      ensures name in old(synapses) ==> outcome == AlreadyExists
      ensures outcome == Got(true) && IsMulticast(address) ==> error == None
      ensures outcome == Got(false) ==> (error == None <==> Usable(old(State()), address))
      ensures Bindings()
              == if outcome.Got? && error == None then old(Bindings())[name := address] else old(Bindings())
    {
      outcome, address := AcquireAddressForType(name, attempts);
      error := None;
      if outcome.Got? {
        error := BindAcquired(name, address);
      }
    }
  }
}
