/**
 * The chain of responsibility with rollback: a package goes through a
 * warehouse (which packs the order's items and sticks on the address), a
 * post office (which charges the fee) and a mailman (who delivers it).
 * Each handler passes the package on to the next one; when delivery fails
 * because the house does not exist, the post office refunds the fee and
 * rethrows, and the warehouse unpacks the package, removes the label and
 * swallows the error.
 *
 * The chain is a sequence of handlers, each one's `Next` being the rest.
 * The warehouse's overridable `GetAddress` is the address it carries, and
 * the post office's fee calculation is a parameter of the chain.
 */
module PackageHandler {
  import opened Outcomes

  datatype Item = Item(name: string, price: real, weight: real)

  datatype Address = Address(street: string, city: string, houseNumber: string, isRealHouse: bool)

  /** The fields of a package that the chain reads and writes. */
  datatype PackageState = PackageState(items: seq<Item>, address: Option<Address>, postFees: real, isDelivered: bool)

  /** A new package: nothing packed, no label, no fee, not delivered. */
  const NewPackage := PackageState([], None, 0.0, false)

  /** `GetOrderItems`: every order is the same two items. */
  const OrderItems := [Item("Electric Toothbrush", 29.99, 0.05), Item("Roomba", 999.99, 4.0)]

  /** `GetAddress` of the warehouse as written. */
  const Evergreen := Address("Evergreen Terrace", "Springfield", "742", true)

  const HouseDoesNotExist := InvalidAddress("The house does not exist!")

  /** The warehouse's console line for a swallowed error. */
  function ErrorLine(e: Exception): string
    requires e.InvalidAddress?
  {
    "Error delivering package: " + e.message
  }

  datatype Handler =
    | Warehouse(address: Address)
    | PostOffice
    | Mailman

  /** A handler's effect: the new package state, how it ended, and the error lines printed. */
  datatype Step = Step(state: PackageState, outcome: Outcome, errors: seq<string>)

  /**
   * `Package.Deliver`: a missing label is a null dereference, a fake house
   * throws without delivering, and a real house is delivered.
   */
  function Delivery(s: PackageState): (r: Step)
    ensures r.state == (if r.outcome.Completed? then s.(isDelivered := true) else s)
    ensures r.outcome.Completed? <==> s.address.Some? && s.address.value.isRealHouse
    ensures r.outcome == Threw(HouseDoesNotExist) <==> s.address.Some? && !s.address.value.isRealHouse
    ensures r.errors == []
  {
    if s.address.None? then Step(s, Threw(NullReference), [])
    else if !s.address.value.isRealHouse then Step(s, Threw(HouseDoesNotExist), [])
    else Step(s.(isDelivered := true), Completed, [])
  }

  /** The effect of handing a package in state `s` to the first handler of `chain`. */
  function Run(s: PackageState, chain: seq<Handler>, calcFee: seq<Item> -> real): Step
    decreases |chain|
  {
    if chain == [] then Step(s, Completed, [])
    else
      match chain[0]
      case Warehouse(address) =>
        var r := Run(s.(items := s.items + OrderItems, address := Some(address)), chain[1..], calcFee);
        if r.outcome.Threw? && r.outcome.exception.InvalidAddress? then
          Step(r.state.(items := [], address := None), Completed, r.errors + [ErrorLine(r.outcome.exception)])
        else r
      case PostOffice =>
        var r := Run(s.(postFees := calcFee(s.items)), chain[1..], calcFee);
        if r.outcome.Threw? && r.outcome.exception.InvalidAddress? then r.(state := r.state.(postFees := 0.0))
        else r
      case Mailman =>
        var d := Delivery(s);
        if d.outcome.Threw? then d else Run(d.state, chain[1..], calcFee)
  }

  predicate NoWarehouse(chain: seq<Handler>) {
    forall i :: 0 <= i < |chain| ==> !chain[i].Warehouse?
  }

  /**
   * Past the warehouse the label does not change, so delivery to a real
   * house never fails: the items and label stay, and the package is
   * delivered when a mailman is in the chain.
   */
  lemma {:induction false} RealHouseIsDelivered(s: PackageState, chain: seq<Handler>, calcFee: seq<Item> -> real)
    requires NoWarehouse(chain)
    requires s.address.Some? && s.address.value.isRealHouse
    ensures Run(s, chain, calcFee).outcome == Completed && Run(s, chain, calcFee).errors == []
    ensures Run(s, chain, calcFee).state.items == s.items && Run(s, chain, calcFee).state.address == s.address
    ensures Run(s, chain, calcFee).state.isDelivered == (s.isDelivered || Mailman in chain)
    decreases |chain|
  {
    if chain != [] {
      assert chain == [chain[0]] + chain[1..];
      match chain[0]
      case PostOffice =>
        RealHouseIsDelivered(s.(postFees := calcFee(s.items)), chain[1..], calcFee);
      case Mailman =>
        RealHouseIsDelivered(s.(isDelivered := true), chain[1..], calcFee);
    }
  }

  /**
   * Past the warehouse, a delivery that fails because the house does not
   * exist leaves the items, the label and the delivered flag as they were;
   * the fee is either untouched or refunded to 0.
   */
  lemma {:induction false} FailedDeliveryRollsBack(s: PackageState, chain: seq<Handler>, calcFee: seq<Item> -> real)
    requires NoWarehouse(chain)
    ensures var r := Run(s, chain, calcFee);
      r.outcome.Threw? && r.outcome.exception.InvalidAddress? ==>
        r.state.items == s.items && r.state.address == s.address && r.state.isDelivered == s.isDelivered
        && (r.state.postFees == s.postFees || r.state.postFees == 0.0)
    ensures Run(s, chain, calcFee).errors == []
    decreases |chain|
  {
    if chain != [] {
      assert NoWarehouse(chain[1..]);
      match chain[0]
      case PostOffice =>
        FailedDeliveryRollsBack(s.(postFees := calcFee(s.items)), chain[1..], calcFee);
      case Mailman =>
        if s.address.Some? && s.address.value.isRealHouse {
          RealHouseIsDelivered(s.(isDelivered := true), chain[1..], calcFee);
        }
    }
  }

  /** A fake house makes the first mailman throw, and the exception reaches the top of a warehouse-free chain. */
  lemma {:induction false} FakeHouseThrows(s: PackageState, chain: seq<Handler>, calcFee: seq<Item> -> real)
    requires NoWarehouse(chain) && Mailman in chain
    requires s.address.Some? && !s.address.value.isRealHouse
    ensures Run(s, chain, calcFee).outcome == Threw(HouseDoesNotExist)
    decreases |chain|
  {
    assert chain != [];
    match chain[0]
    case PostOffice =>
      assert NoWarehouse(chain[1..]) && Mailman in chain[1..];
      FakeHouseThrows(s.(postFees := calcFee(s.items)), chain[1..], calcFee);
    case Mailman =>
  }

  /**
   * A warehouse in front of a warehouse-free chain never lets the address
   * error out: a real house is delivered with the order packed, and a fake
   * one comes back unpacked, unlabelled and not delivered, with one error
   * line printed.
   */
  lemma WarehouseRollsBack(s: PackageState, address: Address, rest: seq<Handler>, calcFee: seq<Item> -> real)
    requires NoWarehouse(rest) && Mailman in rest
    ensures var r := Run(s, [Warehouse(address)] + rest, calcFee);
      r.outcome == Completed
      && (address.isRealHouse ==> r.state.items == s.items + OrderItems && r.state.isDelivered && r.errors == [])
      && (!address.isRealHouse ==>
            r.state.items == [] && r.state.address == None && r.state.isDelivered == s.isDelivered
            && r.errors == [ErrorLine(HouseDoesNotExist)])
  {
    var packed := s.(items := s.items + OrderItems, address := Some(address));
    assert ([Warehouse(address)] + rest)[1..] == rest;
    if address.isRealHouse {
      RealHouseIsDelivered(packed, rest, calcFee);
    } else {
      FakeHouseThrows(packed, rest, calcFee);
      FailedDeliveryRollsBack(packed, rest, calcFee);
    }
  }

  /**
   * The warehouse swallows the failure: the package comes back not
   * delivered, empty (even of items packed before), without a label, with
   * the fee refunded, and one error line is printed.
   */
  lemma StandardChainFakeHouse(s: PackageState, address: Address, calcFee: seq<Item> -> real)
    requires !address.isRealHouse && !s.isDelivered
    ensures var r := Run(s, [Warehouse(address), PostOffice, Mailman], calcFee);
      r.outcome == Completed && r.state == s.(items := [], address := None, postFees := 0.0)
      && r.errors == ["Error delivering package: " + "The house does not exist!"]
  {
    var packed := s.(items := s.items + OrderItems, address := Some(address));
    var charged := packed.(postFees := calcFee(packed.items));
    assert [Warehouse(address), PostOffice, Mailman][1..] == [PostOffice, Mailman];
    assert [PostOffice, Mailman][1..] == [Mailman];
    assert Run(charged, [Mailman], calcFee) == Step(charged, Threw(HouseDoesNotExist), []);
  }

  /** A real house: delivered, with the order's items and the fee charged on them. */
  lemma StandardChainRealHouse(address: Address, calcFee: seq<Item> -> real)
    requires address.isRealHouse
    ensures var r := Run(NewPackage, [Warehouse(address), PostOffice, Mailman], calcFee);
      r.outcome == Completed && r.errors == []
      && r.state == PackageState(OrderItems, Some(address), calcFee(OrderItems), true)
  {
    var packed := NewPackage.(items := OrderItems, address := Some(address));
    var charged := packed.(postFees := calcFee(OrderItems));
    assert NewPackage.items + OrderItems == OrderItems;
    assert [Warehouse(address), PostOffice, Mailman][1..] == [PostOffice, Mailman];
    assert [PostOffice, Mailman][1..] == [Mailman];
    assert [Mailman][1..] == [];
    assert Run(charged, [Mailman], calcFee) == Step(charged.(isDelivered := true), Completed, []);
  }

  class Package {
    var items: seq<Item>
    var address: Option<Address>
    var postFees: real
    var isDelivered: bool

    constructor()
      ensures State() == NewPackage
    {
      items := [];
      address := None;
      postFees := 0.0;
      isDelivered := false;
    }

    function State(): PackageState
      reads this
    {
      PackageState(items, address, postFees, isDelivered)
    }

    method Deliver() returns (outcome: Outcome)
      modifies this
      ensures State() == Delivery(old(State())).state && outcome == Delivery(old(State())).outcome
    {
      if address.None? {
        return Threw(NullReference);
      }
      if !address.value.isRealHouse {
        return Threw(HouseDoesNotExist);
      }
      isDelivered := true;
      outcome := Completed;
    }
  }

  /** `Handle` of the chain's first handler, each handler forwarding to the rest. */
  method Handle(package: Package, chain: seq<Handler>, calcFee: seq<Item> -> real) returns (outcome: Outcome, errors: seq<string>)
    modifies package
    decreases |chain|
    ensures package.State() == Run(old(package.State()), chain, calcFee).state
    ensures outcome == Run(old(package.State()), chain, calcFee).outcome
    ensures errors == Run(old(package.State()), chain, calcFee).errors
  {
    if chain == [] {
      return Completed, [];
    }
    match chain[0] {
      case Warehouse(address) =>
        package.items := package.items + OrderItems;
        package.address := Some(address);
        outcome, errors := Handle(package, chain[1..], calcFee);
        if outcome.Threw? && outcome.exception.InvalidAddress? {
          errors := errors + [ErrorLine(outcome.exception)];
          package.items := [];
          package.address := None;
          outcome := Completed;
        }
      case PostOffice =>
        package.postFees := calcFee(package.items);
        outcome, errors := Handle(package, chain[1..], calcFee);
        if outcome.Threw? && outcome.exception.InvalidAddress? {
          package.postFees := 0.0;
        }
      case Mailman =>
        outcome := package.Deliver();
        errors := [];
        if outcome.Completed? {
          outcome, errors := Handle(package, chain[1..], calcFee);
        }
    }
  }

  /**
   * The tests: with the warehouse's own address the package is delivered
   * with its items; with a warehouse returning a fake house it is neither
   * delivered nor holding items, and the error is printed.
   */
  method PackageScenario(calcFee: seq<Item> -> real)
    returns (realDelivered: bool, realItems: seq<Item>, fakeDelivered: bool, fakeItems: seq<Item>, fakeErrors: seq<string>)
    ensures realDelivered && realItems == OrderItems && realItems != []
    ensures !fakeDelivered && fakeItems == []
    ensures fakeErrors == ["Error delivering package: " + "The house does not exist!"]
  {
    var package := new Package();
    StandardChainRealHouse(Evergreen, calcFee);
    var _, _ := Handle(package, [Warehouse(Evergreen), PostOffice, Mailman], calcFee);
    realDelivered, realItems := package.isDelivered, package.items;

    var other := new Package();
    var fake := Address("Fictional Street", "Nowhere", "123", false);
    StandardChainFakeHouse(NewPackage, fake, calcFee);
    var _, errors := Handle(other, [Warehouse(fake), PostOffice, Mailman], calcFee);
    fakeDelivered, fakeItems, fakeErrors := other.isDelivered, other.items, errors;
  }
}
