/**
 * The value-proxy demo: a `StockQuantity` wraps an `int` and only holds a
 * positive multiple of 20; `Warehouse` keeps its stock as such quantities,
 * `PrimitiveWarehouse` as plain `int`s.  Stock sums use C#'s unchecked
 * 32-bit addition: the primitive warehouse wraps silently, while the
 * implicit conversion of a wrapped (hence negative) sum back to
 * `StockQuantity` throws in `Warehouse`.
 */
module Warehouse {
  import opened Outcomes
  import opened Int32

  datatype Item = Pasta | Rice

  /** The check of the `Value` setter. */
  predicate IsValidQuantity(value: int) {
    value > 0 && value % 20 == 0
  }

  datatype StockQuantity = StockQuantity(value: int)

  /**
   * The values a `StockQuantity` can hold: one the setter accepted, or the
   * 0 of `default(StockQuantity)`, which never goes through the setter.
   */
  predicate IsHeldQuantity(value: int) {
    value == 0 || IsValidQuantity(value)
  }

  /** `default(StockQuantity)`. */
  const DefaultQuantity := StockQuantity(0)

  const InvalidValue := Argument("Invalid value", None)

  /** The constructor and the implicit conversion from `int`: both run the setter's check. */
  function MakeStockQuantity(value: int): (r: Result<StockQuantity>)
    ensures r.Ok? <==> IsValidQuantity(value)
    ensures r.Ok? ==> r.value.value == value
    ensures r.Err? ==> r.exception == InvalidValue
  {
    if value <= 0 || value % 20 != 0 then Err(InvalidValue) else Ok(StockQuantity(value))
  }

  /** The total restocked for `item`, exactly. */
  function Total(restocks: seq<(Item, int)>, item: Item): int {
    if restocks == [] then 0
    else
      var last := restocks[|restocks| - 1];
      Total(restocks[..|restocks| - 1], item) + (if last.0 == item then last.1 else 0)
  }

  lemma TotalAppend(restocks: seq<(Item, int)>, r: (Item, int), item: Item)
    ensures Total(restocks + [r], item) == Total(restocks, item) + (if r.0 == item then r.1 else 0)
  {
    assert (restocks + [r])[..|restocks|] == restocks;
  }

  /** A sum of held quantities (positive multiples of 20, or 0) is 0 or a positive multiple of 20. */
  lemma {:induction false} TotalOfValidQuantities(restocks: seq<(Item, int)>, item: Item)
    requires forall i :: 0 <= i < |restocks| ==> IsHeldQuantity(restocks[i].1)
    ensures IsHeldQuantity(Total(restocks, item))
  {
    if restocks != [] {
      TotalOfValidQuantities(restocks[..|restocks| - 1], item);
    }
  }

  class PrimitiveWarehouse {
    var stock: map<Item, int>
    /** Every restock made, in order. */
    ghost var restocks: seq<(Item, int)>

    /** Each item's stock is the wrapped sum of its restocks. */
    ghost predicate Valid()
      reads this
    {
      forall item :: GetStock(item) == Wrap(Total(restocks, item))
    }

    constructor()
      ensures Valid() && stock == map[] && restocks == []
    {
      stock := map[];
      restocks := [];
    }

    /** The stock of an item, 0 when it was never restocked. */
    function GetStock(item: Item): int
      reads this
    {
      if item in stock then stock[item] else 0
    }

    /** Any `int` is accepted and added with wrap-around; no other item changes. */
    method Restock(item: Item, quantity: int)
      requires Valid() && InRange(quantity)
      modifies this
      ensures Valid() && restocks == old(restocks) + [(item, quantity)]
      ensures GetStock(item) == Wrap(old(GetStock(item)) + quantity)
      ensures forall other :: other != item ==> GetStock(other) == old(GetStock(other))
    {
      if item in stock {
        stock := stock[item := Wrap(stock[item] + quantity)];
      } else {
        stock := stock[item := quantity];
      }
      restocks := restocks + [(item, quantity)];
      assert GetStock(item) == Wrap(old(GetStock(item)) + quantity);
      forall i
        ensures GetStock(i) == Wrap(Total(restocks, i))
      {
        TotalAppend(old(restocks), (item, quantity), i);
        if i == item {
          WrapOfSum(Total(old(restocks), i), quantity);
        } else {
          assert GetStock(i) == old(GetStock(i));
        }
      }
    }
  }

  class Warehouse {
    var stock: map<Item, StockQuantity>
    /** Every restock that succeeded, in order. */
    ghost var restocks: seq<(Item, int)>

    /**
     * Every stored stock is a quantity a `StockQuantity` can hold, and each
     * item's stock is the exact sum of its successful restocks.
     */
    ghost predicate Valid()
      reads this
    {
      && (forall item :: item in stock ==> IsHeldQuantity(stock[item].value) && InRange(stock[item].value))
      && (forall i :: 0 <= i < |restocks| ==> IsHeldQuantity(restocks[i].1))
      && (forall item :: GetStock(item) == Total(restocks, item))
    }

    constructor()
      ensures Valid() && stock == map[] && restocks == []
    {
      stock := map[];
      restocks := [];
    }

    function GetStock(item: Item): int
      reads this
    {
      if item in stock then stock[item].value else 0
    }

    /**
     * Adds a quantity.  An item not stocked yet stores it as it is, even the
     * 0 of a default quantity.  Otherwise the sum goes back through the
     * setter, which rejects a sum of 0 (two default quantities) and a sum
     * past `int.MaxValue`, which wraps to a negative number: then nothing
     * changes.
     */
    method Restock(item: Item, quantity: StockQuantity) returns (outcome: Outcome)
      requires Valid() && IsHeldQuantity(quantity.value) && InRange(quantity.value)
      modifies this
      ensures Valid()
      ensures outcome.Completed? <==>
        item !in old(stock) || (InRange(old(GetStock(item)) + quantity.value) && old(GetStock(item)) + quantity.value != 0)
      ensures outcome.Completed? ==>
        item in stock && restocks == old(restocks) + [(item, quantity.value)]
        && GetStock(item) == old(GetStock(item)) + quantity.value
      ensures outcome.Threw? ==>
        outcome == Threw(InvalidValue) && stock == old(stock) && restocks == old(restocks)
      ensures forall other :: other != item ==> GetStock(other) == old(GetStock(other))
    {
      if item in stock {
        var sum := MakeStockQuantity(Wrap(stock[item].value + quantity.value));
        if sum.Err? {
          return Threw(sum.exception);
        }
        stock := stock[item := sum.value];
      } else {
        stock := stock[item := quantity];
      }
      restocks := restocks + [(item, quantity.value)];
      forall i
        ensures GetStock(i) == Total(restocks, i)
      {
        TotalAppend(old(restocks), (item, quantity.value), i);
      }
      outcome := Completed;
    }

    /** `Restock(item, amount)` with an `int`: the implicit conversion throws first on an invalid amount. */
    method RestockAmount(item: Item, amount: int) returns (outcome: Outcome)
      requires Valid() && InRange(amount)
      modifies this
      ensures Valid()
      ensures !IsValidQuantity(amount) ==> outcome == Threw(InvalidValue)
      ensures IsValidQuantity(amount) ==>
        (outcome.Completed? <==> item !in old(stock) || InRange(old(GetStock(item)) + amount))
      ensures outcome.Completed? ==>
        item in stock && restocks == old(restocks) + [(item, amount)] && GetStock(item) == old(GetStock(item)) + amount
      ensures outcome.Threw? ==>
        outcome == Threw(InvalidValue) && stock == old(stock) && restocks == old(restocks)
      ensures forall other :: other != item ==> GetStock(other) == old(GetStock(other))
    {
      var quantity := MakeStockQuantity(amount);
      if quantity.Err? {
        return Threw(quantity.exception);
      }
      outcome := Restock(item, quantity.value);
    }
  }

  /** Any stock the warehouse reports is 0 or a valid quantity. */
  lemma WarehouseStockIsValid(w: Warehouse, item: Item)
    requires w.Valid()
    ensures w.GetStock(item) == 0 || IsValidQuantity(w.GetStock(item))
  {
  }

  /**
   * A default quantity is stored as 0 for an item not stocked yet; a second
   * one for the same item sums to 0, which the setter rejects.
   */
  method DefaultQuantityScenario() returns (first: Outcome, second: Outcome, rice: int)
    ensures first == Completed && second == Threw(InvalidValue) && rice == 0
  {
    var warehouse := new Warehouse();
    first := warehouse.Restock(Rice, DefaultQuantity);
    second := warehouse.Restock(Rice, DefaultQuantity);
    rice := warehouse.GetStock(Rice);
  }

  /**
   * The primitive warehouse adds without a check: restocking `int.MaxValue`
   * and then 1 of the same item leaves a stock of `int.MinValue`.
   */
  method PrimitiveOverflowScenario() returns (pasta: int)
    ensures pasta == MinValue
  {
    var warehouse := new PrimitiveWarehouse();
    warehouse.Restock(Pasta, MaxValue);
    warehouse.Restock(Pasta, 1);
    pasta := warehouse.GetStock(Pasta);
  }

  /** The first test: the primitive warehouse accepts 10 of rice. */
  method PrimitiveScenario() returns (pasta: int, rice: int)
    ensures pasta == 20 && rice == 10
  {
    var warehouse := new PrimitiveWarehouse();
    warehouse.Restock(Pasta, 20);
    warehouse.Restock(Rice, 10);
    pasta := warehouse.GetStock(Pasta);
    rice := warehouse.GetStock(Rice);
  }

  /** The second test: restocking 10 of rice throws and leaves rice at 0. */
  method ValueProxyScenario() returns (outcome: Outcome, pasta: int, rice: int)
    ensures outcome == Threw(InvalidValue) && pasta == 20 && rice == 0
  {
    var warehouse := new Warehouse();
    var _ := warehouse.RestockAmount(Pasta, 20);
    outcome := warehouse.RestockAmount(Rice, 10);
    pasta := warehouse.GetStock(Pasta);
    rice := warehouse.GetStock(Rice);
  }
}
