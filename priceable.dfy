/**
 * The composite demo's price tree: an `Item` has a price (a C# `decimal`,
 * here an exact real) and a `Box` holds any sequence of items and boxes.
 * The tree is priced by the recursive `CalculatePrice` its test defines:
 * an item is its price, a box the sum over its contents.
 */
module Priceable {
  import opened Seqs

  datatype Priceable = Item(price: real) | Box(items: seq<Priceable>)

  /** The test's `CalculatePrice`: `item.Price`, or `box.Items.Sum(CalculatePrice)`. */
  function CalculatePrice(p: Priceable): real
    decreases p, 1
  {
    match p
    case Item(price) => price
    case Box(items) => ItemsPrice(items)
  }

  /** `items.Sum(CalculatePrice)`, summed left to right. */
  function ItemsPrice(items: seq<Priceable>): real
    decreases items, 0
  {
    if items == [] then 0.0 else CalculatePrice(items[0]) + ItemsPrice(items[1..])
  }

  /** Reference definition: the prices of all items in the tree, in order, however deeply they are boxed. */
  function Leaves(p: Priceable): seq<real>
    decreases p, 1
  {
    match p
    case Item(price) => [price]
    case Box(items) => LeavesAll(items)
  }

  function LeavesAll(items: seq<Priceable>): seq<real>
    decreases items, 0
  {
    if items == [] then [] else Leaves(items[0]) + LeavesAll(items[1..])
  }

  /** The price of a tree is the sum of the prices of all its items, regardless of nesting. */
  lemma {:induction false} PriceIsSumOfLeaves(p: Priceable)
    ensures CalculatePrice(p) == Sum(Leaves(p))
    decreases p, 1
  {
    if p.Box? {
      ItemsPriceIsSumOfLeaves(p.items);
    }
  }

  lemma {:induction false} ItemsPriceIsSumOfLeaves(items: seq<Priceable>)
    ensures ItemsPrice(items) == Sum(LeavesAll(items))
    decreases items, 0
  {
    if items != [] {
      PriceIsSumOfLeaves(items[0]);
      ItemsPriceIsSumOfLeaves(items[1..]);
      SumAppend(Leaves(items[0]), LeavesAll(items[1..]));
    }
  }

  /** A box's contents priced in two parts. */
  lemma {:induction false} ItemsPriceAppend(a: seq<Priceable>, b: seq<Priceable>)
    ensures ItemsPrice(a + b) == ItemsPrice(a) + ItemsPrice(b)
  {
    if a == [] {
      assert a + b == b;
    } else {
      assert (a + b)[1..] == a[1..] + b;
      ItemsPriceAppend(a[1..], b);
    }
  }

  /** An empty box costs nothing, and boxing contents once more does not change their price. */
  lemma EmptyAndNested(items: seq<Priceable>)
    ensures CalculatePrice(Box([])) == 0.0
    ensures CalculatePrice(Box([Box(items)])) == CalculatePrice(Box(items))
  {
    assert [Box(items)][1..] == [];
  }

  /** The order of a box's contents does not matter: swapping two neighbours keeps the price. */
  lemma SwapKeepsPrice(a: seq<Priceable>, x: Priceable, y: Priceable, b: seq<Priceable>)
    ensures CalculatePrice(Box(a + [x, y] + b)) == CalculatePrice(Box(a + [y, x] + b))
  {
    ItemsPriceAppend(a + [x, y], b);
    ItemsPriceAppend(a, [x, y]);
    ItemsPriceAppend(a + [y, x], b);
    ItemsPriceAppend(a, [y, x]);
    assert [x, y][1..] == [y] && [y, x][1..] == [x];
  }

  /** Taking out the element at `k` leaves the rest of the multiset. */
  lemma RemoveAtMultiset(b: seq<Priceable>, k: nat)
    requires k < |b|
    ensures multiset(b[..k] + b[k + 1..]) == multiset(b) - multiset{b[k]}
  {
    assert b == b[..k] + [b[k]] + b[k + 1..];
  }

  /** The contents priced without the element at `k`, plus that element. */
  lemma {:induction false} ItemsPriceRemoveAt(b: seq<Priceable>, k: nat)
    requires k < |b|
    ensures ItemsPrice(b) == ItemsPrice(b[..k] + b[k + 1..]) + CalculatePrice(b[k])
  {
    if k == 0 {
      assert b[..k] + b[k + 1..] == b[1..];
    } else {
      var tail := b[1..];
      var rest := b[..k] + b[k + 1..];
      assert rest[0] == b[0];
      assert rest[1..] == tail[..k - 1] + tail[k..];
      ItemsPriceRemoveAt(tail, k - 1);
    }
  }

  /** A multiset of contents prices the same in any order. */
  lemma {:induction false} PermutationKeepsPrice(a: seq<Priceable>, b: seq<Priceable>)
    requires multiset(a) == multiset(b)
    ensures ItemsPrice(a) == ItemsPrice(b)
    decreases |a|
  {
    if a != [] {
      var x := a[0];
      assert x in multiset(b);
      var k :| 0 <= k < |b| && b[k] == x;
      var rest := b[..k] + b[k + 1..];
      RemoveAtMultiset(b, k);
      assert multiset(a[1..]) == multiset(rest) by {
        assert a == [x] + a[1..];
      }
      PermutationKeepsPrice(a[1..], rest);
      ItemsPriceRemoveAt(b, k);
    }
  }

  lemma InnerBox()
    ensures CalculatePrice(Box([Item(5.49), Item(119.99)])) == 125.48
  {
    assert [Item(5.49), Item(119.99)][1..] == [Item(119.99)];
    assert [Item(119.99)][1..] == [];
  }

  /** The test's tree: two items and a box of two more price to 170.46. */
  lemma SampleTree()
    ensures CalculatePrice(Box([Item(24.99), Item(19.99), Box([Item(5.49), Item(119.99)])])) == 170.46
  {
    var inner := Box([Item(5.49), Item(119.99)]);
    InnerBox();
    var items := [Item(24.99), Item(19.99), inner];
    assert items[1..] == [Item(19.99), inner];
    assert items[1..][1..] == [inner];
    assert [inner][1..] == [];
  }
}
