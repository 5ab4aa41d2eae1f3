/**
 * The strategy demo: an item's price is computed by an interchangeable
 * pricing strategy, either one of the two strategy classes or a plain
 * function, held by a calculator whose strategy can be replaced at run
 * time.  Prices are C# `decimal`s, here exact reals.
 */
module PricingStrategy {
  datatype Item = Item(id: int, name: string, price: real)

  /** The two strategy classes; Black Friday keeps its own copy of the discounted ids. */
  datatype PricingStrategy =
    | Standard
    | BlackFriday(discount: real, discountedArticleIds: seq<int>)

  const Coupon := "ABC123"

  /** `CalculatePriceAsync` of each strategy. */
  function CalculatePrice(strategy: PricingStrategy, item: Item, couponCode: string): real {
    match strategy
    case Standard => if couponCode == Coupon then item.price * 0.9 else item.price
    case BlackFriday(discount, ids) => if item.id in ids then item.price * discount else item.price
  }

  /** The standard strategy takes 10% off exactly when the coupon is "ABC123" (compared case-sensitively). */
  lemma StandardCoupon(item: Item, couponCode: string)
    requires item.price != 0.0
    ensures CalculatePrice(Standard, item, couponCode) == item.price * 0.9 <==> couponCode == Coupon
    ensures CalculatePrice(Standard, item, couponCode) == item.price <==> couponCode != Coupon
  {
  }

  /** Black Friday ignores the coupon and discounts exactly the listed ids. */
  lemma BlackFridayIgnoresCoupon(discount: real, ids: seq<int>, item: Item, c1: string, c2: string)
    ensures CalculatePrice(BlackFriday(discount, ids), item, c1) == CalculatePrice(BlackFriday(discount, ids), item, c2)
    ensures item.price != 0.0 && discount != 1.0 ==>
      (CalculatePrice(BlackFriday(discount, ids), item, c1) != item.price <==> item.id in ids)
  {
  }

  /** With a non-negative price and a discount between 0 and 1, no strategy raises the price or makes it negative. */
  lemma NeverRaisesPrice(strategy: PricingStrategy, item: Item, couponCode: string)
    requires item.price >= 0.0
    requires strategy.BlackFriday? ==> 0.0 <= strategy.discount <= 1.0
    ensures 0.0 <= CalculatePrice(strategy, item, couponCode) <= item.price
  {
    if strategy.BlackFriday? && item.id in strategy.discountedArticleIds {
      ScaleDown(item.price, strategy.discount);
    } else if strategy.Standard? {
      ScaleDown(item.price, 0.9);
    }
  }

  lemma ScaleDown(price: real, factor: real)
    requires price >= 0.0 && 0.0 <= factor <= 1.0
    ensures 0.0 <= price * factor <= price
  {
    assert price * factor <= price * 1.0 by {
      assert price * (1.0 - factor) >= 0.0;
    }
  }

  /** The id list a caller passes in, which it may go on changing. */
  class ArticleIds {
    var ids: seq<int>

    constructor(ids: seq<int>)
      ensures this.ids == ids
    {
      this.ids := ids;
    }

    method Add(id: int)
      modifies this
      ensures ids == old(ids) + [id]
    {
      ids := ids + [id];
    }
  }

  /** The Black Friday constructor: `ToArray` copies the ids as they are now. */
  method NewBlackFriday(discount: real, articleIds: ArticleIds) returns (strategy: PricingStrategy)
    ensures strategy == BlackFriday(discount, articleIds.ids)
  {
    strategy := BlackFriday(discount, articleIds.ids);
  }

  /** Ids added to the caller's list after construction are not discounted. */
  method SnapshotScenario() returns (laterPrice: real)
    ensures laterPrice == 100.0
  {
    var articleIds := new ArticleIds([1, 2, 3]);
    var strategy := NewBlackFriday(0.5, articleIds);
    articleIds.Add(4);
    laterPrice := CalculatePrice(strategy, Item(4, "Item 4", 100.0), "");
  }

  class ItemPriceCalculator {
    var strategy: PricingStrategy

    constructor(strategy: PricingStrategy)
      ensures this.strategy == strategy
    {
      this.strategy := strategy;
    }

    method SetStrategy(strategy: PricingStrategy)
      modifies this
      ensures this.strategy == strategy
    {
      this.strategy := strategy;
    }

    /** `item with { Price = ... }`: a copy priced by the current strategy; every other field is kept. */
    method ApplyPrice(item: Item, couponCode: string) returns (priced: Item)
      ensures priced.id == item.id && priced.name == item.name
      ensures priced.price == CalculatePrice(strategy, item, couponCode)
    {
      priced := item.(price := CalculatePrice(strategy, item, couponCode));
    }
  }

  /** The calculator that takes its strategy as a function. */
  class FuncStrategyItemPriceCalculator {
    var strategy: (Item, string) -> real

    constructor(strategy: (Item, string) -> real)
      ensures this.strategy == strategy
    {
      this.strategy := strategy;
    }

    method SetStrategy(strategy: (Item, string) -> real)
      modifies this
      ensures this.strategy == strategy
    {
      this.strategy := strategy;
    }

    method ApplyPrice(item: Item, couponCode: string) returns (priced: Item)
      ensures priced.id == item.id && priced.name == item.name
      ensures priced.price == strategy(item, couponCode)
    {
      priced := item.(price := strategy(item, couponCode));
    }
  }

  /**
   * The test: an item priced 100 costs 90 with the coupon under the standard
   * strategy, 50 under Black Friday at half price for ids 1 to 3, the same
   * again after switching one calculator's strategy, and 80 under a lambda
   * taking 20% off.
   */
  method PricingScenario() returns (standard: real, blackFriday: real, switchedStandard: real,
                                    switchedBlackFriday: real, functional: real)
    ensures standard == 90.0 && blackFriday == 50.0
    ensures switchedStandard == 90.0 && switchedBlackFriday == 50.0
    ensures functional == 80.0
  {
    var ids := new ArticleIds([1, 2, 3]);
    var blackFridayStrategy := NewBlackFriday(0.5, ids);
    var standardCalculator := new ItemPriceCalculator(Standard);
    var blackFridayCalculator := new ItemPriceCalculator(blackFridayStrategy);
    var item := Item(1, "Item 1", 100.0);
    var priced := standardCalculator.ApplyPrice(item, Coupon);
    standard := priced.price;
    priced := blackFridayCalculator.ApplyPrice(item, "");
    blackFriday := priced.price;

    var calculator := new ItemPriceCalculator(Standard);
    priced := calculator.ApplyPrice(item, Coupon);
    switchedStandard := priced.price;
    calculator.SetStrategy(blackFridayStrategy);
    priced := calculator.ApplyPrice(item, "");
    switchedBlackFriday := priced.price;

    var functionalCalculator := new FuncStrategyItemPriceCalculator((i: Item, c: string) => i.price * 0.8);
    priced := functionalCalculator.ApplyPrice(item, "");
    functional := priced.price;
  }
}
