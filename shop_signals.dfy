/** The pre_save receiver of core/shop/signals.py, calculate_new_price: it
    sets the transient discount_price attribute of a product instance. */
module ShopSignals {
  import opened Common
  import opened ShopModels

  /** The value the receiver assigns: the original price for a None discount,
      otherwise int(original * (100 - d) / 100). Unlike Product.save, a zero
      discount takes the formula branch (0 is not None), which gives the
      same price. */
  function SignalPrice(original: int, discount: Option<int>): int {
    match discount
    case None => original
    case Some(d) => TruncDiv(original * (100 - d), 100)
  }

  /** The receiver and Product.save agree on every discount, including 0:
      the two definitions of the discounted price are interchangeable. */
  lemma SignalMatchesSave(original: int, discount: Option<int>)
    ensures SignalPrice(original, discount) == DiscountedPrice(original, discount)
  {
    if discount == Some(0) {
      assert original * (100 - 0) == original * 100;
      assert TruncDiv(original * 100, 100) == original;
    }
  }

  /** calculate_new_price(sender, instance): only discount_price is written.
      The except branch for TypeError and ValueError cannot be reached here,
      because the original price and the discount are integers. */
  method CalculateNewPrice(instance: Product)
    modifies instance`discountPrice
    ensures instance.discountPrice == Some(SignalPrice(instance.originalPrice, instance.DiscountValue()))
    ensures instance.discount.None? || instance.discount == Some(0) ==> instance.discountPrice == Some(instance.originalPrice)
    ensures instance.discountPrice == Some(DiscountedPrice(instance.originalPrice, instance.DiscountValue()))
  {
    if instance.discount.Some? {
      instance.discountPrice := Some(TruncDiv(instance.originalPrice * (100 - instance.discount.value), 100));
    } else {
      instance.discountPrice := Some(instance.originalPrice);
    }
    SignalMatchesSave(instance.originalPrice, instance.DiscountValue());
  }
}
