/** The post_save receiver of core/order/signals.py,
    update_product_sold_count: when an order row is first created it adds
    each line's quantity to its product's sold count and saves the product. */
module OrderSignals {
  import opened Common
  import opened ShopModels
  import opened OrderModels

  /** What the receiver leaves after its first k lines: each product's
      sold count is up by what those lines order of it, and the products
      they refer to have been saved. */
  twostate predicate SoldCounted(items: seq<OrderItem>, k: nat, slugify: string -> string)
    requires k <= |items|
    reads ProductsOf(items)
  {
    forall p :: p in ProductsOf(items) ==>
      && p.soldCount == old(p.soldCount) + QuantityOf(items[..k], p)
      && if p in ProductsOf(items[..k]) then SavedPricing(p, slugify) else PricingKept(p)
  }

  /** One line: `product.sold_count += item.quantity` and `product.save()`.
      A refused save (see Product.Storable) leaves the row as it was. */
  method CountLine(product: Product, quantity: nat, slugify: string -> string) returns (ok: bool)
    modifies product`soldCount, product`slug, product`discountedPrice
    ensures ok <==> product.Storable()
    ensures ok ==> product.soldCount == old(product.soldCount) + quantity && SavedPricing(product, slugify)
    ensures !ok ==> unchanged(product)
  {
    product.soldCount := product.soldCount + quantity;
    ok := product.Save(slugify);
    if !ok {
      product.soldCount := product.soldCount - quantity;
    }
  }

  /** The loop over instance.items.all(): it stops at the first line whose
      product cannot be stored, or at |items| when there is none. A refused
      save changes no row, so the loop tests Storable before it writes. */
  method CountLines(items: seq<OrderItem>, slugify: string -> string) returns (stop: nat)
    modifies ProductsOf(items)`soldCount, ProductsOf(items)`slug, ProductsOf(items)`discountedPrice
    ensures stop <= |items| && SoldCounted(items, stop, slugify) && AllStorable(items[..stop])
    ensures stop < |items| ==> !items[stop].product.Storable()
    ensures forall p :: p in ProductsOf(items) ==> p.inventory == old(p.inventory)
  {
    var i := 0;
    while i < |items|
      invariant 0 <= i <= |items|
      invariant AllStorable(items[..i])
      invariant SoldCounted(items, i, slugify)
      invariant forall p :: p in ProductsOf(items) ==> p.inventory == old(p.inventory)
    {
      var item := items[i];
      var product := item.product;
      assert product in ProductsOf(items);
      ProductsOfPrefix(items, i);
      SavedSlugIdempotent(old(product.slug), product.name, slugify);
      if !product.Storable() {
        return i;
      }
      label step:
      var counted := CountLine(product, item.quantity, slugify);
      forall p | p in ProductsOf(items)
        ensures p.soldCount == old(p.soldCount) + QuantityOf(items[..i + 1], p)
        ensures if p in ProductsOf(items[..i + 1]) then SavedPricing(p, slugify) else PricingKept(p)
      {
        QuantityOfStep(items, i, p);
        if p != product {
          assert p.soldCount == old@step(p.soldCount) && p.slug == old@step(p.slug);
          assert p.discountedPrice == old@step(p.discountedPrice);
        } else {
          assert p in ProductsOf(items[..i + 1]);
          assert old@step(p.slug) == old(p.slug) || old@step(p.slug) == SavedSlug(old(p.slug), p.name, slugify);
        }
      }
      i := i + 1;
    }
    return i;
  }

  /** update_product_sold_count(sender, instance, created). Lines that share
      a product accumulate, because every line re-reads its product after
      the previous save. Inventory is never touched. The first line whose
      product the database refuses (see Product.Storable) raises
      IntegrityError out of the receiver (ok is false, at line failedAt):
      that product keeps its row, the lines before it keep their counts. */
  method UpdateProductSoldCount(order: Order, created: bool, slugify: string -> string) returns (ok: bool, ghost failedAt: nat)
    modifies ProductsOf(order.items)`soldCount, ProductsOf(order.items)`slug, ProductsOf(order.items)`discountedPrice
    ensures ok <==> !created || AllStorable(order.items)
    ensures ok && created ==> forall p :: p in ProductsOf(order.items) ==>
      p.soldCount == old(p.soldCount) + QuantityOf(order.items, p) && SavedPricing(p, slugify)
    ensures !created ==> forall p :: p in ProductsOf(order.items) ==> p.soldCount == old(p.soldCount) && PricingKept(p)
    ensures !ok ==>
      && failedAt < |order.items| && !order.items[failedAt].product.Storable()
      && AllStorable(order.items[..failedAt]) && SoldCounted(order.items, failedAt, slugify)
    ensures forall p :: p in ProductsOf(order.items) ==> p.inventory == old(p.inventory)
  {
    failedAt := 0;
    if !created {
      return true, 0;
    }
    var items := order.items;
    var stop := CountLines(items, slugify);
    ok, failedAt := stop == |items|, stop;
    if ok {
      assert items[..stop] == items;
    } else {
      assert items[stop].product in ProductsOf(items);
    }
  }
}
