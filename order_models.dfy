/** The order models of core/order/models.py: an order's line items and the
    prices Order.get_total_cost, get_post_cost and get_final_cost compute
    from them. The percentage discount is applied in exact real arithmetic. */
module OrderModels {
  import opened Common
  import opened ShopModels
  import opened AccountModels

  /** An OrderItem row: the product, and the price, quantity and weight
      copied from the cart when the order was placed. */
  datatype OrderItem = OrderItem(product: Product, price: nat, quantity: nat, weight: nat)

  /** OrderItem.get_cost(). */
  function ItemCost(item: OrderItem): nat {
    item.price * item.quantity
  }

  /** OrderItem.get_weight(). */
  function ItemWeight(item: OrderItem): nat {
    item.weight * item.quantity
  }

  /** sum(item.get_cost() for item in items). */
  function Subtotal(items: seq<OrderItem>): nat {
    if items == [] then 0 else Subtotal(items[..|items| - 1]) + ItemCost(items[|items| - 1])
  }

  /** sum(item.get_weight() for item in items). */
  function TotalWeight(items: seq<OrderItem>): nat {
    if items == [] then 0 else TotalWeight(items[..|items| - 1]) + ItemWeight(items[|items| - 1])
  }

  /** The subtotal of a concatenation is the sum of the subtotals, so the
      subtotal is the sum of the line costs whatever the grouping. */
  lemma {:induction false} SubtotalConcat(a: seq<OrderItem>, b: seq<OrderItem>)
    ensures Subtotal(a + b) == Subtotal(a) + Subtotal(b)
  {
    if b != [] {
      assert (a + b)[..|a + b| - 1] == a + b[..|b| - 1];
      SubtotalConcat(a, b[..|b| - 1]);
    } else {
      assert a + b == a;
    }
  }

  lemma {:induction false} TotalWeightConcat(a: seq<OrderItem>, b: seq<OrderItem>)
    ensures TotalWeight(a + b) == TotalWeight(a) + TotalWeight(b)
  {
    if b != [] {
      assert (a + b)[..|a + b| - 1] == a + b[..|b| - 1];
      TotalWeightConcat(a, b[..|b| - 1]);
    } else {
      assert a + b == a;
    }
  }

  /** A single line contributes price * quantity to the subtotal and
      weight * quantity to the total weight. */
  lemma SingleLine(item: OrderItem)
    ensures Subtotal([item]) == item.price * item.quantity
    ensures TotalWeight([item]) == item.weight * item.quantity
  {
    assert [item][..0] == [];
  }

  /** Order.get_total_cost(): total - total * (discount / 100). */
  function TotalCost(items: seq<OrderItem>, discount: int): real {
    var total := Subtotal(items) as real;
    total - total * (discount as real / 100.0)
  }

  /** With no discount the total cost is the plain subtotal; in general it
      is the subtotal scaled by (100 - discount) / 100, and for a discount
      between 0 and 100 it lies between 0 and the subtotal. */
  lemma TotalCostIsScaledSubtotal(items: seq<OrderItem>, discount: int)
    ensures TotalCost(items, discount) == (Subtotal(items) as real) * ((100 - discount) as real) / 100.0
    ensures discount == 0 ==> TotalCost(items, discount) == Subtotal(items) as real
    ensures 0 <= discount <= 100 ==> 0.0 <= TotalCost(items, discount) <= Subtotal(items) as real
  {
    var t := Subtotal(items) as real;
    var f := discount as real / 100.0;
    assert t - t * f == t * (1.0 - f);
    assert 1.0 - f == ((100 - discount) as real) / 100.0;
    if 0 <= discount <= 100 {
      NonNegativeProduct(t, f);
      NonNegativeProduct(t, 1.0 - f);
    }
  }

  lemma NonNegativeProduct(x: real, y: real)
    requires x >= 0.0 && y >= 0.0
    ensures x * y >= 0.0
  {
  }

  /** The shipping charge of get_post_cost for a total weight in grams. */
  function PostCostForWeight(weight: int): nat {
    if weight < 1000 then 20000
    else if 1000 <= weight < 2000 then 30000
    else 50000
  }

  /** The three tiers and their exact boundaries: below 1000 grams, from
      1000 up to but not including 2000, and 2000 or more. */
  lemma PostCostTiers(weight: int)
    ensures PostCostForWeight(weight) == 20000 <==> weight < 1000
    ensures PostCostForWeight(weight) == 30000 <==> 1000 <= weight < 2000
    ensures PostCostForWeight(weight) == 50000 <==> 2000 <= weight
    ensures PostCostForWeight(weight) in {20000, 30000, 50000}
  {
  }

  lemma PostCostBoundaries()
    ensures PostCostForWeight(999) == 20000 && PostCostForWeight(1000) == 30000
    ensures PostCostForWeight(1999) == 30000 && PostCostForWeight(2000) == 50000
  {
  }

  /** A heavier order never ships for less. */
  lemma PostCostMonotone(w1: int, w2: int)
    requires w1 <= w2
    ensures PostCostForWeight(w1) <= PostCostForWeight(w2)
  {
  }

  /** Order.get_post_cost(). */
  function PostCost(items: seq<OrderItem>): nat {
    PostCostForWeight(TotalWeight(items))
  }

  /** Order.get_final_cost(). */
  function FinalCost(items: seq<OrderItem>, discount: int): real {
    TotalCost(items, discount) + PostCost(items) as real
  }

  /** The discount acts on the goods only: whatever the discount, the final
      cost exceeds the total cost by the same shipping charge, and with a
      discount between 0 and 100 the final cost is at least that charge. */
  lemma DiscountSparesShipping(items: seq<OrderItem>, d1: int, d2: int)
    ensures FinalCost(items, d1) - TotalCost(items, d1) == FinalCost(items, d2) - TotalCost(items, d2)
    ensures FinalCost(items, d1) - TotalCost(items, d1) == PostCost(items) as real
    ensures 0 <= d1 <= 100 ==> FinalCost(items, d1) >= PostCost(items) as real >= 20000.0
  {
    TotalCostIsScaledSubtotal(items, d1);
  }

  /** The price methods Order defines. */
  const OrderCostMethods: set<string> := {"get_total_cost", "get_post_cost", "get_final_cost"}

  /** Looking up a price method of an order by name and calling it, as
      getattr(order, name)() does: a name Order does not define raises
      AttributeError, a defined one yields the price it computes. */
  function CostMethod(items: seq<OrderItem>, discount: int, name: string): (r: Result<real, PyError>)
    ensures r.Ok? <==> name in OrderCostMethods
    ensures r.Err? ==> r.error == AttributeError
    ensures name == "get_total_cost" ==> r == Ok(TotalCost(items, discount))
    ensures name == "get_post_cost" ==> r == Ok(PostCost(items) as real)
    ensures name == "get_final_cost" ==> r == Ok(FinalCost(items, discount))
  {
    if name == "get_total_cost" then Ok(TotalCost(items, discount))
    else if name == "get_post_cost" then Ok(PostCost(items) as real)
    else if name == "get_final_cost" then Ok(FinalCost(items, discount))
    else Err(AttributeError)
  }

  /** An order without items costs nothing but the lowest shipping tier. */
  lemma EmptyOrderCosts(discount: int)
    ensures TotalCost([], discount) == 0.0
    ensures PostCost([]) == 20000
    ensures FinalCost([], discount) == 20000.0
  {
  }

  /** The total quantity of a product over the lines that refer to it. */
  function QuantityOf(items: seq<OrderItem>, p: Product): nat {
    if items == [] then 0
    else QuantityOf(items[..|items| - 1], p) + (if items[|items| - 1].product == p then items[|items| - 1].quantity else 0)
  }

  /** Extending a prefix by one line adds that line's quantity to its own
      product and nothing to any other. */
  lemma QuantityOfStep(items: seq<OrderItem>, i: nat, p: Product)
    requires i < |items|
    ensures QuantityOf(items[..i + 1], p) == QuantityOf(items[..i], p) + (if items[i].product == p then items[i].quantity else 0)
  {
    assert items[..i + 1][..i] == items[..i];
  }

  /** The products the lines refer to. */
  function ProductsOf(items: seq<OrderItem>): set<Product> {
    set i | 0 <= i < |items| :: items[i].product
  }

  /** Every product the lines refer to can be saved. */
  ghost predicate AllStorable(items: seq<OrderItem>)
    reads ProductsOf(items)
  {
    forall p :: p in ProductsOf(items) ==> p.Storable()
  }

  /** A product no line refers to has quantity 0. */
  lemma {:induction false} QuantityOfAbsent(items: seq<OrderItem>, p: Product)
    requires p !in ProductsOf(items)
    ensures QuantityOf(items, p) == 0
  {
    if items != [] {
      var front := items[..|items| - 1];
      assert ProductsOf(front) <= ProductsOf(items) by {
        forall q | q in ProductsOf(front) ensures q in ProductsOf(items) {
          var i :| 0 <= i < |front| && front[i].product == q;
          assert items[i].product == q;
        }
      }
      assert items[|items| - 1].product in ProductsOf(items);
      QuantityOfAbsent(front, p);
    }
  }

  /** A prefix of the lines never takes more of a product than all of them. */
  lemma {:induction false} QuantityOfPrefix(items: seq<OrderItem>, k: nat, p: Product)
    requires k <= |items|
    ensures QuantityOf(items[..k], p) <= QuantityOf(items, p)
  {
    if k < |items| {
      var front := items[..|items| - 1];
      assert items[..k] == front[..k];
      QuantityOfPrefix(front, k, p);
    } else {
      assert items[..k] == items;
    }
  }

  /** Extending a prefix by one line adds that line's product. */
  lemma ProductsOfPrefix(items: seq<OrderItem>, i: nat)
    requires i < |items|
    ensures ProductsOf(items[..i + 1]) == ProductsOf(items[..i]) + {items[i].product}
    ensures ProductsOf(items[..i]) <= ProductsOf(items)
  {
    var pre, next := items[..i], items[..i + 1];
    forall q | q in ProductsOf(next) ensures q in ProductsOf(pre) + {items[i].product} {
      var j :| 0 <= j < i + 1 && next[j].product == q;
      if j < i {
        assert pre[j].product == q;
      }
    }
    forall q | q in ProductsOf(pre) ensures q in ProductsOf(next) && q in ProductsOf(items) {
      var j :| 0 <= j < i && pre[j].product == q;
      assert next[j].product == q && items[j].product == q;
    }
    assert next[i].product == items[i].product;
  }

  /** The buyer-facing fields a checkout form fills in (OrderCreateForm). */
  datatype OrderContact = OrderContact(
    firstName: string, lastName: string, phone: string, address: string,
    postalCode: string, city: string, province: string)

  /** An Order row with its line items. */
  class Order {
    const id: nat
    var buyer: Option<ShopUser>
    var contact: OrderContact
    var paid: bool
    var refId: string
    var discount: int
    var items: seq<OrderItem>

    /** A freshly saved order: not paid, no reference id, no discount, no
        buyer and no items yet. */
    constructor (id: nat, contact: OrderContact)
      ensures this.id == id && this.contact == contact
      ensures !paid && refId == "" && discount == 0
      ensures buyer.None? && items == []
    {
      this.id, this.contact := id, contact;
      buyer := None;
      paid, refId, discount := false, "", 0;
      items := [];
    }
  }
}
