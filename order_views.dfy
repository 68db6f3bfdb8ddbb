/** The checkout views of core/order/views.py: the phone challenge
    (verify_phone, verify_code), order creation from the cart (order_create),
    the payment request (send_request) and the settlement after the payment
    gateway confirms (verify). The gateway's replies, the random code and
    password, the slugify helper and the ORM lookups are inputs. */
module OrderViews {
  import opened Common
  import opened ShopModels
  import opened AccountModels
  import opened OrderModels
  import opened OrderForms
  import opened OrderSignals

  // ---------------------------------------------------------------------------
  // Session and responses
  // ---------------------------------------------------------------------------

  /** The values these views keep in request.session. */
  datatype SessionValue = Text(s: string) | OrderRef(id: nat)

  /** request.session. Only the views below write the three keys they use,
      so each key always holds the kind of value they store in it. */
  class Session {
    var data: map<string, SessionValue>

    ghost predicate Valid()
      reads this
    {
      && ("verification_code" in data ==> data["verification_code"].Text?)
      && ("phone" in data ==> data["phone"].Text?)
      && ("order_id" in data ==> data["order_id"].OrderRef?)
    }

    constructor (data: map<string, SessionValue>)
      ensures this.data == data
    {
      this.data := data;
    }
  }

  datatype Page = VerifyPhonePage | VerifyCodePage | OrderCreatePage

  datatype Route = OrderCreateRoute | VerifyPhoneRoute | VerifyCodeRoute | PaymentRequestRoute | LoginRoute

  /** The plain-text bodies the payment views answer with. */
  datatype Reply = LookupFailed | GatewayError | ResponseFailed | TimeoutError | ConnectionError | Successful(refId: string)

  datatype Response =
    | Render(page: Page)
    | Redirect(route: Route)
    | StartPay(authority: string)
    | Body(reply: Reply)
    | Crash(error: PyError)

  // ---------------------------------------------------------------------------
  // The phone challenge
  // ---------------------------------------------------------------------------

  /** verify_phone(request). code is the five-digit token random.choices
      draws; registered holds the phones ShopUser rows already have. */
  method VerifyPhone(viewer: Viewer, isPost: bool, raw: Option<string>, registered: set<string>, code: string, session: Session)
    returns (resp: Response)
    requires IsDigits(code) && |code| == 5
    requires session.Valid()
    modifies session
    ensures session.Valid()
    ensures viewer.Authenticated? ==> resp == Redirect(OrderCreateRoute) && session.data == old(session.data)
    ensures viewer.Anonymous? && !(isPost && ValidatePhoneForm(raw).Ok?) ==>
      resp == Render(VerifyPhonePage) && session.data == old(session.data)
    ensures viewer.Anonymous? && isPost && ValidatePhoneForm(raw).Ok? && ValidatePhoneForm(raw).value in registered ==>
      resp == Redirect(VerifyPhoneRoute) && session.data == old(session.data)
    ensures viewer.Anonymous? && isPost && ValidatePhoneForm(raw).Ok? && ValidatePhoneForm(raw).value !in registered ==>
      && resp == Redirect(VerifyCodeRoute)
      && session.data == old(session.data)["verification_code" := Text(code)]["phone" := Text(ValidatePhoneForm(raw).value)]
  {
    if viewer.Authenticated? {
      return Redirect(OrderCreateRoute);
    }
    if isPost {
      var form := ValidatePhoneForm(raw);
      if form.Ok? {
        var phone := form.value;
        if phone in registered {
          return Redirect(VerifyPhoneRoute);
        }
        session.data := session.data["verification_code" := Text(code)];
        session.data := session.data["phone" := Text(phone)];
        return Redirect(VerifyCodeRoute);
      }
    }
    resp := Render(VerifyPhonePage);
  }

  /** The code the visitor typed matches the challenge in the session. */
  predicate CodeMatches(code: string, data: map<string, SessionValue>) {
    "verification_code" in data && data["verification_code"] == Text(code)
  }

  /** verify_code(request) as written: the account is created with
      create_user(phone=phone), which leaves out the required email argument
      and raises TypeError. The crash comes before the two session keys are
      deleted, so the session is never changed. Returns the response and the
      session contents afterwards. */
  function VerifyCodeAsWritten(isPost: bool, code: Option<string>, data: map<string, SessionValue>): (r: (Response, map<string, SessionValue>))
    ensures r.1 == data
    ensures isPost && code.Some? && IsDigits(code.value) && "phone" in data && CodeMatches(code.value, data) ==>
      r.0 == Crash(TypeError)
    ensures r.0 != Redirect(OrderCreateRoute)
  {
    if !isPost || code.None? || !IsDigits(code.value) then (Render(VerifyCodePage), data)
    else if "verification_code" !in data || "phone" !in data then (Crash(KeyError), data)
    else if data["verification_code"] != Text(code.value) then (Render(VerifyCodePage), data)
    else
      var phone := if data["phone"].Text? then data["phone"].s else "";
      match CreateUser(None, None, map["phone" := PyStr(phone)])
      case Err(e) => (Crash(e), data)
      case Ok(_) => (Redirect(OrderCreateRoute), data - {"verification_code", "phone"})
  }

  /** verify_code(request) as it is evidently meant to work: the account is
      created with an email (supplied by the caller here) and the session's
      phone, its password is the random temporary one, and the challenge is
      consumed. A wrong, empty or non-numeric code keeps the challenge so
      the visitor can retry; a numeric code without a challenge in the
      session raises KeyError. */
  method VerifyCode(isPost: bool, code: Option<string>, session: Session, email: string, pk: nat, tempPassword: string)
    returns (resp: Response, user: Option<ShopUser>)
    requires session.Valid()
    modifies session
    ensures session.Valid()
    ensures !isPost || code.None? || !IsDigits(code.value) ==>
      resp == Render(VerifyCodePage) && user.None? && session.data == old(session.data)
    ensures isPost && code.Some? && IsDigits(code.value) && ("verification_code" !in old(session.data) || "phone" !in old(session.data)) ==>
      resp == Crash(KeyError) && user.None? && session.data == old(session.data)
    ensures && isPost && code.Some? && IsDigits(code.value) && "verification_code" in old(session.data) && "phone" in old(session.data)
            && !CodeMatches(code.value, old(session.data)) ==>
      resp == Render(VerifyCodePage) && user.None? && session.data == old(session.data)
    ensures isPost && code.Some? && IsDigits(code.value) && "phone" in old(session.data) && CodeMatches(code.value, old(session.data)) ==>
      && resp == Redirect(OrderCreateRoute)
      && user.Some? && fresh(user.value)
      && user.value.pk == pk && user.value.phone == old(session.data)["phone"].s
      && user.value.email == StoredEmail(email) && user.value.password == Some(tempPassword)
      && !user.value.isStaff && !user.value.isSuperuser && user.value.isActive && !user.value.isVerified
      && session.data == old(session.data) - {"verification_code", "phone"}
      && "verification_code" !in session.data && "phone" !in session.data
  {
    user := None;
    if !isPost || code.None? || !IsDigits(code.value) {
      return Render(VerifyCodePage), None;
    }
    if "verification_code" !in session.data || "phone" !in session.data {
      return Crash(KeyError), None;
    }
    var phone := session.data["phone"].s;
    if session.data["verification_code"] != Text(code.value) {
      return Render(VerifyCodePage), None;
    }
    var record := CreateUser(Some(email), None, map["phone" := PyStr(phone)]).value;
    PhoneOnlyRecord(phone);
    var created := new ShopUser(pk, record);
    created.password := Some(tempPassword);
    session.data := session.data - {"verification_code"};
    session.data := session.data - {"phone"};
    resp, user := Redirect(OrderCreateRoute), Some(created);
  }

  // ---------------------------------------------------------------------------
  // order_create
  // ---------------------------------------------------------------------------

  /** One entry of the cart: the product and the price, quantity and weight
      the cart holds for it. */
  datatype CartEntry = CartEntry(product: Product, price: nat, quantity: nat, weight: nat)

  /** The order items order_create makes from the cart, one per entry. */
  function Snapshot(cart: seq<CartEntry>): seq<OrderItem> {
    if cart == [] then []
    else
      var e := cart[|cart| - 1];
      Snapshot(cart[..|cart| - 1]) + [OrderItem(e.product, e.price, e.quantity, e.weight)]
  }

  /** The snapshot has exactly one item per cart entry, in cart order, each
      copying the entry's product, price, quantity and weight. */
  lemma {:induction false} SnapshotCopies(cart: seq<CartEntry>)
    ensures |Snapshot(cart)| == |cart|
    ensures forall i :: 0 <= i < |cart| ==>
      Snapshot(cart)[i] == OrderItem(cart[i].product, cart[i].price, cart[i].quantity, cart[i].weight)
  {
    if cart != [] {
      SnapshotCopies(cart[..|cart| - 1]);
    }
  }

  /** The loop of order_create that runs OrderItem.objects.create for each
      cart entry, on an order that has no items yet. */
  method CreateItems(order: Order, cart: seq<CartEntry>)
    requires order.items == []
    modifies order`items
    ensures order.items == Snapshot(cart)
  {
    var i := 0;
    while i < |cart|
      invariant 0 <= i <= |cart|
      invariant order.items == Snapshot(cart[..i])
    {
      var e := cart[i];
      assert cart[..i + 1][..i] == cart[..i];
      order.items := order.items + [OrderItem(e.product, e.price, e.quantity, e.weight)];
      i := i + 1;
    }
    assert cart[..i] == cart;
  }

  /** The saving part of order_create once the form is valid: the order is
      created, its buyer set and saved again, and its items made from the
      cart. The post_save receiver runs on both saves: on the first the order
      has no items, on the second it is no creation, so no sold count changes.
      id is the primary key the database assigns. */
  method PlaceOrder(buyer: ShopUser, contact: OrderContact, cart: seq<CartEntry>, id: nat, slugify: string -> string)
    returns (order: Order)
    ensures fresh(order)
    ensures order.id == id && order.contact == contact && order.buyer == Some(buyer)
    ensures order.items == Snapshot(cart)
    ensures !order.paid && order.refId == "" && order.discount == 0
  {
    order := new Order(id, contact);
    assert ProductsOf(order.items) == {};
    var stored;
    ghost var failedAt;
    stored, failedAt := UpdateProductSoldCount(order, true, slugify);
    assert stored;
    order.buyer := Some(buyer);
    assert ProductsOf(order.items) == {};
    stored, failedAt := UpdateProductSoldCount(order, false, slugify);
    CreateItems(order, cart);
  }

  /** order_create(request). An anonymous visitor is sent to the login page
      (@login_required). A valid form saves the order, sets its buyer, saves
      it again, adds one OrderItem per cart entry and records the order in the
      session; the cart is left in place. The post_save receiver runs on both
      saves: on the first the order has no items, on the second it is no
      creation, so no sold count changes. newId is the primary key the
      database assigns. */
  method OrderCreate(viewer: Viewer, isPost: bool, post: map<string, string>, cart: seq<CartEntry>, session: Session,
                     newId: nat, slugify: string -> string)
    returns (resp: Response, order: Option<Order>)
    requires session.Valid()
    modifies session
    ensures session.Valid()
    ensures viewer.Anonymous? ==> resp == Redirect(LoginRoute) && order.None? && session.data == old(session.data)
    ensures viewer.Authenticated? && !(isPost && CleanOrderForm(post).Ok?) ==>
      resp == Render(OrderCreatePage) && order.None? && session.data == old(session.data)
    ensures viewer.Authenticated? && isPost && CleanOrderForm(post).Ok? ==>
      && resp == Redirect(PaymentRequestRoute)
      && order.Some? && fresh(order.value)
      && order.value.id == newId && order.value.contact == CleanOrderForm(post).value
      && order.value.buyer == Some(viewer.user)
      && order.value.items == Snapshot(cart)
      && !order.value.paid && order.value.refId == "" && order.value.discount == 0
      && session.data == old(session.data)["order_id" := OrderRef(newId)]
    ensures forall e :: e in cart ==> e.product.soldCount == old(e.product.soldCount)
  {
    order := None;
    if viewer.Anonymous? {
      return Redirect(LoginRoute), None;
    }
    if !isPost {
      return Render(OrderCreatePage), None;
    }
    var form := CleanOrderForm(post);
    if form.Err? {
      return Render(OrderCreatePage), None;
    }
    var o := PlaceOrder(viewer.user, form.value, cart, newId, slugify);
    session.data := session.data["order_id" := OrderRef(o.id)];
    resp, order := Redirect(PaymentRequestRoute), Some(o);
  }

  // ---------------------------------------------------------------------------
  // The payment gateway
  // ---------------------------------------------------------------------------

  /** What the gateway does with a POST: answer with an HTTP status, the
      Status field of its JSON body and the Authority (for a payment request)
      or RefID (for a verification) field, each None when the body lacks it;
      or time out; or fail to connect. */
  datatype GatewayReply =
    | HttpReply(statusCode: int, status: Option<int>, key: Option<string>)
    | GatewayTimeout
    | GatewayConnectionError

  /** How both payment views read a reply: Accepted with the key when the
      gateway confirms, otherwise the response the view gives. The key is
      read before Status is compared, so a 200 reply without it raises
      KeyError whatever its status; so does one without Status. */
  datatype Outcome = Answer(response: Response) | Accepted(key: string)

  function GatewayOutcome(reply: GatewayReply): Outcome {
    match reply
    case GatewayTimeout => Answer(Body(TimeoutError))
    case GatewayConnectionError => Answer(Body(ConnectionError))
    case HttpReply(code, status, key) =>
      if code != 200 then Answer(Body(ResponseFailed))
      else if key.None? || status.None? then Answer(Crash(KeyError))
      else if status.value == 100 then Accepted(key.value)
      else Answer(Body(GatewayError))
  }

  /** The gateway confirms exactly when it answers 200 with Status 100 and
      the key; every failure kind has its own response. */
  lemma GatewayOutcomeCases(reply: GatewayReply)
    ensures GatewayOutcome(reply).Accepted? <==> reply.HttpReply? && reply.statusCode == 200 && reply.status == Some(100) && reply.key.Some?
    ensures GatewayOutcome(reply).Accepted? ==> GatewayOutcome(reply).key == reply.key.value
    ensures GatewayOutcome(reply) == Answer(Body(ResponseFailed)) <==> reply.HttpReply? && reply.statusCode != 200
    ensures GatewayOutcome(reply) == Answer(Crash(KeyError)) <==>
              reply.HttpReply? && reply.statusCode == 200 && (reply.key.None? || reply.status.None?)
    ensures GatewayOutcome(reply) == Answer(Body(GatewayError)) <==>
              reply.HttpReply? && reply.statusCode == 200 && reply.key.Some? && reply.status.Some? && reply.status.value != 100
    ensures GatewayOutcome(reply) == Answer(Body(TimeoutError)) <==> reply == GatewayTimeout
    ensures GatewayOutcome(reply) == Answer(Body(ConnectionError)) <==> reply == GatewayConnectionError
  {
  }

  /** Order.objects.get(id=request.session["order_id"]). */
  function LookupOrder(data: map<string, SessionValue>, orders: map<nat, Order>): (r: Result<Order, PyError>)
    ensures r.Ok? <==> "order_id" in data && data["order_id"].OrderRef? && data["order_id"].id in orders
    ensures r.Ok? ==> r.value == orders[data["order_id"].id]
    ensures "order_id" !in data ==> r == Err(KeyError)
  {
    if "order_id" !in data then Err(KeyError)
    else match data["order_id"]
      case Text(_) => Err(ValueError)
      case OrderRef(id) => if id in orders then Ok(orders[id]) else Err(DoesNotExist)
  }

  // ---------------------------------------------------------------------------
  // send_request
  // ---------------------------------------------------------------------------

  /** The payment description: every item's product name followed by ", ". */
  function Description(items: seq<OrderItem>): string {
    if items == [] then ""
    else Description(items[..|items| - 1]) + items[|items| - 1].product.name + ", "
  }

  /** The description of a concatenation is the concatenation of the
      descriptions, so names appear in item order, each followed by ", ". */
  lemma {:induction false} DescriptionConcat(a: seq<OrderItem>, b: seq<OrderItem>)
    ensures Description(a + b) == Description(a) + Description(b)
  {
    if b == [] {
      assert a + b == a;
    } else {
      assert (a + b)[..|a + b| - 1] == a + b[..|b| - 1];
      DescriptionConcat(a, b[..|b| - 1]);
    }
  }

  lemma DescriptionOfOne(item: OrderItem)
    ensures Description([item]) == item.product.name + ", "
  {
    assert [item][..0] == [];
  }

  /** The JSON payload send_request posts, without the fixed merchant id and
      callback URL. */
  datatype PaymentRequest = PaymentRequest(amount: real, description: string, phone: string)

  /** send_request(request). Any failure to find the order answers "error".
      request.user.phone raises AttributeError for an anonymous visitor.
      The view changes nothing; it returns its response and the request it
      posted to the gateway, if it got that far. */
  method SendRequest(viewer: Viewer, session: Session, orders: map<nat, Order>, reply: GatewayReply)
    returns (resp: Response, sent: Option<PaymentRequest>)
    ensures LookupOrder(session.data, orders).Err? ==> resp == Body(LookupFailed) && sent.None?
    ensures LookupOrder(session.data, orders).Ok? && viewer.Anonymous? ==> resp == Crash(AttributeError) && sent.None?
    ensures LookupOrder(session.data, orders).Ok? && viewer.Authenticated? ==>
      var order := LookupOrder(session.data, orders).value;
      && sent == Some(PaymentRequest(FinalCost(order.items, order.discount), Description(order.items), viewer.user.phone))
      && resp == (match GatewayOutcome(reply) case Accepted(authority) => StartPay(authority) case Answer(r) => r)
  {
    var lookup := LookupOrder(session.data, orders);
    if lookup.Err? {
      return Body(LookupFailed), None;
    }
    var order := lookup.value;
    var items := order.items;
    var description := "";
    var i := 0;
    while i < |items|
      invariant 0 <= i <= |items|
      invariant description == Description(items[..i])
    {
      assert items[..i + 1][..i] == items[..i];
      description := description + items[i].product.name + ", ";
      i := i + 1;
    }
    assert items[..i] == items;
    var amount := FinalCost(order.items, order.discount);
    if viewer.Anonymous? {
      return Crash(AttributeError), None;
    }
    sent := Some(PaymentRequest(amount, description, viewer.user.phone));
    match GatewayOutcome(reply)
    case Accepted(authority) => resp := StartPay(authority);
    case Answer(r) => resp := r;
  }

  // ---------------------------------------------------------------------------
  // verify: loyalty points
  // ---------------------------------------------------------------------------

  /** The loyalty bracket chain of verify over the order's total cost. The
      bounds at 10,000,000 are strict on both sides, so exactly that total
      falls through to the final branch. */
  function LoyaltyPoints(total: real): nat {
    if 0.0 < total <= 100000.0 then 10
    else if 100000.0 < total <= 500000.0 then 20
    else if 500000.0 < total <= 2000000.0 then 30
    else if 2000000.0 < total < 10000000.0 then 40
    else if 10000000.0 < total then 60
    else 0
  }

  /** Each bracket, as a condition on the total that is both necessary and
      sufficient for its number of points. */
  lemma LoyaltyBrackets(total: real)
    ensures LoyaltyPoints(total) == 10 <==> 0.0 < total <= 100000.0
    ensures LoyaltyPoints(total) == 20 <==> 100000.0 < total <= 500000.0
    ensures LoyaltyPoints(total) == 30 <==> 500000.0 < total <= 2000000.0
    ensures LoyaltyPoints(total) == 40 <==> 2000000.0 < total < 10000000.0
    ensures LoyaltyPoints(total) == 60 <==> 10000000.0 < total
    ensures LoyaltyPoints(total) == 0 <==> total <= 0.0 || total == 10000000.0
  {
  }

  lemma LoyaltyBoundaries()
    ensures LoyaltyPoints(100000.0) == 10 && LoyaltyPoints(100001.0) == 20
    ensures LoyaltyPoints(9999999.0) == 40 && LoyaltyPoints(10000000.0) == 0 && LoyaltyPoints(10000001.0) == 60
    ensures LoyaltyPoints(0.0) == 0 && LoyaltyPoints(-1.0) == 0
  {
  }

  /** `request.user.loyalty_points += n` as written: ShopUser has no such
      attribute, so reading it raises AttributeError for every logged-in
      buyer; an anonymous one never reaches the line. */
  function LoyaltyAsWritten(viewer: Viewer): (r: Result<(), PyError>)
    ensures viewer.Authenticated? ==> r == Err(AttributeError)
    ensures viewer.Anonymous? ==> r.Ok?
  {
    if viewer.Anonymous? || "loyalty_points" in ShopUserAttributes then Ok(()) else Err(AttributeError)
  }

  /** The loyalty step as meant, on the counter the model adds to ShopUser. */
  method AccrueLoyalty(user: ShopUser, total: real)
    modifies user`loyaltyPoints
    ensures user.loyaltyPoints == old(user.loyaltyPoints) + LoyaltyPoints(total)
  {
    if 0.0 < total <= 100000.0 {
      user.loyaltyPoints := user.loyaltyPoints + 10;
    } else if 100000.0 < total <= 500000.0 {
      user.loyaltyPoints := user.loyaltyPoints + 20;
    } else if 500000.0 < total <= 2000000.0 {
      user.loyaltyPoints := user.loyaltyPoints + 30;
    } else if 2000000.0 < total < 10000000.0 {
      user.loyaltyPoints := user.loyaltyPoints + 40;
    } else if 10000000.0 < total {
      user.loyaltyPoints := user.loyaltyPoints + 60;
    } else {
      user.loyaltyPoints := user.loyaltyPoints + 0;
    }
  }

  // ---------------------------------------------------------------------------
  // verify: settlement
  // ---------------------------------------------------------------------------

  /** Every product has at least the quantity the order takes of it. */
  ghost predicate EnoughStock(items: seq<OrderItem>)
    reads ProductsOf(items)
  {
    forall p :: p in ProductsOf(items) ==> p.inventory >= QuantityOf(items, p)
  }

  /** What the inventory loop leaves after its first k lines: each product
      is down by what those lines take of it, and the products they refer to
      have been saved. */
  twostate predicate InventoryTaken(items: seq<OrderItem>, k: nat, slugify: string -> string)
    requires k <= |items|
    reads ProductsOf(items)
  {
    forall p :: p in ProductsOf(items) ==>
      && p.inventory == old(p.inventory) - QuantityOf(items[..k], p)
      && if p in ProductsOf(items[..k]) then SavedPricing(p, slugify) else PricingKept(p)
  }

  /** One line of the inventory loop: `product.inventory -= quantity`
      and `product.save()`. The write is refused with IntegrityError when it
      would make the stock negative (inventory is a PositiveIntegerField) or
      when the discounted price is refused (see Product.Storable); the row
      then stays as it was. */
  method TakeLine(product: Product, quantity: nat, slugify: string -> string) returns (ok: bool)
    modifies product`inventory, product`slug, product`discountedPrice
    ensures ok <==> old(product.inventory) >= quantity && product.Storable()
    ensures ok ==> product.inventory == old(product.inventory) - quantity && SavedPricing(product, slugify)
    ensures !ok ==> unchanged(product)
  {
    if product.inventory < quantity {
      return false;
    }
    product.inventory := product.inventory - quantity;
    ok := product.Save(slugify);
    if !ok {
      product.inventory := product.inventory + quantity;
    }
  }

  /** The loop itself: it stops at the first line whose write would be
      refused, or at |items| when there is none. A refused write changes no
      row, so the loop tests the two column checks before it writes. Up to
      the stop every product was stored and had the stock those earlier
      lines took. */
  method TakeLines(items: seq<OrderItem>, slugify: string -> string) returns (stop: nat)
    modifies ProductsOf(items)`inventory, ProductsOf(items)`slug, ProductsOf(items)`discountedPrice
    ensures stop <= |items| && InventoryTaken(items, stop, slugify) && AllStorable(items[..stop])
    ensures forall p :: p in ProductsOf(items) ==> old(p.inventory) >= QuantityOf(items[..stop], p)
    ensures stop < |items| ==>
      var p := items[stop].product;
      p.inventory < items[stop].quantity || !p.Storable()
  {
    var i := 0;
    while i < |items|
      invariant 0 <= i <= |items|
      invariant AllStorable(items[..i])
      invariant forall p :: p in ProductsOf(items) ==> old(p.inventory) >= QuantityOf(items[..i], p)
      invariant InventoryTaken(items, i, slugify)
    {
      var item := items[i];
      var product := item.product;
      assert product in ProductsOf(items);
      ProductsOfPrefix(items, i);
      SavedSlugIdempotent(old(product.slug), product.name, slugify);
      if product.inventory < item.quantity || !product.Storable() {
        return i;
      }
      label step:
      var taken := TakeLine(product, item.quantity, slugify);
      forall p | p in ProductsOf(items)
        ensures old(p.inventory) >= QuantityOf(items[..i + 1], p)
        ensures p.inventory == old(p.inventory) - QuantityOf(items[..i + 1], p)
        ensures if p in ProductsOf(items[..i + 1]) then SavedPricing(p, slugify) else PricingKept(p)
      {
        QuantityOfStep(items, i, p);
        if p != product {
          assert p.inventory == old@step(p.inventory) && p.slug == old@step(p.slug);
          assert p.discountedPrice == old@step(p.discountedPrice);
        } else {
          assert p in ProductsOf(items[..i + 1]);
          assert old@step(p.slug) == old(p.slug) || old@step(p.slug) == SavedSlug(old(p.slug), p.name, slugify);
        }
      }
      i := i + 1;
    }
    return i;
  }

  /** The inventory loop of verify: each line takes its quantity off its
      product and saves it (TakeLine). The first line whose write is refused
      (failedAt) raises IntegrityError: nothing is rolled back, so the lines
      before it keep their decrements. The loop gets through every line
      exactly when there was enough stock for the whole order and every
      product can be stored. */
  method TakeInventory(items: seq<OrderItem>, slugify: string -> string) returns (ok: bool, ghost failedAt: nat)
    modifies ProductsOf(items)`inventory, ProductsOf(items)`slug, ProductsOf(items)`discountedPrice
    ensures ok <==> old(EnoughStock(items)) && AllStorable(items)
    ensures ok ==> forall p :: p in ProductsOf(items) ==>
      p.inventory == old(p.inventory) - QuantityOf(items, p) && SavedPricing(p, slugify)
    ensures !ok ==>
      && failedAt < |items| && InventoryTaken(items, failedAt, slugify)
      && AllStorable(items[..failedAt])
      && (old(items[failedAt].product.inventory) < QuantityOf(items[..failedAt + 1], items[failedAt].product)
          || !items[failedAt].product.Storable())
  {
    var stop := TakeLines(items, slugify);
    ok, failedAt := stop == |items|, stop;
    if ok {
      assert items[..failedAt] == items;
    } else {
      var product := items[failedAt].product;
      assert product in ProductsOf(items);
      QuantityOfStep(items, failedAt, product);
      if product.Storable() {
        QuantityOfPrefix(items, failedAt + 1, product);
        assert !old(EnoughStock(items));
      } else {
        assert !AllStorable(items);
      }
    }
  }

  /** The settling branch of verify once the gateway has confirmed with
      refId (the coupon block is not modelled): the buyer's points grow by
      the bracket of the total cost and the buyer is saved, which an
      anonymous visitor's AnonymousUser refuses with NotImplementedError;
      then every line takes its quantity off its product's inventory and
      saves the product (TakeInventory); then the order is marked paid with
      the reference id. When a product's write is refused the request ends
      in IntegrityError at line failedAt: nothing is rolled back, the lines
      before it keep their decrements and the points stay. There is no test
      of order.paid. */
  method Settle(order: Order, viewer: Viewer, refId: string, slugify: string -> string)
    returns (resp: Response, ghost failedAt: nat)
    modifies order`paid, order`refId, ViewerObjects(viewer)`loyaltyPoints
    modifies ProductsOf(order.items)`inventory, ProductsOf(order.items)`slug, ProductsOf(order.items)`discountedPrice
    ensures viewer.Authenticated? ==>
      viewer.user.loyaltyPoints == old(viewer.user.loyaltyPoints) + LoyaltyPoints(TotalCost(order.items, order.discount))
    ensures viewer.Anonymous? ==>
      && resp == Crash(NotImplementedError) && order.paid == old(order.paid) && order.refId == old(order.refId)
      && forall p :: p in ProductsOf(order.items) ==> p.inventory == old(p.inventory) && PricingKept(p)
    ensures viewer.Authenticated? && old(EnoughStock(order.items)) && AllStorable(order.items) ==>
      && resp == Body(Successful(refId)) && order.paid && order.refId == refId
      && forall p :: p in ProductsOf(order.items) ==>
           p.inventory == old(p.inventory) - QuantityOf(order.items, p) && SavedPricing(p, slugify)
    ensures viewer.Authenticated? && !(old(EnoughStock(order.items)) && AllStorable(order.items)) ==>
      && resp == Crash(IntegrityError) && order.paid == old(order.paid) && order.refId == old(order.refId)
      && failedAt < |order.items| && InventoryTaken(order.items, failedAt, slugify)
  {
    failedAt := 0;
    if viewer.Anonymous? {
      return Crash(NotImplementedError), 0;
    }
    AccrueLoyalty(viewer.user, TotalCost(order.items, order.discount));
    var ok;
    ok, failedAt := TakeInventory(order.items, slugify);
    if !ok {
      return Crash(IntegrityError), failedAt;
    }
    order.paid := true;
    order.refId := refId;
    resp := Body(Successful(refId));
  }

  /** The order verify works on, if the lookup succeeds. */
  function TargetOrder(data: map<string, SessionValue>, orders: map<nat, Order>): set<Order> {
    if LookupOrder(data, orders).Ok? then {LookupOrder(data, orders).value} else {}
  }

  /** The products of that order's lines. */
  function TargetProducts(data: map<string, SessionValue>, orders: map<nat, Order>): set<Product>
    reads TargetOrder(data, orders)
  {
    if LookupOrder(data, orders).Ok? then ProductsOf(LookupOrder(data, orders).value.items) else {}
  }

  /** The JSON payload verify posts, without the fixed merchant id. */
  datatype VerifyRequest = VerifyRequest(amount: real, authority: Option<string>)

  /** The start of verify(request): look the order up, then compute the
      amount by calling the named price method of the order. */
  function VerifyPayload(data: map<string, SessionValue>, orders: map<nat, Order>, authority: Option<string>, amountMethod: string)
    : (r: Result<VerifyRequest, PyError>)
    reads TargetOrder(data, orders)
    ensures r.Ok? <==> LookupOrder(data, orders).Ok? && amountMethod in OrderCostMethods
    ensures LookupOrder(data, orders).Err? ==> r == Err(LookupOrder(data, orders).error)
    ensures LookupOrder(data, orders).Ok? && amountMethod !in OrderCostMethods ==> r == Err(AttributeError)
    ensures r.Ok? ==> r.value.authority == authority
  {
    match LookupOrder(data, orders)
    case Err(e) => Err(e)
    case Ok(order) =>
      match CostMethod(order.items, order.discount, amountMethod)
      case Err(e) => Err(e)
      case Ok(amount) => Ok(VerifyRequest(amount, authority))
  }

  /** verify(request) as written: the amount is order.get_final_price(),
      a name Order does not define, so no request reaches the gateway; one
      that finds its order ends in AttributeError. */
  function VerifyAsWritten(data: map<string, SessionValue>, orders: map<nat, Order>, authority: Option<string>)
    : (r: Result<VerifyRequest, PyError>)
    reads TargetOrder(data, orders)
    ensures r.Err?
    ensures LookupOrder(data, orders).Ok? ==> r == Err(AttributeError)
    ensures LookupOrder(data, orders).Err? ==> r == Err(LookupOrder(data, orders).error)
  {
    VerifyPayload(data, orders, authority, "get_final_price")
  }

  /** With the method Order does define, every request whose order is found
      is sent with the final cost as its amount; the name as written sends
      none. */
  lemma AmountMethodMatters(data: map<string, SessionValue>, orders: map<nat, Order>, authority: Option<string>)
    requires LookupOrder(data, orders).Ok?
    ensures VerifyAsWritten(data, orders, authority) == Err(AttributeError)
    ensures var order := LookupOrder(data, orders).value;
      VerifyPayload(data, orders, authority, "get_final_cost") == Ok(VerifyRequest(FinalCost(order.items, order.discount), authority))
  {
  }

  /** verify(request) with the amount taken from get_final_cost, the method
      Order does define. A missing order_id raises KeyError and an unknown
      order DoesNotExist (there is no try around the lookup). A reply other
      than a confirmation changes nothing; a confirmation settles as Settle
      describes, without looking at order.paid. */
  method Verify(viewer: Viewer, session: Session, orders: map<nat, Order>, authority: Option<string>, reply: GatewayReply,
                slugify: string -> string)
    returns (resp: Response, sent: Option<VerifyRequest>, ghost failedAt: nat)
    modifies TargetOrder(session.data, orders)`paid, TargetOrder(session.data, orders)`refId, ViewerObjects(viewer)`loyaltyPoints
    modifies TargetProducts(session.data, orders)`inventory, TargetProducts(session.data, orders)`slug
    modifies TargetProducts(session.data, orders)`discountedPrice
    ensures LookupOrder(session.data, orders).Err? ==> resp == Crash(LookupOrder(session.data, orders).error) && sent.None?
    ensures LookupOrder(session.data, orders).Ok? ==>
      var order := LookupOrder(session.data, orders).value;
      sent == Some(VerifyRequest(FinalCost(order.items, order.discount), authority))
    ensures LookupOrder(session.data, orders).Ok? && GatewayOutcome(reply).Answer? ==>
      var order := LookupOrder(session.data, orders).value;
      && resp == GatewayOutcome(reply).response
      && order.paid == old(order.paid) && order.refId == old(order.refId)
      && (forall p :: p in ProductsOf(order.items) ==> p.inventory == old(p.inventory) && PricingKept(p))
      && (viewer.Authenticated? ==> viewer.user.loyaltyPoints == old(viewer.user.loyaltyPoints))
    ensures LookupOrder(session.data, orders).Ok? && GatewayOutcome(reply).Accepted? && viewer.Authenticated? ==>
      var order := LookupOrder(session.data, orders).value;
      viewer.user.loyaltyPoints == old(viewer.user.loyaltyPoints) + LoyaltyPoints(TotalCost(order.items, order.discount))
    ensures LookupOrder(session.data, orders).Ok? && GatewayOutcome(reply).Accepted? && viewer.Authenticated?
            && old(EnoughStock(LookupOrder(session.data, orders).value.items))
            && AllStorable(LookupOrder(session.data, orders).value.items) ==>
      var order := LookupOrder(session.data, orders).value;
      && resp == Body(Successful(GatewayOutcome(reply).key))
      && order.paid && order.refId == GatewayOutcome(reply).key
      && forall p :: p in ProductsOf(order.items) ==>
           p.inventory == old(p.inventory) - QuantityOf(order.items, p) && SavedPricing(p, slugify)
    ensures LookupOrder(session.data, orders).Ok? && GatewayOutcome(reply).Accepted? && viewer.Authenticated?
            && !(old(EnoughStock(LookupOrder(session.data, orders).value.items))
                 && AllStorable(LookupOrder(session.data, orders).value.items)) ==>
      var order := LookupOrder(session.data, orders).value;
      && resp == Crash(IntegrityError) && order.paid == old(order.paid) && order.refId == old(order.refId)
      && failedAt < |order.items| && InventoryTaken(order.items, failedAt, slugify)
    ensures LookupOrder(session.data, orders).Ok? && GatewayOutcome(reply).Accepted? && viewer.Anonymous? ==>
      var order := LookupOrder(session.data, orders).value;
      && resp == Crash(NotImplementedError) && order.paid == old(order.paid) && order.refId == old(order.refId)
      && forall p :: p in ProductsOf(order.items) ==> p.inventory == old(p.inventory) && PricingKept(p)
  {
    failedAt := 0;
    var payload := VerifyPayload(session.data, orders, authority, "get_final_cost");
    if payload.Err? {
      return Crash(payload.error), None, 0;
    }
    var order := LookupOrder(session.data, orders).value;
    sent := Some(payload.value);
    match GatewayOutcome(reply)
    case Answer(r) =>
      resp := r;
    case Accepted(refId) =>
      resp, failedAt := Settle(order, viewer, refId, slugify);
  }

  /** One confirmed verify request for a found order whose stock suffices
      and whose products can all be stored, with what Verify promises then. */
  method VerifyConfirmed(viewer: Viewer, session: Session, orders: map<nat, Order>, authority: Option<string>,
                         reply: GatewayReply, slugify: string -> string)
    returns (resp: Response)
    requires LookupOrder(session.data, orders).Ok? && viewer.Authenticated? && GatewayOutcome(reply).Accepted?
    requires EnoughStock(LookupOrder(session.data, orders).value.items)
    requires AllStorable(LookupOrder(session.data, orders).value.items)
    modifies TargetOrder(session.data, orders)`paid, TargetOrder(session.data, orders)`refId, ViewerObjects(viewer)`loyaltyPoints
    modifies TargetProducts(session.data, orders)`inventory, TargetProducts(session.data, orders)`slug
    modifies TargetProducts(session.data, orders)`discountedPrice
    ensures var order := LookupOrder(session.data, orders).value;
      && resp == Body(Successful(GatewayOutcome(reply).key))
      && order.paid && order.refId == GatewayOutcome(reply).key
      && viewer.user.loyaltyPoints == old(viewer.user.loyaltyPoints) + LoyaltyPoints(TotalCost(order.items, order.discount))
      && forall p :: p in ProductsOf(order.items) ==> p.inventory == old(p.inventory) - QuantityOf(order.items, p)
  {
    var sent;
    ghost var failedAt;
    resp, sent, failedAt := Verify(viewer, session, orders, authority, reply, slugify);
  }

  /** Two confirmed verify requests for one order, as a repeated gateway
      callback produces, each with its own reference id. Nothing stops the
      second: with stock for both, the inventory is taken twice, the points
      are added twice, and the second reference id overwrites the first. */
  method VerifyTwice(viewer: Viewer, session: Session, orders: map<nat, Order>, authority: Option<string>,
                     reply1: GatewayReply, reply2: GatewayReply, slugify: string -> string)
    returns (first: Response, second: Response)
    requires LookupOrder(session.data, orders).Ok? && viewer.Authenticated?
    requires GatewayOutcome(reply1).Accepted? && GatewayOutcome(reply2).Accepted?
    requires AllStorable(LookupOrder(session.data, orders).value.items)
    requires forall p :: p in TargetProducts(session.data, orders) ==>
      p.inventory >= 2 * QuantityOf(LookupOrder(session.data, orders).value.items, p)
    modifies TargetOrder(session.data, orders)`paid, TargetOrder(session.data, orders)`refId, ViewerObjects(viewer)`loyaltyPoints
    modifies TargetProducts(session.data, orders)`inventory, TargetProducts(session.data, orders)`slug
    modifies TargetProducts(session.data, orders)`discountedPrice
    ensures var order := LookupOrder(session.data, orders).value;
      && first == Body(Successful(GatewayOutcome(reply1).key))
      && second == Body(Successful(GatewayOutcome(reply2).key))
      && order.paid && order.refId == GatewayOutcome(reply2).key
      && viewer.user.loyaltyPoints == old(viewer.user.loyaltyPoints) + 2 * LoyaltyPoints(TotalCost(order.items, order.discount))
      && forall p :: p in ProductsOf(order.items) ==> p.inventory == old(p.inventory) - 2 * QuantityOf(order.items, p)
  {
    var order := LookupOrder(session.data, orders).value;
    first := VerifyConfirmed(viewer, session, orders, authority, reply1, slugify);
    second := VerifyConfirmed(viewer, session, orders, authority, reply2, slugify);
  }
}
