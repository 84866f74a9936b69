/**
 * The payment controller: creating a gateway order for a product purchase, a service booking or
 * a subscription, verifying a payment the gateway reports, and cancelling an order.
 *
 * Money is an integer number of paise (hundredths of a rupee); the gateway reports amounts in
 * paise as well, so the controller's `Math.round(amount * 100)` is the order's amount itself.
 */
module PaymentGateway {
  import opened Common
  import opened Records

  datatype Purpose = SERVICE_BOOKING | PRODUCT_PURCHASE | SUBSCRIPTION | OTHER
  datatype OrderStatus = OrderPending | OrderSuccess | OrderCancelled
  datatype SubscriptionStatus = SubscriptionPending | Confirmed | SubscriptionCancelled

  datatype OrderItem = OrderItem(productId: string, quantity: int, price: int, subtotal: int)

  /** A payment order; the store keys it by the gateway's order id. */
  datatype PaymentOrder = PaymentOrder(
    amount: int, userId: string, purpose: Purpose, status: OrderStatus,
    bookingId: Option<string>, subscriptionId: Option<string>, items: seq<OrderItem>)

  /** A recorded payment; `orderId` is the gateway order id of its order. */
  datatype PaymentTransaction = PaymentTransaction(
    orderId: string, paymentId: string, signature: string, status: string,
    paymentMethod: Option<string>, amountPaid: int, capturedAt: int)

  datatype Product = Product(price: int, inventory: int)
  datatype Subscription = Subscription(userId: string, planId: string, status: SubscriptionStatus)
  datatype ServiceDefinition = ServiceDefinition(price: Option<int>)
  datatype SubscriptionPlan = SubscriptionPlan(price: int)

  /** The request bodies. */
  datatype RequestedItem = RequestedItem(productId: string, quantity: Option<int>)
  datatype OrderPayload = OrderPayload(
    paymentFor: string, serviceId: Option<string>, subscriptionPlanId: Option<string>,
    products: Option<seq<RequestedItem>>)
  datatype VerifyRequest = VerifyRequest(orderId: Option<string>, paymentId: Option<string>, signature: Option<string>)

  /** What the gateway reports for a payment id. */
  datatype GatewayPayment = GatewayPayment(amount: int, status: string, paymentMethod: Option<string>)

  datatype Pricing = Priced(items: seq<OrderItem>, total: int) | PricingFailed(code: int, error: string)
  datatype CreateReply = OrderCreated(orderId: string, order: PaymentOrder) | CreateFailed(code: int, error: string)
  datatype VerifyReply =
    | PaymentVerified(message: string, transaction: PaymentTransaction)
    | VerifyFailed(code: int, message: string)
  datatype CancelReply = Cancelled | CancelFailed(code: int, error: string)

  /** The rows a capture or a cancellation touches besides the order itself. */
  datatype Rows = Rows(
    products: map<string, Product>, bookings: map<string, ServiceBooking>,
    subscriptions: map<string, Subscription>)

  // ---------------------------------------------------------------- order creation, pure part

  /** The `switch (paymentFor)`: the three accepted purposes; anything else is refused. */
  function PurposeFor(paymentFor: string): (p: Option<Purpose>)
    ensures p.Some? <==> paymentFor in {"PRODUCT", "SERVICE", "SUBSCRIPTION"}
    ensures p != Some(OTHER)
    ensures p == Some(PRODUCT_PURCHASE) <==> paymentFor == "PRODUCT"
    ensures p == Some(SERVICE_BOOKING) <==> paymentFor == "SERVICE"
    ensures p == Some(SUBSCRIPTION) <==> paymentFor == "SUBSCRIPTION"
  {
    match paymentFor
    case "PRODUCT" => Some(PRODUCT_PURCHASE)
    case "SERVICE" => Some(SERVICE_BOOKING)
    case "SUBSCRIPTION" => Some(SUBSCRIPTION)
    case _ => None
  }

  /** A missing, zero or negative quantity counts as one. */
  function ItemQuantity(q: Option<int>): (n: int)
    ensures n >= 1
    ensures q.Some? && q.value > 0 ==> n == q.value
  {
    if q.Some? && q.value > 0 then q.value else 1
  }

  predicate AllKnown(reqs: seq<RequestedItem>, catalog: map<string, Product>)
  {
    forall k :: 0 <= k < |reqs| ==> reqs[k].productId in catalog
  }

  predicate NoneKnown(reqs: seq<RequestedItem>, catalog: map<string, Product>)
  {
    forall k :: 0 <= k < |reqs| ==> reqs[k].productId !in catalog
  }

  /** Every line has a positive quantity and its subtotal is its price times its quantity. */
  predicate WellPriced(items: seq<OrderItem>)
  {
    forall k :: 0 <= k < |items| ==>
      items[k].quantity >= 1 && items[k].subtotal == items[k].price * items[k].quantity
  }

  function LineItem(req: RequestedItem, product: Product): OrderItem
  {
    var quantity := ItemQuantity(req.quantity);
    OrderItem(req.productId, quantity, product.price, product.price * quantity)
  }

  /** The order lines for the requested products, in request order, priced from the catalog. */
  function LineItems(reqs: seq<RequestedItem>, catalog: map<string, Product>): (items: seq<OrderItem>)
    requires AllKnown(reqs, catalog)
    ensures |items| == |reqs|
    ensures WellPriced(items)
  {
    if reqs == [] then []
    else
      var last := reqs[|reqs| - 1];
      LineItems(reqs[..|reqs| - 1], catalog) + [LineItem(last, catalog[last.productId])]
  }

  /** Line `k` is request `k`, priced from the catalog. */
  lemma {:induction false} LineItemsAt(reqs: seq<RequestedItem>, catalog: map<string, Product>, k: nat)
    requires AllKnown(reqs, catalog) && k < |reqs|
    ensures LineItems(reqs, catalog)[k] == LineItem(reqs[k], catalog[reqs[k].productId])
  {
    if k < |reqs| - 1 {
      LineItemsAt(reqs[..|reqs| - 1], catalog, k);
    }
  }

  /** The sum of the lines' subtotals. */
  function ItemsTotal(items: seq<OrderItem>): int
  {
    if items == [] then 0 else ItemsTotal(items[..|items| - 1]) + items[|items| - 1].subtotal
  }

  predicate UnknownProduct(catalog: map<string, Product>, req: RequestedItem)
  {
    req.productId !in catalog
  }

  /** The first requested product the catalog does not hold. */
  function FirstUnknown(reqs: seq<RequestedItem>, catalog: map<string, Product>): (r: Option<nat>)
    ensures r.Some? ==> r.value < |reqs| && UnknownProduct(catalog, reqs[r.value])
    ensures r.Some? ==> forall j :: 0 <= j < r.value ==> !UnknownProduct(catalog, reqs[j])
    ensures r.None? <==> AllKnown(reqs, catalog)
  {
    FirstIndex(reqs, (req: RequestedItem) => UnknownProduct(catalog, req))
  }

  /** The product-purchase branch of order creation: the lines and the total, or the refusal. */
  function ProductPricing(products: Option<seq<RequestedItem>>, catalog: map<string, Product>): (r: Pricing)
    ensures r.Priced? <==> products.Some? && products.value != [] && AllKnown(products.value, catalog)
    ensures r.Priced? ==> r.items == LineItems(products.value, catalog) && r.total == ItemsTotal(r.items)
    ensures r.Priced? ==> |r.items| == |products.value| > 0 && WellPriced(r.items)
    ensures products.None? || products.value == [] ==>
      r == PricingFailed(400, "Products array is required for product purchase")
    ensures r == PricingFailed(404, "No valid products found") <==>
      products.Some? && products.value != [] && NoneKnown(products.value, catalog)
  {
    if products.None? || products.value == [] then
      PricingFailed(400, "Products array is required for product purchase")
    else if NoneKnown(products.value, catalog) then
      assert UnknownProduct(catalog, products.value[0]);
      PricingFailed(404, "No valid products found")
    else
      match FirstUnknown(products.value, catalog)
      case Some(k) => PricingFailed(400, "Invalid product ID: " + products.value[k].productId)
      case None =>
        var items := LineItems(products.value, catalog);
        Priced(items, ItemsTotal(items))
  }

  /** When some but not all requested products exist, the refusal names the first unknown one. */
  lemma PricingNamesFirstUnknown(reqs: seq<RequestedItem>, catalog: map<string, Product>)
    requires !NoneKnown(reqs, catalog) && !AllKnown(reqs, catalog)
    ensures exists k :: (
      && 0 <= k < |reqs| && UnknownProduct(catalog, reqs[k])
      && (forall j :: 0 <= j < k ==> !UnknownProduct(catalog, reqs[j]))
      && ProductPricing(Some(reqs), catalog) == PricingFailed(400, "Invalid product ID: " + reqs[k].productId))
  {
    var k := FirstUnknown(reqs, catalog).value;
    assert ProductPricing(Some(reqs), catalog) == PricingFailed(400, "Invalid product ID: " + reqs[k].productId);
  }

  lemma LineItemsSnoc(reqs: seq<RequestedItem>, catalog: map<string, Product>, i: nat)
    requires i < |reqs| && forall j :: 0 <= j <= i ==> reqs[j].productId in catalog
    ensures AllKnown(reqs[..i], catalog) && AllKnown(reqs[..i + 1], catalog)
    ensures LineItems(reqs[..i + 1], catalog) ==
      LineItems(reqs[..i], catalog) + [LineItem(reqs[i], catalog[reqs[i].productId])]
  {
    assert reqs[..i + 1][..i] == reqs[..i];
  }

  lemma ItemsTotalSnoc(items: seq<OrderItem>, item: OrderItem)
    ensures ItemsTotal(items + [item]) == ItemsTotal(items) + item.subtotal
  {
    assert (items + [item])[..|items|] == items;
  }

  /** The pricing loop of order creation. */
  method PriceProducts(products: Option<seq<RequestedItem>>, catalog: map<string, Product>) returns (r: Pricing)
    ensures r == ProductPricing(products, catalog)
  {
    if products.None? || |products.value| == 0 {
      return PricingFailed(400, "Products array is required for product purchase");
    }
    var reqs := products.value;
    if NoneKnown(reqs, catalog) {
      return PricingFailed(404, "No valid products found");
    }
    var items: seq<OrderItem> := [];
    var total := 0;
    var i := 0;
    while i < |reqs|
      invariant 0 <= i <= |reqs|
      invariant forall j :: 0 <= j < i ==> reqs[j].productId in catalog
      invariant AllKnown(reqs[..i], catalog)
      invariant items == LineItems(reqs[..i], catalog)
      invariant total == ItemsTotal(items)
    {
      var item := reqs[i];
      if item.productId !in catalog {
        ghost var first := FirstUnknown(reqs, catalog);
        assert first.Some? && first.value == i;
        return PricingFailed(400, "Invalid product ID: " + item.productId);
      }
      var product := catalog[item.productId];
      var quantity := if item.quantity.Some? && item.quantity.value > 0 then item.quantity.value else 1;
      var subtotal := product.price * quantity;
      LineItemsSnoc(reqs, catalog, i);
      ItemsTotalSnoc(items, OrderItem(item.productId, quantity, product.price, subtotal));
      total := total + subtotal;
      items := items + [OrderItem(item.productId, quantity, product.price, subtotal)];
      i := i + 1;
    }
    assert reqs[..i] == reqs;
    r := Priced(items, total);
  }

  /** The price a service order is charged (`service.price ?? 0`). */
  function ServicePrice(service: ServiceDefinition): int
  {
    if service.price.Some? then service.price.value else 0
  }

  // ---------------------------------------------------------------- inventory

  /** How many units of product `id` the lines order in total. */
  function QuantityOf(items: seq<OrderItem>, id: string): int
  {
    if items == [] then 0
    else (if items[0].productId == id then items[0].quantity else 0) + QuantityOf(items[1..], id)
  }

  /** The capture loop: each line, in order, needs its product to exist and to hold at least the
      line's quantity, and then takes that quantity; a failing line aborts the whole capture. */
  function Captured(items: seq<OrderItem>, stock: map<string, Product>): (r: Option<map<string, Product>>)
    ensures r.Some? ==> r.value.Keys == stock.Keys
  {
    if items == [] then Some(stock)
    else
      var id, quantity := items[0].productId, items[0].quantity;
      if id !in stock || stock[id].inventory < quantity then None
      else Captured(items[1..], stock[id := stock[id].(inventory := stock[id].inventory - quantity)])
  }

  /** The restock loop of a cancellation: each line gives its quantity back; a line whose product
      no longer exists aborts the whole cancellation. */
  function Restocked(items: seq<OrderItem>, stock: map<string, Product>): (r: Option<map<string, Product>>)
    ensures r.Some? ==> r.value.Keys == stock.Keys
  {
    if items == [] then Some(stock)
    else
      var id, quantity := items[0].productId, items[0].quantity;
      if id !in stock then None
      else Restocked(items[1..], stock[id := stock[id].(inventory := stock[id].inventory + quantity)])
  }

  predicate StockNonNegative(stock: map<string, Product>)
  {
    forall id :: id in stock ==> stock[id].inventory >= 0
  }

  predicate QuantitiesNonNegative(items: seq<OrderItem>)
  {
    forall k :: 0 <= k < |items| ==> items[k].quantity >= 0
  }

  /** Every line's product exists and holds what all the lines together order of it. */
  predicate Stocked(items: seq<OrderItem>, stock: map<string, Product>)
  {
    forall k :: 0 <= k < |items| ==>
      items[k].productId in stock && stock[items[k].productId].inventory >= QuantityOf(items, items[k].productId)
  }

  lemma {:induction false} QuantityOfNonNegative(items: seq<OrderItem>, id: string)
    requires QuantitiesNonNegative(items)
    ensures QuantityOf(items, id) >= 0
  {
    if items != [] {
      assert QuantitiesNonNegative(items[1..]) by {
        forall k | 0 <= k < |items[1..]| ensures items[1..][k].quantity >= 0 {
          assert items[1..][k] == items[k + 1];
        }
      }
      QuantityOfNonNegative(items[1..], id);
    }
  }

  lemma {:induction false} QuantityOfAbsent(items: seq<OrderItem>, id: string)
    requires forall k :: 0 <= k < |items| ==> items[k].productId != id
    ensures QuantityOf(items, id) == 0
  {
    if items != [] {
      assert forall k :: 0 <= k < |items[1..]| ==> items[1..][k] == items[k + 1];
      QuantityOfAbsent(items[1..], id);
    }
  }

  /** A successful capture takes exactly the ordered quantity of every product, and only the
      ordered products' rows change. */
  lemma {:induction false} CapturedInventory(items: seq<OrderItem>, stock: map<string, Product>)
    requires Captured(items, stock).Some?
    ensures forall k :: 0 <= k < |items| ==> items[k].productId in stock
    ensures forall id :: id in stock ==>
      Captured(items, stock).value[id] == stock[id].(inventory := stock[id].inventory - QuantityOf(items, id))
  {
    if items != [] {
      var x, q := items[0].productId, items[0].quantity;
      var next := stock[x := stock[x].(inventory := stock[x].inventory - q)];
      CapturedInventory(items[1..], next);
      forall k | 0 <= k < |items| ensures items[k].productId in stock {
        if k > 0 { assert items[k] == items[1..][k - 1]; }
      }
      forall id | id in stock
        ensures Captured(items, stock).value[id] == stock[id].(inventory := stock[id].inventory - QuantityOf(items, id))
      {
        assert QuantityOf(items, id) == (if x == id then q else 0) + QuantityOf(items[1..], id);
      }
    }
  }

  /** A restock succeeds exactly when every line's product exists, and then gives back exactly the
      ordered quantity of every product. */
  lemma {:induction false} RestockedInventory(items: seq<OrderItem>, stock: map<string, Product>)
    ensures Restocked(items, stock).Some? <==> forall k :: 0 <= k < |items| ==> items[k].productId in stock
    ensures Restocked(items, stock).Some? ==> forall id :: id in stock ==>
      Restocked(items, stock).value[id] == stock[id].(inventory := stock[id].inventory + QuantityOf(items, id))
  {
    if items != [] {
      var x, q := items[0].productId, items[0].quantity;
      if x in stock {
        var next := stock[x := stock[x].(inventory := stock[x].inventory + q)];
        RestockedInventory(items[1..], next);
        assert forall k :: 0 <= k < |items[1..]| ==> items[1..][k] == items[k + 1];
        assert (forall k :: 0 <= k < |items| ==> items[k].productId in stock)
          <==> (forall k :: 0 <= k < |items[1..]| ==> items[1..][k].productId in next);
        if Restocked(items, stock).Some? {
          forall id | id in stock
            ensures Restocked(items, stock).value[id] == stock[id].(inventory := stock[id].inventory + QuantityOf(items, id))
          {
            assert QuantityOf(items, id) == (if x == id then q else 0) + QuantityOf(items[1..], id);
          }
        }
      }
    }
  }

  /** With no negative quantities, a capture succeeds exactly when the stock covers, product by
      product, everything the lines order. */
  lemma {:induction false} CaptureSucceedsIff(items: seq<OrderItem>, stock: map<string, Product>)
    requires QuantitiesNonNegative(items)
    ensures Captured(items, stock).Some? <==> Stocked(items, stock)
  {
    if items != [] {
      var x, q := items[0].productId, items[0].quantity;
      var rest := items[1..];
      assert forall k :: 0 <= k < |rest| ==> rest[k] == items[k + 1];
      assert QuantitiesNonNegative(rest);
      QuantityOfNonNegative(rest, x);
      assert QuantityOf(items, x) == q + QuantityOf(rest, x);
      if x in stock && stock[x].inventory >= q {
        var next := stock[x := stock[x].(inventory := stock[x].inventory - q)];
        CaptureSucceedsIff(rest, next);
        if Stocked(items, stock) {
          forall k | 0 <= k < |rest|
            ensures rest[k].productId in next && next[rest[k].productId].inventory >= QuantityOf(rest, rest[k].productId)
          {
            var y := rest[k].productId;
            assert items[k + 1].productId == y;
            assert QuantityOf(items, y) == (if y == x then q else 0) + QuantityOf(rest, y);
          }
        }
        if Stocked(rest, next) {
          forall k | 0 <= k < |items|
            ensures items[k].productId in stock && stock[items[k].productId].inventory >= QuantityOf(items, items[k].productId)
          {
            var y := items[k].productId;
            assert QuantityOf(items, y) == (if y == x then q else 0) + QuantityOf(rest, y);
            if k > 0 {
              assert rest[k - 1].productId == y;
            } else if exists j :: 0 <= j < |rest| && rest[j].productId == x {
              var j :| 0 <= j < |rest| && rest[j].productId == x;
              assert next[x].inventory >= QuantityOf(rest, x);
            } else {
              QuantityOfAbsent(rest, x);
            }
          }
        }
      }
    }
  }

  /** A capture never drives an inventory below zero. */
  lemma {:induction false} CaptureKeepsStockNonNegative(items: seq<OrderItem>, stock: map<string, Product>)
    requires StockNonNegative(stock)
    requires Captured(items, stock).Some?
    ensures StockNonNegative(Captured(items, stock).value)
  {
    if items != [] {
      var x, q := items[0].productId, items[0].quantity;
      CaptureKeepsStockNonNegative(items[1..], stock[x := stock[x].(inventory := stock[x].inventory - q)]);
    }
  }

  /** A restock of non-negative quantities keeps every inventory non-negative. */
  lemma RestockKeepsStockNonNegative(items: seq<OrderItem>, stock: map<string, Product>)
    requires StockNonNegative(stock) && QuantitiesNonNegative(items)
    requires Restocked(items, stock).Some?
    ensures StockNonNegative(Restocked(items, stock).value)
  {
    RestockedInventory(items, stock);
    forall id | id in stock ensures Restocked(items, stock).value[id].inventory >= 0 {
      QuantityOfNonNegative(items, id);
    }
  }

  /** Restocking the lines of a successful capture gives back the stock as it was before. */
  lemma RestockUndoesCapture(items: seq<OrderItem>, stock: map<string, Product>)
    requires Captured(items, stock).Some?
    ensures Restocked(items, Captured(items, stock).value) == Some(stock)
  {
    var taken := Captured(items, stock).value;
    CapturedInventory(items, stock);
    RestockedInventory(items, taken);
    assert taken.Keys == stock.Keys;
    var back := Restocked(items, taken).value;
    assert back.Keys == stock.Keys;
    assert forall id :: id in stock ==> back[id] == stock[id];
    assert back == stock;
  }

  /** Cancelling the same order twice gives its quantities back twice: nothing in the cancel path
      looks at the order's status. */
  lemma CancelTwiceRestocksTwice(items: seq<OrderItem>, stock: map<string, Product>)
    requires Restocked(items, stock).Some?
    ensures Restocked(items, Restocked(items, stock).value).Some?
    ensures forall id :: id in stock ==>
      Restocked(items, Restocked(items, stock).value).value[id].inventory ==
        stock[id].inventory + 2 * QuantityOf(items, id)
  {
    var once := Restocked(items, stock).value;
    RestockedInventory(items, stock);
    RestockedInventory(items, once);
  }

  /** The capture loop of payment verification. */
  method ApplyCapture(items: seq<OrderItem>, stock: map<string, Product>) returns (r: Option<map<string, Product>>)
    ensures r == Captured(items, stock)
  {
    var current := stock;
    var i := 0;
    while i < |items|
      invariant 0 <= i <= |items|
      invariant Captured(items, stock) == Captured(items[i..], current)
    {
      var item := items[i];
      assert items[i..][0] == item && items[i..][1..] == items[i + 1..];
      if item.productId !in current || current[item.productId].inventory < item.quantity {
        return None;
      }
      current := current[item.productId := current[item.productId].(inventory := current[item.productId].inventory - item.quantity)];
      i := i + 1;
    }
    return Some(current);
  }

  /** The restock loop of cancellation. */
  method ApplyRestock(items: seq<OrderItem>, stock: map<string, Product>) returns (r: Option<map<string, Product>>)
    ensures r == Restocked(items, stock)
  {
    var current := stock;
    var i := 0;
    while i < |items|
      invariant 0 <= i <= |items|
      invariant Restocked(items, stock) == Restocked(items[i..], current)
    {
      var item := items[i];
      assert items[i..][0] == item && items[i..][1..] == items[i + 1..];
      if item.productId !in current {
        return None;
      }
      current := current[item.productId := current[item.productId].(inventory := current[item.productId].inventory + item.quantity)];
      i := i + 1;
    }
    return Some(current);
  }

  // ---------------------------------------------------------------- capture and cancellation

  /** What a verified payment does besides recording itself: a subscription order confirms its
      subscription, otherwise a service order starts its booking and a product order takes its
      lines from stock. `None` is a step that throws, which rolls the database transaction back. */
  function OnCaptured(order: PaymentOrder, rows: Rows): (r: Option<Rows>)
    ensures r.Some? ==> r.value.products.Keys == rows.products.Keys
    ensures r.Some? ==> r.value.bookings.Keys == rows.bookings.Keys
    ensures r.Some? ==> r.value.subscriptions.Keys == rows.subscriptions.Keys
  {
    if Truthy(order.subscriptionId) then
      var id := order.subscriptionId.value;
      if id in rows.subscriptions
      then Some(rows.(subscriptions := rows.subscriptions[id := rows.subscriptions[id].(status := Confirmed)]))
      else None
    else if order.purpose == SERVICE_BOOKING && Truthy(order.bookingId) then
      var id := order.bookingId.value;
      if id in rows.bookings
      then Some(rows.(bookings := rows.bookings[id := rows.bookings[id].(status := InProgress)]))
      else None
    else if order.purpose == PRODUCT_PURCHASE then
      match Captured(order.items, rows.products)
      case Some(stock) => Some(rows.(products := stock))
      case None => None
    else Some(rows)
  }

  /** What a cancellation does besides marking the order: a subscription order cancels its
      subscription, otherwise a service order deletes its booking and a product order gives its
      lines back to stock. `None` is a step that throws. */
  function OnCancelled(order: PaymentOrder, rows: Rows): (r: Option<Rows>)
    ensures r.Some? ==> r.value.products.Keys == rows.products.Keys
    ensures r.Some? ==> r.value.subscriptions.Keys == rows.subscriptions.Keys
  {
    if Truthy(order.subscriptionId) then
      var id := order.subscriptionId.value;
      if id in rows.subscriptions
      then Some(rows.(subscriptions := rows.subscriptions[id := rows.subscriptions[id].(status := SubscriptionCancelled)]))
      else None
    else if order.purpose == SERVICE_BOOKING && Truthy(order.bookingId) then
      var id := order.bookingId.value;
      if id in rows.bookings then Some(rows.(bookings := rows.bookings - {id})) else None
    else if order.purpose == PRODUCT_PURCHASE then
      match Restocked(order.items, rows.products)
      case Some(stock) => Some(rows.(products := stock))
      case None => None
    else Some(rows)
  }

  /** The shape every stored order keeps: a positive amount, one of the three purposes, and the
      references that purpose needs; a product order's amount is the sum of its lines. */
  predicate WellFormedOrder(o: PaymentOrder)
  {
    && o.amount > 0
    && o.purpose != OTHER
    && (o.purpose == PRODUCT_PURCHASE ==>
          |o.items| > 0 && WellPriced(o.items) && o.amount == ItemsTotal(o.items)
          && o.bookingId.None? && o.subscriptionId.None?)
    && (o.purpose == SERVICE_BOOKING ==> Truthy(o.bookingId) && o.subscriptionId.None? && o.items == [])
    && (o.purpose == SUBSCRIPTION ==> o.subscriptionId.Some? && o.bookingId.None? && o.items == [])
  }

  /** For a product order, a capture succeeds exactly when the stock covers its lines, and never
      leaves an inventory below zero. */
  lemma ProductCaptureIff(order: PaymentOrder, rows: Rows)
    requires WellFormedOrder(order) && order.purpose == PRODUCT_PURCHASE
    requires StockNonNegative(rows.products)
    ensures OnCaptured(order, rows).Some? <==> Stocked(order.items, rows.products)
    ensures OnCaptured(order, rows).Some? ==> StockNonNegative(OnCaptured(order, rows).value.products)
  {
    CaptureSucceedsIff(order.items, rows.products);
    if OnCaptured(order, rows).Some? {
      CaptureKeepsStockNonNegative(order.items, rows.products);
    }
  }

  /** Cancelling a captured product order puts every row back as it was before the capture. */
  lemma CancelUndoesProductCapture(order: PaymentOrder, rows: Rows)
    requires WellFormedOrder(order) && order.purpose == PRODUCT_PURCHASE
    requires OnCaptured(order, rows).Some?
    ensures OnCancelled(order, OnCaptured(order, rows).value) == Some(rows)
  {
    RestockUndoesCapture(order.items, rows.products);
  }

  /** Capture and cancellation keep every inventory non-negative. */
  lemma EffectsKeepStockNonNegative(order: PaymentOrder, rows: Rows)
    requires WellFormedOrder(order) && StockNonNegative(rows.products)
    ensures OnCaptured(order, rows).Some? ==> StockNonNegative(OnCaptured(order, rows).value.products)
    ensures OnCancelled(order, rows).Some? ==> StockNonNegative(OnCancelled(order, rows).value.products)
  {
    if order.purpose == PRODUCT_PURCHASE {
      if Captured(order.items, rows.products).Some? {
        CaptureKeepsStockNonNegative(order.items, rows.products);
      }
      if Restocked(order.items, rows.products).Some? {
        RestockKeepsStockNonNegative(order.items, rows.products);
      }
    }
  }

  // ---------------------------------------------------------------- verification checks

  function LowerAscii(c: char): char
  {
    if 'A' <= c <= 'Z' then (c as int + 32) as char else c
  }

  /** `String.prototype.toLowerCase` on ASCII letters. */
  function ToLowerAscii(s: string): (r: string)
    ensures |r| == |s|
    ensures forall i :: 0 <= i < |s| ==> r[i] == LowerAscii(s[i])
  {
    if s == [] then [] else [LowerAscii(s[0])] + ToLowerAscii(s[1..])
  }

  /** Why the gateway's payment cannot settle the order, if it cannot: the amount must be the
      order's amount exactly, and the status, in any letter case, captured or authorized. */
  function GatewayRejection(order: PaymentOrder, payment: GatewayPayment): (r: Option<string>)
    ensures r.None? <==> payment.amount == order.amount && ToLowerAscii(payment.status) in {"captured", "authorized"}
    ensures r == Some("Payment amount mismatch") <==> payment.amount != order.amount
    ensures r.Some? ==> r.value in {"Payment amount mismatch", "Payment not captured"}
  {
    if payment.amount != order.amount then Some("Payment amount mismatch")
    else
      var status := ToLowerAscii(payment.status);
      if status != "captured" && status != "authorized" then Some("Payment not captured") else None
  }

  predicate SuccessFor(t: PaymentTransaction, orderId: string)
  {
    t.orderId == orderId && t.status == "SUCCESS"
  }

  predicate HasPaymentId(t: PaymentTransaction, paymentId: string)
  {
    t.paymentId == paymentId
  }

  /** The transaction that makes a verification a repeat: the first successful one for the order,
      else the first one carrying the payment id. */
  function RecordedTransaction(txs: seq<PaymentTransaction>, orderId: string, paymentId: string): (r: Option<nat>)
    ensures r.Some? ==> r.value < |txs| && (SuccessFor(txs[r.value], orderId) || HasPaymentId(txs[r.value], paymentId))
    ensures r.None? <==> forall i :: 0 <= i < |txs| ==> !SuccessFor(txs[i], orderId) && !HasPaymentId(txs[i], paymentId)
    ensures (exists i :: 0 <= i < |txs| && SuccessFor(txs[i], orderId)) ==> r.Some? && SuccessFor(txs[r.value], orderId)
  {
    match FirstIndex(txs, (t: PaymentTransaction) => SuccessFor(t, orderId))
    case Some(i) => Some(i)
    case None => FirstIndex(txs, (t: PaymentTransaction) => HasPaymentId(t, paymentId))
  }

  predicate PaymentIdsUnique(txs: seq<PaymentTransaction>)
  {
    forall i, j :: 0 <= i < j < |txs| ==> txs[i].paymentId != txs[j].paymentId
  }

  predicate OneSuccessPerOrder(txs: seq<PaymentTransaction>)
  {
    forall i, j :: 0 <= i < j < |txs| && SuccessFor(txs[i], txs[i].orderId) ==> !SuccessFor(txs[j], txs[i].orderId)
  }

  /** The one-line order-creation tail: a positive total, a gateway order, then the stored order,
      whose gateway id must not be taken already (the column is unique). */
  function Placement(gatewayOrderId: Option<string>, orders: map<string, PaymentOrder>, order: PaymentOrder): CreateReply
  {
    if order.amount <= 0 then CreateFailed(400, "Invalid total amount")
    else if gatewayOrderId.None? || gatewayOrderId.value in orders then CreateFailed(500, "Failed to create order")
    else OrderCreated(gatewayOrderId.value, order)
  }

  /** The invariant of the payment tables: no inventory below zero, every order well formed,
      every transaction's order stored, no payment id recorded twice and at most one successful
      transaction per order. */
  ghost predicate ValidTables(orders: map<string, PaymentOrder>, txs: seq<PaymentTransaction>,
                              products: map<string, Product>)
  {
    && StockNonNegative(products)
    && (forall id :: id in orders ==> WellFormedOrder(orders[id]))
    && (forall i :: 0 <= i < |txs| ==> txs[i].orderId in orders)
    && PaymentIdsUnique(txs)
    && OneSuccessPerOrder(txs)
  }

  lemma NewOrderKeepsValid(orders: map<string, PaymentOrder>, txs: seq<PaymentTransaction>,
                           products: map<string, Product>, key: string, order: PaymentOrder)
    requires ValidTables(orders, txs, products) && WellFormedOrder(order)
    ensures ValidTables(orders[key := order], txs, products)
  {
  }

  lemma StatusChangeKeepsValid(orders: map<string, PaymentOrder>, txs: seq<PaymentTransaction>,
                               products: map<string, Product>, key: string, status: OrderStatus,
                               stock: map<string, Product>)
    requires ValidTables(orders, txs, products) && key in orders && StockNonNegative(stock)
    ensures ValidTables(orders[key := orders[key].(status := status)], txs, stock)
  {
    assert WellFormedOrder(orders[key].(status := status)) by {
      assert WellFormedOrder(orders[key]);
    }
  }

  /** Recording a successful payment that is not a repeat keeps the invariant, and the recorded
      transaction is what a repeat of the same callback finds. */
  lemma RecordingKeepsValid(orders: map<string, PaymentOrder>, txs: seq<PaymentTransaction>,
                            products: map<string, Product>, t: PaymentTransaction)
    requires ValidTables(orders, txs, products) && t.orderId in orders && SuccessFor(t, t.orderId)
    requires RecordedTransaction(txs, t.orderId, t.paymentId).None?
    ensures ValidTables(orders, txs + [t], products)
    ensures RecordedTransaction(txs + [t], t.orderId, t.paymentId) == Some(|txs|)
  {
    var after := txs + [t];
    assert forall i :: 0 <= i < |txs| ==> after[i] == txs[i];
    assert OneSuccessPerOrder(after);
    var found := RecordedTransaction(after, t.orderId, t.paymentId);
    assert SuccessFor(after[|txs|], t.orderId);
    assert found.Some? && SuccessFor(after[found.value], t.orderId);
  }

  /** The writes of the verification's database transaction other than the payment's own row. */
  method ApplyOnCaptured(order: PaymentOrder, rows: Rows) returns (r: Option<Rows>)
    ensures r == OnCaptured(order, rows)
  {
    var stock, books, subs := rows.products, rows.bookings, rows.subscriptions;
    if Truthy(order.subscriptionId) {
      if order.subscriptionId.value !in subs {
        return None;
      }
      subs := subs[order.subscriptionId.value := subs[order.subscriptionId.value].(status := Confirmed)];
    } else if order.purpose == SERVICE_BOOKING && Truthy(order.bookingId) {
      if order.bookingId.value !in books {
        return None;
      }
      books := books[order.bookingId.value := books[order.bookingId.value].(status := InProgress)];
    } else if order.purpose == PRODUCT_PURCHASE {
      var captured := ApplyCapture(order.items, stock);
      if captured.None? {
        return None;
      }
      stock := captured.value;
    }
    r := Some(Rows(stock, books, subs));
  }

  /** The writes of the cancellation's database transaction other than the order's status. */
  method ApplyOnCancelled(order: PaymentOrder, rows: Rows) returns (r: Option<Rows>)
    ensures r == OnCancelled(order, rows)
  {
    var stock, books, subs := rows.products, rows.bookings, rows.subscriptions;
    if Truthy(order.subscriptionId) {
      if order.subscriptionId.value !in subs {
        return None;
      }
      subs := subs[order.subscriptionId.value := subs[order.subscriptionId.value].(status := SubscriptionCancelled)];
    } else if order.purpose == SERVICE_BOOKING && Truthy(order.bookingId) {
      if order.bookingId.value !in books {
        return None;
      }
      books := books - {order.bookingId.value};
    } else if order.purpose == PRODUCT_PURCHASE {
      var restocked := ApplyRestock(order.items, stock);
      if restocked.None? {
        return None;
      }
      stock := restocked.value;
    }
    r := Some(Rows(stock, books, subs));
  }

  // ---------------------------------------------------------------- the store

  /**
   * The tables the controller reads and writes. The gateway, the signature check, the
   * subscription service and the clock are parameters of the operations.
   */
  class PaymentStore {
    var orders: map<string, PaymentOrder>
    var transactions: seq<PaymentTransaction>
    var products: map<string, Product>
    var bookings: map<string, ServiceBooking>
    var subscriptions: map<string, Subscription>
    var services: map<string, ServiceDefinition>
    var plans: map<string, SubscriptionPlan>

    ghost predicate Valid()
      reads this
    {
      ValidTables(orders, transactions, products)
    }

    function CurrentRows(): Rows
      reads this
    {
      Rows(products, bookings, subscriptions)
    }

    constructor (products: map<string, Product>, bookings: map<string, ServiceBooking>,
                 services: map<string, ServiceDefinition>, plans: map<string, SubscriptionPlan>)
      requires StockNonNegative(products)
      ensures Valid()
      ensures this.orders == map[] && this.transactions == [] && this.subscriptions == map[]
      ensures this.products == products && this.bookings == bookings
      ensures this.services == services && this.plans == plans
    {
      this.orders := map[];
      this.transactions := [];
      this.products := products;
      this.bookings := bookings;
      this.subscriptions := map[];
      this.services := services;
      this.plans := plans;
    }

    /** `createOrder`: prices the request, creates the subscription of a subscription order, opens
        a gateway order and stores the payment order under the gateway's id. The gateway's order id
        and the id of the subscription the subscription service creates are inputs (`None`: the
        call threw). */
    method CreateOrder(userId: Option<string>, payload: OrderPayload,
                       createdSubscriptionId: Option<string>, gatewayOrderId: Option<string>)
      returns (r: CreateReply)
      requires Valid()
      modifies this
      ensures Valid()
      ensures transactions == old(transactions) && products == old(products) && bookings == old(bookings)
      ensures services == old(services) && plans == old(plans)
      ensures r.CreateFailed? ==> orders == old(orders)
      ensures r.OrderCreated? ==> r.orderId !in old(orders) && orders == old(orders)[r.orderId := r.order]
      ensures r.OrderCreated? ==> Truthy(userId) && r.order.userId == userId.value && r.order.status == OrderPending
      ensures r.OrderCreated? ==> WellFormedOrder(r.order) && PurposeFor(payload.paymentFor) == Some(r.order.purpose)
      ensures !Truthy(userId) ==> r == CreateFailed(401, "Unauthorized")
      ensures Truthy(userId) && PurposeFor(payload.paymentFor).None? ==> r == CreateFailed(400, "Invalid payment purpose")
      ensures Truthy(userId) && payload.paymentFor == "PRODUCT" ==>
        match ProductPricing(payload.products, old(products))
        case PricingFailed(code, error) => r == CreateFailed(code, error)
        case Priced(items, total) =>
          r == Placement(gatewayOrderId, old(orders),
                         PaymentOrder(total, userId.value, PRODUCT_PURCHASE, OrderPending, None, None, items))
      ensures Truthy(userId) && payload.paymentFor == "SERVICE" ==>
        if !Truthy(payload.serviceId) then r == CreateFailed(400, "Service ID is required")
        else if payload.serviceId.value !in services then r == CreateFailed(404, "Service not found")
        else r == Placement(gatewayOrderId, old(orders),
                            PaymentOrder(ServicePrice(services[payload.serviceId.value]), userId.value,
                                         SERVICE_BOOKING, OrderPending, payload.serviceId, None, []))
      ensures Truthy(userId) && payload.paymentFor == "SUBSCRIPTION" ==>
        var planId := payload.subscriptionPlanId;
        if !Truthy(planId) then
          r == CreateFailed(400, "Subscription plan ID is required") && subscriptions == old(subscriptions)
        else if planId.value !in plans then
          r == CreateFailed(404, "Subscription plan not found") && subscriptions == old(subscriptions)
        else if createdSubscriptionId.None? || createdSubscriptionId.value in old(subscriptions) then
          r == CreateFailed(500, "Failed to create subscription") && subscriptions == old(subscriptions)
        else
          && subscriptions == old(subscriptions)[createdSubscriptionId.value :=
                                   Subscription(userId.value, planId.value, SubscriptionPending)]
          && r == Placement(gatewayOrderId, old(orders),
                            PaymentOrder(plans[planId.value].price, userId.value, SUBSCRIPTION,
                                         OrderPending, None, createdSubscriptionId, []))
      ensures !(Truthy(userId) && payload.paymentFor == "SUBSCRIPTION") ==> subscriptions == old(subscriptions)
    {
      if !Truthy(userId) {
        return CreateFailed(401, "Unauthorized");
      }
      var purpose := PurposeFor(payload.paymentFor);
      if purpose.None? {
        return CreateFailed(400, "Invalid payment purpose");
      }
      if payload.paymentFor == "PRODUCT" {
        var pricing := PriceProducts(payload.products, products);
        if pricing.PricingFailed? {
          return CreateFailed(pricing.code, pricing.error);
        }
        var order := PaymentOrder(pricing.total, userId.value, PRODUCT_PURCHASE, OrderPending, None, None, pricing.items);
        r := PlaceOrder(order, gatewayOrderId);
      } else if payload.paymentFor == "SERVICE" {
        if !Truthy(payload.serviceId) {
          return CreateFailed(400, "Service ID is required");
        }
        if payload.serviceId.value !in services {
          return CreateFailed(404, "Service not found");
        }
        var total := ServicePrice(services[payload.serviceId.value]);
        var order := PaymentOrder(total, userId.value, SERVICE_BOOKING, OrderPending, payload.serviceId, None, []);
        r := PlaceOrder(order, gatewayOrderId);
      } else {
        var planId := payload.subscriptionPlanId;
        if !Truthy(planId) {
          return CreateFailed(400, "Subscription plan ID is required");
        }
        if planId.value !in plans {
          return CreateFailed(404, "Subscription plan not found");
        }
        var total := plans[planId.value].price;
        if createdSubscriptionId.None? || createdSubscriptionId.value in subscriptions {
          return CreateFailed(500, "Failed to create subscription");
        }
        // the subscription row stays even when the order is refused afterwards
        subscriptions := subscriptions[createdSubscriptionId.value :=
                                         Subscription(userId.value, planId.value, SubscriptionPending)];
        var order := PaymentOrder(total, userId.value, SUBSCRIPTION, OrderPending, None, createdSubscriptionId, []);
        r := PlaceOrder(order, gatewayOrderId);
      }
    }

    /** `verifyPayment`: checks the callback's fields and signature, answers a repeat with the
        transaction already recorded, checks the gateway's amount and status, and then, in one
        database transaction, records the payment, marks the order paid and applies `OnCaptured`.
        The signature check, the gateway lookup (`None`: it threw) and the clock are inputs. */
    method VerifyPayment(req: VerifyRequest, signatureOk: (string, string, string) -> bool,
                         fetchPayment: string -> Option<GatewayPayment>, now: int)
      returns (r: VerifyReply)
      requires Valid()
      modifies this
      ensures Valid()
      ensures services == old(services) && plans == old(plans)
      ensures r.VerifyFailed? || r.message == "Payment already recorded" ==>
        orders == old(orders) && transactions == old(transactions) && CurrentRows() == old(CurrentRows())
      ensures !Truthy(req.orderId) || !Truthy(req.paymentId) || !Truthy(req.signature) ==>
        r == VerifyFailed(400, "Missing required fields")
      ensures Truthy(req.orderId) && Truthy(req.paymentId) && Truthy(req.signature) ==>
        var orderId, paymentId, signature := req.orderId.value, req.paymentId.value, req.signature.value;
        if !signatureOk(orderId, paymentId, signature) then r == VerifyFailed(400, "Invalid payment signature")
        else if orderId !in old(orders) then r == VerifyFailed(404, "Payment order not found")
        else
          var recorded := RecordedTransaction(old(transactions), orderId, paymentId);
          if recorded.Some? then r == PaymentVerified("Payment already recorded", old(transactions)[recorded.value])
          else
            var fetched := fetchPayment(paymentId);
            if fetched.None? then r == VerifyFailed(500, "Payment verification failed")
            else
              var rejection := GatewayRejection(old(orders)[orderId], fetched.value);
              if rejection.Some? then r == VerifyFailed(400, rejection.value)
              else
                var effects := OnCaptured(old(orders)[orderId], old(CurrentRows()));
                if effects.None? then r == VerifyFailed(500, "Payment verification failed")
                else
                  && r == PaymentVerified("Payment verified",
                                          PaymentTransaction(orderId, paymentId, signature, "SUCCESS",
                                                             fetched.value.paymentMethod, fetched.value.amount, now))
                  && transactions == old(transactions) + [r.transaction]
                  && orders == old(orders)[orderId := old(orders)[orderId].(status := OrderSuccess)]
                  && CurrentRows() == effects.value
      ensures r.PaymentVerified? ==>
        var recorded := RecordedTransaction(transactions, req.orderId.value, req.paymentId.value);
        recorded.Some? && transactions[recorded.value] == r.transaction
    {
      if !Truthy(req.orderId) || !Truthy(req.paymentId) || !Truthy(req.signature) {
        return VerifyFailed(400, "Missing required fields");
      }
      var orderId, paymentId, signature := req.orderId.value, req.paymentId.value, req.signature.value;
      if !signatureOk(orderId, paymentId, signature) {
        return VerifyFailed(400, "Invalid payment signature");
      }
      if orderId !in orders {
        return VerifyFailed(404, "Payment order not found");
      }
      var order := orders[orderId];
      var recorded := RecordedTransaction(transactions, orderId, paymentId);
      if recorded.Some? {
        return PaymentVerified("Payment already recorded", transactions[recorded.value]);
      }
      var fetched := fetchPayment(paymentId);
      if fetched.None? {
        return VerifyFailed(500, "Payment verification failed");
      }
      var payment := fetched.value;
      var rejection := GatewayRejection(order, payment);
      if rejection.Some? {
        return VerifyFailed(400, rejection.value);
      }
      var transaction := PaymentTransaction(orderId, paymentId, signature, "SUCCESS", payment.paymentMethod, payment.amount, now);
      var committed := CommitCapture(orderId, transaction);
      if !committed {
        return VerifyFailed(500, "Payment verification failed");
      }
      r := PaymentVerified("Payment verified", transaction);
    }

    /** `cancelPayment`: only the order's owner may cancel it; then, in one database transaction,
        the order is marked cancelled and `OnCancelled` is applied. Nothing looks at the order's
        status, so a paid or an already cancelled order is cancelled again. */
    method CancelPayment(userId: Option<string>, orderId: Option<string>) returns (r: CancelReply)
      requires Valid()
      modifies this
      ensures Valid()
      ensures transactions == old(transactions) && services == old(services) && plans == old(plans)
      ensures r.CancelFailed? ==> orders == old(orders) && CurrentRows() == old(CurrentRows())
      ensures !Truthy(userId) ==> r == CancelFailed(401, "Unauthorized")
      ensures Truthy(userId) && !Truthy(orderId) ==> r == CancelFailed(400, "orderId is required")
      ensures Truthy(userId) && Truthy(orderId) ==>
        var id := orderId.value;
        if id !in old(orders) then r == CancelFailed(404, "Payment order not found")
        else if old(orders)[id].userId != userId.value then r == CancelFailed(403, "Forbidden")
        else
          var effects := OnCancelled(old(orders)[id], old(CurrentRows()));
          if effects.None? then r == CancelFailed(500, "Failed to cancel payment")
          else
            && r == Cancelled
            && orders == old(orders)[id := old(orders)[id].(status := OrderCancelled)]
            && CurrentRows() == effects.value
    {
      if !Truthy(userId) {
        return CancelFailed(401, "Unauthorized");
      }
      if !Truthy(orderId) {
        return CancelFailed(400, "orderId is required");
      }
      var id := orderId.value;
      if id !in orders {
        return CancelFailed(404, "Payment order not found");
      }
      var order := orders[id];
      if order.userId != userId.value {
        return CancelFailed(403, "Forbidden");
      }
      var committed := CommitCancel(id);
      r := if committed then Cancelled else CancelFailed(500, "Failed to cancel payment");
    }

    /** The database transaction of a verification: the payment's row, the order marked paid and
        `OnCaptured`, all or nothing. */
    method CommitCapture(orderId: string, transaction: PaymentTransaction) returns (committed: bool)
      requires Valid() && orderId in orders
      requires transaction.orderId == orderId && transaction.status == "SUCCESS"
      requires RecordedTransaction(transactions, orderId, transaction.paymentId).None?
      modifies this
      ensures Valid()
      ensures services == old(services) && plans == old(plans)
      ensures committed <==> OnCaptured(old(orders)[orderId], old(CurrentRows())).Some?
      ensures !committed ==>
        orders == old(orders) && transactions == old(transactions) && CurrentRows() == old(CurrentRows())
      ensures committed ==>
        && transactions == old(transactions) + [transaction]
        && orders == old(orders)[orderId := old(orders)[orderId].(status := OrderSuccess)]
        && CurrentRows() == OnCaptured(old(orders)[orderId], old(CurrentRows())).value
        && RecordedTransaction(transactions, orderId, transaction.paymentId) == Some(|old(transactions)|)
    {
      var order := orders[orderId];
      var effects := ApplyOnCaptured(order, CurrentRows());
      if effects.None? {
        return false;
      }
      EffectsKeepStockNonNegative(order, CurrentRows());
      RecordingKeepsValid(orders, transactions, products, transaction);
      StatusChangeKeepsValid(orders, transactions + [transaction], products, orderId, OrderSuccess, effects.value.products);
      Commit(orderId, OrderSuccess, transactions + [transaction], effects.value);
      committed := true;
    }

    /** The database transaction of a cancellation: the order marked cancelled and `OnCancelled`,
        all or nothing. */
    method CommitCancel(orderId: string) returns (committed: bool)
      requires Valid() && orderId in orders
      modifies this
      ensures Valid()
      ensures transactions == old(transactions) && services == old(services) && plans == old(plans)
      ensures committed <==> OnCancelled(old(orders)[orderId], old(CurrentRows())).Some?
      ensures !committed ==> orders == old(orders) && CurrentRows() == old(CurrentRows())
      ensures committed ==>
        && orders == old(orders)[orderId := old(orders)[orderId].(status := OrderCancelled)]
        && CurrentRows() == OnCancelled(old(orders)[orderId], old(CurrentRows())).value
    {
      var order := orders[orderId];
      var effects := ApplyOnCancelled(order, CurrentRows());
      if effects.None? {
        return false;
      }
      EffectsKeepStockNonNegative(order, CurrentRows());
      StatusChangeKeepsValid(orders, transactions, products, orderId, OrderCancelled, effects.value.products);
      Commit(orderId, OrderCancelled, transactions, effects.value);
      committed := true;
    }

    /** The writes of a committed database transaction: the order's new status, the transaction
        log and the touched rows. */
    method Commit(orderId: string, status: OrderStatus, log: seq<PaymentTransaction>, rows: Rows)
      requires orderId in orders
      requires ValidTables(orders[orderId := orders[orderId].(status := status)], log, rows.products)
      modifies this
      ensures Valid()
      ensures orders == old(orders)[orderId := old(orders)[orderId].(status := status)]
      ensures transactions == log && CurrentRows() == rows
      ensures services == old(services) && plans == old(plans)
    {
      orders := orders[orderId := orders[orderId].(status := status)];
      transactions := log;
      products, bookings, subscriptions := rows.products, rows.bookings, rows.subscriptions;
    }

    /** The tail of order creation: refuses a non-positive total, opens the gateway order and
        stores the payment order under the gateway's id. */
    method PlaceOrder(order: PaymentOrder, gatewayOrderId: Option<string>) returns (r: CreateReply)
      requires Valid()
      requires order.amount > 0 ==> WellFormedOrder(order)
      modifies this
      ensures Valid()
      ensures r == Placement(gatewayOrderId, old(orders), order)
      ensures r.OrderCreated? ==> orders == old(orders)[r.orderId := order]
      ensures r.CreateFailed? ==> orders == old(orders)
      ensures transactions == old(transactions) && CurrentRows() == old(CurrentRows())
      ensures services == old(services) && plans == old(plans)
    {
      if order.amount <= 0 {
        return CreateFailed(400, "Invalid total amount");
      }
      if gatewayOrderId.None? || gatewayOrderId.value in orders {
        return CreateFailed(500, "Failed to create order");
      }
      NewOrderKeepsValid(orders, transactions, products, gatewayOrderId.value, order);
      orders := orders[gatewayOrderId.value := order];
      r := OrderCreated(gatewayOrderId.value, order);
    }
  }

  /** The same gateway callback delivered twice: a first delivery that is answered with a
      transaction makes the second one answer with that very transaction as already recorded,
      and leave every table as the first delivery left it (`between` is that state). */
  method DeliverTwice(store: PaymentStore, req: VerifyRequest, signatureOk: (string, string, string) -> bool,
                      fetchPayment: string -> Option<GatewayPayment>, now: int, later: int)
    returns (first: VerifyReply, second: VerifyReply,
             between: (map<string, PaymentOrder>, seq<PaymentTransaction>, Rows))
    requires store.Valid()
    modifies store
    ensures store.Valid()
    ensures first.PaymentVerified? ==> second == PaymentVerified("Payment already recorded", first.transaction)
    ensures first.PaymentVerified? ==>
      (store.orders, store.transactions, store.CurrentRows()) == between
  {
    first := store.VerifyPayment(req, signatureOk, fetchPayment, now);
    between := (store.orders, store.transactions, store.CurrentRows());
    second := store.VerifyPayment(req, signatureOk, fetchPayment, later);
  }
}
