/** The commerce simulator (fake-backends/routers/commerce.py): order history,
    catalogue search, RMAs, carts and order placement over the store. */
module Commerce {
  import opened Results
  import opened Text
  import opened Models
  import opened Lists
  import OrderedDict
  import opened Store

  // ---------- list_recent_orders ----------

  const DefaultOrderLimit := 5
  const MaxOrderLimit := 50

  function OrderDate(o: Order): int { o.orderDate }

  function CustomerOrders(orders: seq<Order>, customerId: string): seq<Order> {
    Filter(orders, (o: Order) => o.customerId == customerId)
  }

  /** `GET /customers/{id}/orders`: the customer's orders, newest first, at most
      `limit` of them; a limit outside 1..50 is refused by request validation. */
  function ListRecentOrders(orders: seq<Order>, customerId: string, limit: Option<int>): (r: Result<seq<Order>>)
    ensures var n := limit.GetOr(DefaultOrderLimit);
      r.Err? <==> !(1 <= n <= MaxOrderLimit)
    ensures r.Err? ==> r.error.status == 422
    ensures r.Ok? ==> forall o :: o in r.value ==> o in orders && o.customerId == customerId
    ensures r.Ok? ==> SortedDesc(r.value, OrderDate)
    ensures r.Ok? ==> var n := limit.GetOr(DefaultOrderLimit); var m := |CustomerOrders(orders, customerId)|;
      |r.value| == Min(n, m)
    ensures r.Ok? ==> multiset(r.value) <= multiset(CustomerOrders(orders, customerId))
  {
    var n := limit.GetOr(DefaultOrderLimit);
    if !(1 <= n <= MaxOrderLimit) then
      Err(HttpError(422, "limit must be between 1 and 50"))
    else
      TakeSortDesc(CustomerOrders(orders, customerId), OrderDate, n);
      Ok(Take(SortDesc(CustomerOrders(orders, customerId), OrderDate), n))
  }

  /** Truncation keeps the newest orders: a matching order that was cut off is no
      newer than any order returned. */
  lemma ListRecentOrdersNewest(orders: seq<Order>, customerId: string, limit: Option<int>, o: Order, kept: Order)
    requires ListRecentOrders(orders, customerId, limit).Ok?
    requires o in CustomerOrders(orders, customerId) && o !in ListRecentOrders(orders, customerId, limit).value
    requires kept in ListRecentOrders(orders, customerId, limit).value
    ensures o.orderDate <= kept.orderDate
  {
    var n := limit.GetOr(DefaultOrderLimit);
    TakeSortDescGreatest(CustomerOrders(orders, customerId), OrderDate, n, o, kept);
  }

  /** Orders of the same customer placed at the same time keep their order in the
      store: those returned are the first of them, in store order, whatever the limit. */
  lemma ListRecentOrdersStable(orders: seq<Order>, customerId: string, limit: Option<int>, date: int)
    requires ListRecentOrders(orders, customerId, limit).Ok?
    ensures WithKey(ListRecentOrders(orders, customerId, limit).value, OrderDate, date)
         <= WithKey(CustomerOrders(orders, customerId), OrderDate, date)
  {
    var n := limit.GetOr(DefaultOrderLimit);
    var sorted := SortDesc(CustomerOrders(orders, customerId), OrderDate);
    var r := ListRecentOrders(orders, customerId, limit).value;
    assert r == Take(sorted, n);
    TakeWithKey(sorted, n, OrderDate, date);
    SortDescStable(CustomerOrders(orders, customerId), OrderDate, date);
  }

  // ---------- search_products ----------

  /** `if x:` on an optional string: present and not empty. */
  predicate Given(x: Option<string>) {
    x.Some? && x.value != ""
  }

  function Price(p: Product): int { p.price }

  /** The query, lower-cased, occurs in the lower-cased name, description or one of the tags. */
  predicate MatchesQuery(p: Product, query: string) {
    var q := ToLower(query);
    || IsSubstring(q, ToLower(p.name))
    || IsSubstring(q, ToLower(p.description))
    || exists t :: t in p.tags && IsSubstring(q, ToLower(t))
  }

  predicate MatchesCategory(p: Product, category: string) {
    p.category.Value() == category
  }

  function StripAll(parts: seq<string>): (r: seq<string>)
    ensures |r| == |parts| && forall i :: 0 <= i < |parts| ==> r[i] == Strip(parts[i])
  {
    seq(|parts|, i requires 0 <= i < |parts| => Strip(parts[i]))
  }

  /** `[t.strip() for t in tags.split(",")]`. */
  function TagList(tags: string): seq<string> {
    StripAll(Split(tags, ','))
  }

  predicate MatchesTags(p: Product, tagList: seq<string>) {
    exists t :: t in tagList && t in p.tags
  }

  /** The three optional filters together; an absent or empty one lets everything through. */
  predicate Selected(p: Product, query: Option<string>, category: Option<string>, tags: Option<string>) {
    && (Given(query) ==> MatchesQuery(p, query.value))
    && (Given(category) ==> MatchesCategory(p, category.value))
    && (Given(tags) ==> MatchesTags(p, TagList(tags.value)))
  }

  /** The filters of `search_products`, applied in order. */
  function SearchFilter(products: seq<Product>, query: Option<string>, category: Option<string>, tags: Option<string>): (r: seq<Product>)
    ensures forall p :: p in r <==> p in products && Selected(p, query, category, tags)
  {
    var byQuery := if Given(query) then Filter(products, (p: Product) => MatchesQuery(p, query.value)) else products;
    var byCategory := if Given(category) then Filter(byQuery, (p: Product) => MatchesCategory(p, category.value)) else byQuery;
    if Given(tags) then
      var tagList := TagList(tags.value);
      Filter(byCategory, (p: Product) => MatchesTags(p, tagList))
    else byCategory
  }

  /** `GET /catalog/products`: the products passing every given filter, dearest first. */
  function SearchProducts(products: seq<Product>, query: Option<string>, category: Option<string>, tags: Option<string>): (r: seq<Product>)
    ensures forall p :: p in r <==> p in products && Selected(p, query, category, tags)
    ensures SortedDesc(r, Price)
  {
    var r := SortDesc(SearchFilter(products, query, category, tags), Price);
    assert forall p :: p in r <==> p in multiset(SearchFilter(products, query, category, tags));
    r
  }

  /** Each selected product appears in the result as often as in the catalogue, and no other does. */
  lemma SearchProductsCounts(products: seq<Product>, query: Option<string>, category: Option<string>, tags: Option<string>, p: Product)
    ensures multiset(SearchProducts(products, query, category, tags))[p]
         == if Selected(p, query, category, tags) then multiset(products)[p] else 0
  {
    var byQuery := if Given(query) then Filter(products, (p: Product) => MatchesQuery(p, query.value)) else products;
    if Given(query) { FilterMultiset(products, (p: Product) => MatchesQuery(p, query.value), p); }
    var byCategory := if Given(category) then Filter(byQuery, (p: Product) => MatchesCategory(p, category.value)) else byQuery;
    if Given(category) { FilterMultiset(byQuery, (p: Product) => MatchesCategory(p, category.value), p); }
    if Given(tags) {
      var tagList := TagList(tags.value);
      FilterMultiset(byCategory, (p: Product) => MatchesTags(p, tagList), p);
    }
  }

  /** With no filter given the whole catalogue comes back, only reordered. */
  lemma SearchProductsUnfiltered(products: seq<Product>, query: Option<string>, category: Option<string>, tags: Option<string>)
    requires !Given(query) && !Given(category) && !Given(tags)
    ensures multiset(SearchProducts(products, query, category, tags)) == multiset(products)
  {
  }

  /** Products of the same price keep their catalogue order. */
  lemma SearchProductsStable(products: seq<Product>, query: Option<string>, category: Option<string>, tags: Option<string>, price: int)
    ensures WithKey(SearchProducts(products, query, category, tags), Price, price)
         == WithKey(SearchFilter(products, query, category, tags), Price, price)
  {
    SortDescStable(SearchFilter(products, query, category, tags), Price, price);
  }

  // ---------- create_rma ----------

  /** What `POST /rmas` answers: 404 without the order, 400 when the first order with
      that id has no line for the sku, otherwise an approved RMA. */
  function RmaOutcome(orders: seq<Order>, orderId: string, customerId: string, sku: string, reason: string,
                      rmaId: string, now: Timestamp): (r: Result<Rma>)
    ensures r == Err(HttpError(404, "Order not found")) <==> forall o :: o in orders ==> o.orderId != orderId
    ensures r == Err(HttpError(400, "SKU not found in order")) <==>
      FindOrder(orders, orderId).Some? && !HasSku(FindOrder(orders, orderId).value, sku)
    ensures r.Ok? <==> FindOrder(orders, orderId).Some? && HasSku(FindOrder(orders, orderId).value, sku)
    ensures r.Ok? ==> r.value == NewRma(rmaId, orderId, customerId, sku, reason, now) && r.value.status == "approved"
  {
    match FindOrder(orders, orderId)
    case None => Err(HttpError(404, "Order not found"))
    case Some(order) =>
      if !HasSku(order, sku) then Err(HttpError(400, "SKU not found in order"))
      else Ok(NewRma(rmaId, orderId, customerId, sku, reason, now))
  }

  /** `POST /rmas`: on success exactly one RMA is appended, otherwise nothing changes. */
  method CreateRma(store: DataStore, orderId: string, customerId: string, sku: string, reason: string,
                   uuidHex: string, now: Timestamp) returns (r: Result<Rma>)
    requires IsUuidHex(uuidHex)
    modifies store
    ensures r == RmaOutcome(old(store.orders), orderId, customerId, sku, reason, GenerateId("RMA", uuidHex), now)
    ensures store.State() == old(store.State()).(rmas := old(store.rmas) + Appended(r))
  {
    var order := FindOrder(store.orders, orderId);
    if order.None? {
      return Err(HttpError(404, "Order not found"));
    }
    if !HasSku(order.value, sku) {
      return Err(HttpError(400, "SKU not found in order"));
    }
    var rma := NewRma(GenerateId("RMA", uuidHex), orderId, customerId, sku, reason, now);
    store.rmas := store.rmas + [rma];
    r := Ok(rma);
  }

  // ---------- create_cart ----------

  /** `POST /carts`: a new empty cart stored under its generated id. The customer is not checked. */
  method CreateCart(store: DataStore, customerId: string, uuidHex: string, now: Timestamp) returns (cart: Cart)
    requires IsUuidHex(uuidHex)
    modifies store
    ensures cart == NewCart(GenerateId("CART", uuidHex), customerId, now)
    ensures store.State() == old(store.State()).(carts := old(store.carts)[cart.cartId := cart])
    ensures old(store.Valid()) ==> store.Valid()
  {
    cart := NewCart(GenerateId("CART", uuidHex), customerId, now);
    store.carts := store.carts[cart.cartId := cart];
  }

  // ---------- add_cart_item ----------

  function LineIndex(items: seq<CartItem>, sku: string): (r: Option<nat>)
    ensures r.Some? ==> r.value < |items| && items[r.value].sku == sku
    ensures r.Some? ==> forall j :: 0 <= j < r.value ==> items[j].sku != sku
    ensures r.None? <==> forall j :: 0 <= j < |items| ==> items[j].sku != sku
  {
    FirstIndex(items, (l: CartItem) => l.sku == sku)
  }

  /** Adding `quantity` of the product found under `sku` to a cart: an existing line
      for the sku grows, otherwise a line for the sku with the product's name and price
      is appended. Either way the
      subtotal grows by the quantity times the line's unit price. */
  function AddedToCart(cart: Cart, sku: string, product: Product, quantity: int): (r: Cart)
    ensures r.cartId == cart.cartId && r.customerId == cart.customerId
    ensures r.storeCreditApplied == cart.storeCreditApplied && r.createdAt == cart.createdAt
    ensures match LineIndex(cart.items, sku)
      case Some(i) =>
        && |r.items| == |cart.items|
        && r.items[i] == cart.items[i].(quantity := cart.items[i].quantity + quantity)
        && (forall j :: 0 <= j < |cart.items| && j != i ==> r.items[j] == cart.items[j])
        && r.Subtotal() == cart.Subtotal() + quantity * cart.items[i].unitPrice
      case None =>
        && r.items == cart.items + [CartItem(sku, product.name, quantity, product.price)]
        && r.Subtotal() == cart.Subtotal() + quantity * product.price
    ensures DistinctLineSkus(cart.items) ==> DistinctLineSkus(r.items)
  {
    match LineIndex(cart.items, sku)
    case Some(i) =>
      var line := cart.items[i];
      SubtotalSetQuantity(cart.items, i, line.quantity + quantity);
      cart.(items := cart.items[i := line.(quantity := line.quantity + quantity)])
    case None =>
      var line := CartItem(sku, product.name, quantity, product.price);
      SubtotalAppend(cart.items, line);
      cart.(items := cart.items + [line])
  }

  /** The quantity added when the request names none. */
  const DefaultCartQuantity := 1

  /** What `POST /carts/{id}/items` answers: 404 for a missing cart, then 404 for a
      missing product, otherwise the cart with the item added; an omitted quantity is 1. */
  function AddCartItemOutcome(carts: map<string, Cart>, products: seq<(string, Product)>,
                              cartId: string, sku: string, quantity: Option<int>): (r: Result<Cart>)
    ensures r == Err(HttpError(404, "Cart not found")) <==> cartId !in carts
    ensures r == Err(HttpError(404, "Product not found")) <==> cartId in carts && OrderedDict.Get(products, sku).None?
    ensures r.Ok? <==> cartId in carts && OrderedDict.Get(products, sku).Some?
    ensures r.Ok? ==> r.value == AddedToCart(carts[cartId], sku, OrderedDict.Get(products, sku).value, quantity.GetOr(DefaultCartQuantity))
  {
    if cartId !in carts then Err(HttpError(404, "Cart not found"))
    else match OrderedDict.Get(products, sku)
      case None => Err(HttpError(404, "Product not found"))
      case Some(product) => Ok(AddedToCart(carts[cartId], sku, product, quantity.GetOr(DefaultCartQuantity)))
  }

  /** `POST /carts/{id}/items`: the cart is changed in place, so the store's cart becomes the result. */
  method AddCartItem(store: DataStore, cartId: string, sku: string, quantity: Option<int>) returns (r: Result<Cart>)
    modifies store
    ensures r == AddCartItemOutcome(old(store.carts), old(store.products), cartId, sku, quantity)
    ensures store.State() == old(store.State()).(carts := if r.Ok? then old(store.carts)[cartId := r.value] else old(store.carts))
    ensures old(store.Valid()) ==> store.Valid()
  {
    if cartId !in store.carts {
      return Err(HttpError(404, "Cart not found"));
    }
    var cart := store.carts[cartId];
    var product := OrderedDict.Get(store.products, sku);
    if product.None? {
      return Err(HttpError(404, "Product not found"));
    }
    var updated := AddedToCart(cart, sku, product.value, quantity.GetOr(DefaultCartQuantity));
    store.carts := store.carts[cartId := updated];
    r := Ok(updated);
  }

  // ---------- apply_store_credit ----------

  /** The credit applied to a cart: the amount, capped at the subtotal. It replaces
      whatever credit the cart held. */
  function WithStoreCredit(cart: Cart, amount: Cents): (r: Cart)
    ensures r.storeCreditApplied <= amount && r.storeCreditApplied <= cart.Subtotal()
    ensures r.storeCreditApplied == amount || r.storeCreditApplied == cart.Subtotal()
    ensures r.(storeCreditApplied := cart.storeCreditApplied) == cart
  {
    cart.(storeCreditApplied := Min(amount, cart.Subtotal()))
  }

  /** Credit is overwritten, not accumulated: the second application alone decides. */
  lemma StoreCreditOverwrites(cart: Cart, first: Cents, second: Cents)
    ensures WithStoreCredit(WithStoreCredit(cart, first), second) == WithStoreCredit(cart, second)
  {
  }

  /** What `POST /carts/{id}/discounts/store-credit` answers: 404 for a missing cart, checked
      before 400 for an amount that is not positive. */
  function StoreCreditOutcome(carts: map<string, Cart>, cartId: string, amount: Cents): (r: Result<Cart>)
    ensures r == Err(HttpError(404, "Cart not found")) <==> cartId !in carts
    ensures r == Err(HttpError(400, "Amount must be positive")) <==> cartId in carts && amount <= 0
    ensures r.Ok? <==> cartId in carts && amount > 0
    ensures r.Ok? ==> r.value == WithStoreCredit(carts[cartId], amount)
    ensures r.Ok? && carts[cartId].Subtotal() > 0 ==> r.value.storeCreditApplied > 0
  {
    if cartId !in carts then Err(HttpError(404, "Cart not found"))
    else if amount <= 0 then Err(HttpError(400, "Amount must be positive"))
    else Ok(WithStoreCredit(carts[cartId], amount))
  }

  method ApplyStoreCredit(store: DataStore, cartId: string, amount: Cents) returns (r: Result<Cart>)
    modifies store
    ensures r == StoreCreditOutcome(old(store.carts), cartId, amount)
    ensures store.State() == old(store.State()).(carts := if r.Ok? then old(store.carts)[cartId := r.value] else old(store.carts))
    ensures old(store.Valid()) ==> store.Valid()
  {
    if cartId !in store.carts {
      return Err(HttpError(404, "Cart not found"));
    }
    if amount <= 0 {
      return Err(HttpError(400, "Amount must be positive"));
    }
    var cart := WithStoreCredit(store.carts[cartId], amount);
    store.carts := store.carts[cartId := cart];
    r := Ok(cart);
  }

  // ---------- place_order ----------

  /** `round(subtotal * 0.08, 2)` in cents: the whole number of cents nearest to 8% of
      the subtotal. 8% of a whole number of cents is never exactly half a cent off, so
      the rule for halves does not matter. */
  function Tax(subtotal: Cents): (t: Cents)
    ensures -25 < 2 * (25 * t - 2 * subtotal) <= 25
  {
    (4 * subtotal + 25) / 50
  }

  /** Free shipping strictly above $50, otherwise $8.99. */
  function Shipping(subtotal: Cents): (s: Cents)
    ensures s == 0 <==> subtotal > 5000
    ensures s != 0 ==> s == 899
  {
    if subtotal > 5000 then 0 else 899
  }

  function OrderLine(item: CartItem): (l: OrderItem)
    ensures l.sku == item.sku && l.productName == item.productName
    ensures l.quantity == item.quantity && l.unitPrice == item.unitPrice
    ensures l.totalPrice == item.quantity * item.unitPrice
  {
    OrderItem(item.sku, item.productName, item.quantity, item.unitPrice, item.quantity * item.unitPrice)
  }

  /** The cart's lines copied into order lines, in order. */
  function OrderLines(items: seq<CartItem>): (r: seq<OrderItem>)
    ensures |r| == |items| && forall i :: 0 <= i < |items| ==> r[i] == OrderLine(items[i])
  {
    if items == [] then [] else [OrderLine(items[0])] + OrderLines(items[1..])
  }

  function LinesTotal(lines: seq<OrderItem>): Cents {
    if lines == [] then 0 else lines[0].totalPrice + LinesTotal(lines[1..])
  }

  /** The order's line totals add up to the cart's subtotal. */
  lemma {:induction false} OrderLinesTotal(items: seq<CartItem>)
    ensures LinesTotal(OrderLines(items)) == LinesSubtotal(items)
  {
    if items != [] {
      OrderLinesTotal(items[1..]);
      assert OrderLines(items)[1..] == OrderLines(items[1..]);
    }
  }

  /** The order built from a cart for a customer. */
  function OrderFromCart(orderId: string, cart: Cart, customer: Customer, now: Timestamp): (o: Order)
    ensures o.orderId == orderId && o.customerId == cart.customerId && o.orderDate == now
    ensures o.status == Processing && o.deliveryDate == None && o.shippingAddress == customer.address
    ensures o.items == OrderLines(cart.items) && o.subtotal == cart.Subtotal() == LinesTotal(o.items)
    ensures o.tax == Tax(o.subtotal) && o.shipping == Shipping(o.subtotal)
    ensures o.total == o.subtotal + o.tax + o.shipping - cart.storeCreditApplied
  {
    OrderLinesTotal(cart.items);
    var subtotal := cart.Subtotal();
    var tax := Tax(subtotal);
    var shipping := Shipping(subtotal);
    Order(orderId, cart.customerId, now, None, Processing, OrderLines(cart.items), subtotal, tax, shipping,
          subtotal + tax + shipping - cart.storeCreditApplied, customer.address)
  }

  /** What `POST /orders` answers: 404 for a missing cart, 400 for an empty one, 404 when
      no customer has the cart's customer id, otherwise the order. */
  function PlaceOrderOutcome(carts: map<string, Cart>, customers: seq<Customer>, cartId: string,
                             orderId: string, now: Timestamp): (r: Result<Order>)
    ensures r == Err(HttpError(404, "Cart not found")) <==> cartId !in carts
    ensures r == Err(HttpError(400, "Cart is empty")) <==> cartId in carts && carts[cartId].items == []
    ensures r == Err(HttpError(404, "Customer not found")) <==>
      cartId in carts && carts[cartId].items != [] && forall c :: c in customers ==> c.customerId != carts[cartId].customerId
    ensures r.Ok? <==> cartId in carts && carts[cartId].items != [] && FindCustomer(customers, carts[cartId].customerId).Some?
    ensures r.Ok? ==> && cartId in carts && FindCustomer(customers, carts[cartId].customerId).Some?
                      && r.value == OrderFromCart(orderId, carts[cartId], FindCustomer(customers, carts[cartId].customerId).value, now)
  {
    if cartId !in carts then Err(HttpError(404, "Cart not found"))
    else
      var cart := carts[cartId];
      if cart.items == [] then Err(HttpError(400, "Cart is empty"))
      else match FindCustomer(customers, cart.customerId)
        case None => Err(HttpError(404, "Customer not found"))
        case Some(customer) => Ok(OrderFromCart(orderId, cart, customer, now))
  }

  /** `POST /orders`: on success the order is appended and the cart deleted. */
  method PlaceOrder(store: DataStore, cartId: string, paymentMethod: string, uuidHex: string, now: Timestamp)
    returns (r: Result<Order>)
    requires IsUuidHex(uuidHex)
    modifies store
    ensures r == PlaceOrderOutcome(old(store.carts), old(store.customers), cartId, GenerateId("ORD", uuidHex), now)
    ensures store.State() == old(store.State()).(orders := old(store.orders) + Appended(r),
                                                 carts := if r.Ok? then old(store.carts) - {cartId} else old(store.carts))
    ensures old(store.Valid()) ==> store.Valid()
  {
    if cartId !in store.carts {
      return Err(HttpError(404, "Cart not found"));
    }
    var cart := store.carts[cartId];
    if cart.items == [] {
      return Err(HttpError(400, "Cart is empty"));
    }
    var customer := FindCustomer(store.customers, cart.customerId);
    if customer.None? {
      return Err(HttpError(404, "Customer not found"));
    }
    var order := OrderFromCart(GenerateId("ORD", uuidHex), cart, customer.value, now);
    store.orders := store.orders + [order];
    store.carts := store.carts - {cartId};
    r := Ok(order);
  }
}
