/** The in-memory store of demo data (fake-backends/data_store.py): eleven
    collections, the fixture that fills them, and identifier generation. */
module Store {
  import opened Results
  import opened Text
  import opened Models
  import OrderedDict
  import opened Lists

  const Day: int := 86400

  /** A snapshot of the eleven collections of the store. `products` is a dict in
      insertion order, so it is kept as an ordered association list. */
  datatype StoreState = StoreState(
    customers: seq<Customer>,
    products: seq<(string, Product)>,
    orders: seq<Order>,
    rmas: seq<Rma>,
    carts: map<string, Cart>,
    expectedReturns: seq<ExpectedReturn>,
    shipments: seq<Shipment>,
    storeCredits: seq<StoreCredit>,
    charges: seq<Charge>,
    emailNotifications: seq<EmailNotification>,
    returnLabels: seq<ReturnLabel>)

  /** No two lines of a cart are for the same sku. */
  predicate DistinctLineSkus(items: seq<CartItem>) {
    forall i, j :: 0 <= i < j < |items| ==> items[i].sku != items[j].sku
  }

  /** What every handler relies on: each product is stored under its own sku
      (once), each cart under its own id, and a cart has one line per sku. */
  predicate StateValid(s: StoreState) {
    && OrderedDict.DistinctKeys(s.products)
    && (forall i :: 0 <= i < |s.products| ==> s.products[i].1.sku == s.products[i].0)
    && (forall id :: id in s.carts ==> s.carts[id].cartId == id && DistinctLineSkus(s.carts[id].items))
  }

  const EmptyState := StoreState([], [], [], [], map[], [], [], [], [], [], [])

  // ---------- The fixture ----------

  const CustomerAddress := Address("123 Main Street", "San Francisco", "CA", "94102", "USA")

  function DemoCustomers(): seq<Customer> {
    [Customer("CUST001", "John Smith", "john.smith@example.com", "+1-555-0123", CustomerAddress)]
  }

  const Ac1900 := Product("RTR-AC1900", "AC1900 Dual-Band WiFi Router", Routers, 12999, Some(5),
    ["ac1900", "dual-band", "basic"], "Basic AC1900 router suitable for light browsing",
    "discontinued", false, 0)

  const Ax5400 := Product("RTR-AX5400", "AX5400 WiFi 6 Gaming Router", Routers, 19999, Some(6),
    ["gaming", "low-latency", "wifi6", "mesh-ready"],
    "High-performance WiFi 6 router optimized for gaming and video calls with advanced QoS",
    "active", true, 45)

  const GamingAx5700 := Product("RTR-GAMING-AX5700", "Gaming Pro AX5700 WiFi 6 Router", Networking, 19999, Some(6),
    ["gaming", "wifi", "router", "low-latency", "wifi6", "qos"],
    "Professional gaming router with WiFi 6, advanced QoS, and ultra-low latency for competitive gaming",
    "active", true, 32)

  const Axe7800 := Product("RTR-AXE7800", "AXE7800 Tri-Band WiFi 6E Gaming Router", Routers, 34999, Some(7),
    ["gaming", "low-latency", "wifi6e", "tri-band", "professional"],
    "Premium WiFi 6E tri-band router with dedicated 6GHz band for ultra-low latency",
    "active", true, 23)

  const Ax3000 := Product("RTR-AX3000", "AX3000 WiFi 6 Router", Routers, 14999, Some(6),
    ["wifi6", "value", "home-office"], "Affordable WiFi 6 router great for home office and streaming",
    "active", true, 78)

  /** The five products of the fixture, each under its sku, in the order they are assigned. */
  function DemoProducts(): seq<(string, Product)> {
    [("RTR-AC1900", Ac1900), ("RTR-AX5400", Ax5400), ("RTR-GAMING-AX5700", GamingAx5700),
     ("RTR-AXE7800", Axe7800), ("RTR-AX3000", Ax3000)]
  }

  /** The fixture's skus are distinct. */
  lemma DemoSkusDistinct()
    ensures OrderedDict.DistinctKeys(DemoProducts())
  {
    var d := DemoProducts();
    assert d[0].0[5] == 'C' && d[1].0[5] == 'X' && d[4].0[5] == 'X';
    assert d[1].0[6] == '5' && d[4].0[6] == '3';
    assert |d[0].0| == 10 && |d[1].0| == 10 && |d[2].0| == 17 && |d[3].0| == 11 && |d[4].0| == 10;
  }

  /** Assigning the fixture to an empty dict keeps all five products, in order. */
  lemma DemoProductsFresh()
    ensures OrderedDict.PutAll([], DemoProducts()) == DemoProducts()
  {
    var d := DemoProducts();
    DemoSkusDistinct();
    assert [] + d == d;
    OrderedDict.PutAllFresh([], d);
  }

  /** Each fixture product is stored under its own sku. */
  lemma DemoProductsKeyed()
    ensures forall i :: 0 <= i < |DemoProducts()| ==> DemoProducts()[i].1.sku == DemoProducts()[i].0
  {
  }

  /** The three orders of a Salesforce contact: delivered 45, 1 and 12 days ago. */
  function ContactOrders(ids: (string, string, string), customerId: string, address: Address, now: Timestamp): seq<Order> {
    [ Order(ids.0, customerId, now - 47 * Day, Some(now - 45 * Day), Delivered,
        [ OrderItem("RTR-HS-DELUXE", "HomeStream Deluxe Router", 1, 19999, 19999),
          OrderItem("ACC-PWR-CABLE", "Replacement Power Cable", 2, 1599, 3198) ],
        23197, 1856, 0, 25053, address),
      Order(ids.1, customerId, now - 3 * Day, Some(now - Day), Delivered,
        [ OrderItem("RTR-HS-BASIC", "HomeStream Basic Router", 1, 14999, 14999),
          OrderItem("ACC-ETHERNET", "CAT6 Ethernet Cable 10ft", 1, 1299, 1299) ],
        16298, 1304, 0, 17502, address),
      Order(ids.2, customerId, now - 13 * Day, Some(now - 12 * Day), Delivered,
        [ OrderItem("ACC-WIFI-ADAPTER", "USB WiFi Adapter", 1, 2999, 2999),
          OrderItem("ACC-SURGE-PROTECTOR", "Smart Surge Protector", 1, 3499, 3499) ],
        6498, 520, 0, 7018, address) ]
  }

  const Contact1Address := Address("456 Tech Avenue", "Seattle", "WA", "98101", "USA")
  const Contact2Address := Address("789 Innovation Drive", "Portland", "OR", "97201", "USA")

  /** The eleven fixture orders. The second contact's three orders are appended twice. */
  function DemoOrders(now: Timestamp): seq<Order> {
    [ Order("ORD-2025-001234", "CUST001", now - 15 * Day, Some(now - 12 * Day), Delivered,
        [OrderItem("RTR-AC1900", "AC1900 Dual-Band WiFi Router", 1, 12999, 12999)],
        12999, 1040, 899, 14938, CustomerAddress),
      Order("ORD-2024-998877", "CUST001", now - 90 * Day, Some(now - 87 * Day), Delivered,
        [OrderItem("ACC-CAT6-10FT", "CAT6 Ethernet Cable 10ft", 2, 1299, 2598)],
        2598, 208, 599, 3405, CustomerAddress) ]
    + ContactOrders(("ORD-2025-007891", "ORD-2025-007892", "ORD-2025-007893"), "0039Q00001VsHMXQA3", Contact1Address, now)
    + ContactOrders(("ORD-2025-008891", "ORD-2025-008892", "ORD-2025-008893"), "0039Q00001VcSaVQAV", Contact2Address, now)
    + ContactOrders(("ORD-2025-008891", "ORD-2025-008892", "ORD-2025-008893"), "0039Q00001VcSaVQAV", Contact2Address, now)
  }

  /** The state of a freshly built (or freshly reset) store. */
  function InitialState(now: Timestamp): StoreState {
    EmptyState.(customers := DemoCustomers(), products := DemoProducts(), orders := DemoOrders(now))
  }

  /** The fixture satisfies the store invariant. */
  lemma InitialStateValid(now: Timestamp)
    ensures StateValid(InitialState(now))
  {
    DemoSkusDistinct();
    DemoProductsKeyed();
  }

  /** A fresh store holds one customer, five products and eleven orders, and nothing else. */
  lemma InitialCounts(now: Timestamp)
    ensures var s := InitialState(now);
      && |s.customers| == 1 && |s.products| == 5 && |s.orders| == 11
      && s.rmas == [] && s.carts == map[] && s.expectedReturns == [] && s.shipments == []
      && s.storeCredits == [] && s.charges == [] && s.emailNotifications == [] && s.returnLabels == []
  {
  }

  /** What `_initialize_demo_data()` does to a state: the customer and the orders are
      appended, the products assigned by sku, and nothing else changes. */
  function WithFixture(s: StoreState, now: Timestamp): StoreState {
    s.(customers := s.customers + DemoCustomers(),
       products := OrderedDict.PutAll(s.products, DemoProducts()),
       orders := s.orders + DemoOrders(now))
  }

  /** Running the fixture over a store whose customers, products and orders are
      empty fills exactly those three with the fixture. */
  lemma FixtureOverEmpty(s: StoreState, now: Timestamp)
    requires s.customers == [] && s.products == [] && s.orders == []
    ensures WithFixture(s, now) == s.(customers := DemoCustomers(), products := DemoProducts(), orders := DemoOrders(now))
  {
    AppendToEmpty(s.customers, DemoCustomers());
    AppendToEmpty(s.orders, DemoOrders(now));
    FixtureProductsOverEmpty(s.products);
  }

  lemma AppendToEmpty<T>(a: seq<T>, b: seq<T>)
    requires a == []
    ensures a + b == b
  {
  }

  lemma FixtureProductsOverEmpty(d: seq<(string, Product)>)
    requires d == []
    ensures OrderedDict.PutAll(d, DemoProducts()) == DemoProducts()
  {
    DemoProductsFresh();
  }

  // ---------- The fixture as the source writes it ----------

  /** `ProductCategory.X` for a member the enum does not declare raises AttributeError. */
  predicate Undeclared(e: (string, Product)) {
    e.1.category !in DeclaredCategories()
  }

  /** The keyed product assignments of `_initialize_demo_data()` as they run: each
      product's category is looked up before the product is assigned, so the first
      undeclared category raises, and neither that product nor any after it is
      assigned. The flag says whether it raised. */
  function PutAllAsWritten(d: seq<(string, Product)>, entries: seq<(string, Product)>): (r: (seq<(string, Product)>, bool))
    ensures match FirstIndex(entries, Undeclared)
      case Some(k) => r == (OrderedDict.PutAll(d, entries[..k]), true)
      case None => r == (OrderedDict.PutAll(d, entries), false)
  {
    OrderedDict.PutAllUntil(d, entries, Undeclared)
  }

  /** `_initialize_demo_data()` as the source writes it: the customer is appended, then
      the products are assigned until one raises; the orders are appended only when
      none did. */
  function FixtureAsWritten(s: StoreState, now: Timestamp): (r: (StoreState, bool))
    ensures !r.1 ==> r.0 == WithFixture(s, now)
    ensures r.1 ==> r.0.orders == s.orders && r.0.customers == s.customers + DemoCustomers()
  {
    var (products, raised) := PutAllAsWritten(s.products, DemoProducts());
    var t := s.(customers := s.customers + DemoCustomers(), products := products);
    if raised then (t, true) else (t.(orders := s.orders + DemoOrders(now)), false)
  }

  /** As written, building the store raises: the third product is filed under
      `ProductCategory.NETWORKING`, which the enum lacks, so a new store would hold the
      customer and only the first two products, and no orders, when the exception
      leaves `DataStore()`. */
  lemma FixtureAsWrittenRaises(now: Timestamp)
    ensures var r := FixtureAsWritten(EmptyState, now);
      && r.1
      && r.0.customers == DemoCustomers()
      && r.0.products == DemoProducts()[..2]
      && r.0.orders == []
      && r.0 != InitialState(now)
  {
    DemoAssignedAsWritten();
    assert |InitialState(now).products| == 5;
  }

  /** Only the first two fixture products are assigned before the enum lookup raises. */
  lemma DemoAssignedAsWritten()
    ensures PutAllAsWritten([], DemoProducts()) == (DemoProducts()[..2], true)
  {
    DemoFirstUndeclared();
    DemoPrefixFresh();
  }

  /** The third fixture product is the first whose category the enum lacks. */
  lemma DemoFirstUndeclared()
    ensures FirstIndex(DemoProducts(), Undeclared) == Some(2)
  {
    var d := DemoProducts();
    assert !Undeclared(d[0]) && !Undeclared(d[1]) && Undeclared(d[2]);
    FirstIndexAt(d, Undeclared, 2);
  }

  lemma DemoPrefixFresh()
    ensures OrderedDict.PutAll([], DemoProducts()[..2]) == DemoProducts()[..2]
  {
    DemoSkusDistinct();
    PrefixFresh(DemoProducts(), 2);
  }

  lemma PrefixFresh(d: seq<(string, Product)>, k: nat)
    requires k <= |d| && OrderedDict.DistinctKeys(d)
    ensures OrderedDict.PutAll([], d[..k]) == d[..k]
  {
    var first := d[..k];
    assert [] + first == first;
    OrderedDict.PutAllFresh([], first);
  }

  /** Order ids in the fixture are not unique: the second contact's three orders
      occur twice, as identical records. */
  lemma DuplicateFixtureOrders(now: Timestamp)
    ensures var o := DemoOrders(now);
      && o[5].orderId == "ORD-2025-008891" && o[6].orderId == "ORD-2025-008892" && o[7].orderId == "ORD-2025-008893"
      && o[5] == o[8] && o[6] == o[9] && o[7] == o[10]
  {
  }

  // ---------- Identifiers ----------

  predicate IsLowerHex(c: char) { '0' <= c <= '9' || 'a' <= c <= 'f' }
  predicate IsUpperHex(c: char) { '0' <= c <= '9' || 'A' <= c <= 'F' }

  /** `uuid4().hex`: 32 lower-case hexadecimal digits. */
  predicate IsUuidHex(h: string) {
    |h| == 32 && forall i :: 0 <= i < |h| ==> IsLowerHex(h[i])
  }

  /** The shape of every generated id: the prefix, a dash, eight upper-case hex digits. */
  predicate IsGeneratedId(prefix: string, id: string) {
    && |id| == |prefix| + 9
    && id[..|prefix|] == prefix
    && id[|prefix|] == '-'
    && forall i :: |prefix| < i < |id| ==> IsUpperHex(id[i])
  }

  /** `generate_id(prefix)`, given the random uuid it draws. */
  function GenerateId(prefix: string, uuidHex: string): (id: string)
    requires IsUuidHex(uuidHex)
    ensures IsGeneratedId(prefix, id)
  {
    var tail := ToUpper(uuidHex[..8]);
    assert forall i :: 0 <= i < 8 ==> IsUpperHex(tail[i]) by {
      forall i | 0 <= i < 8 ensures IsUpperHex(tail[i]) {
        assert IsLowerHex(uuidHex[i]);
      }
    }
    prefix + "-" + tail
  }

  // ---------- Lookups shared by the handlers ----------

  /** The collection a successful handler appends to gains its result; a failed one leaves it. */
  function Appended<T>(r: Result<T>): seq<T> {
    if r.Ok? then [r.value] else []
  }

  predicate HasSku(o: Order, sku: string) {
    exists i :: 0 <= i < |o.items| && o.items[i].sku == sku
  }

  function FindOrder(orders: seq<Order>, orderId: string): (r: Option<Order>)
    ensures r.Some? ==> r.value in orders && r.value.orderId == orderId
    ensures r.Some? ==> exists i :: 0 <= i < |orders| && orders[i] == r.value && forall j :: 0 <= j < i ==> orders[j].orderId != orderId
    ensures r.None? <==> forall o :: o in orders ==> o.orderId != orderId
  {
    First(orders, (o: Order) => o.orderId == orderId)
  }

  function FindCustomer(customers: seq<Customer>, customerId: string): (r: Option<Customer>)
    ensures r.Some? ==> r.value in customers && r.value.customerId == customerId
    ensures r.Some? ==> exists i :: 0 <= i < |customers| && customers[i] == r.value && forall j :: 0 <= j < i ==> customers[j].customerId != customerId
    ensures r.None? <==> forall c :: c in customers ==> c.customerId != customerId
  {
    First(customers, (c: Customer) => c.customerId == customerId)
  }

  // ---------- The store object ----------

  class DataStore {
    var customers: seq<Customer>
    var products: seq<(string, Product)>
    var orders: seq<Order>
    var rmas: seq<Rma>
    var carts: map<string, Cart>
    var expectedReturns: seq<ExpectedReturn>
    var shipments: seq<Shipment>
    var storeCredits: seq<StoreCredit>
    var charges: seq<Charge>
    var emailNotifications: seq<EmailNotification>
    var returnLabels: seq<ReturnLabel>

    function State(): StoreState
      reads this
    {
      StoreState(customers, products, orders, rmas, carts, expectedReturns, shipments,
                 storeCredits, charges, emailNotifications, returnLabels)
    }

    predicate Valid()
      reads this
    {
      StateValid(State())
    }

    /** `products.values()`, in insertion order. */
    function ProductValues(): seq<Product>
      reads this
    {
      OrderedDict.Values(products)
    }

    /** `DataStore()`: empty collections, then the fixture. */
    constructor (now: Timestamp)
      ensures Valid() && State() == InitialState(now)
    {
      customers, products, orders, rmas, carts := [], [], [], [], map[];
      expectedReturns, shipments, storeCredits, charges := [], [], [], [];
      emailNotifications, returnLabels := [], [];
      new;
      ghost var s := State();
      InitializeDemoData(now);
      FixtureOverEmpty(s, now);
      InitialStateValid(now);
    }

    /** `reset()`: every collection is cleared and the fixture re-run, so the state
        afterwards is the initial one whatever it was before (hence resetting twice
        is the same as resetting once). */
    method Reset(now: Timestamp)
      modifies this
      ensures Valid() && State() == InitialState(now)
    {
      Clear();
      ghost var s := State();
      InitializeDemoData(now);
      FixtureOverEmpty(s, now);
      InitialStateValid(now);
    }

    /** The eleven `clear()` calls of `reset()`. */
    method Clear()
      modifies this
      ensures State() == EmptyState
    {
      customers := [];
      products := [];
      orders := [];
      rmas := [];
      carts := map[];
      expectedReturns := [];
      shipments := [];
      storeCredits := [];
      charges := [];
      emailNotifications := [];
      returnLabels := [];
    }

    /** `_initialize_demo_data()`: appends the customer, assigns the products by sku,
        appends the orders; the other collections are untouched. */
    method InitializeDemoData(now: Timestamp)
      modifies this
      ensures State() == WithFixture(old(State()), now)
    {
      AddDemoCustomers();
      AddDemoProducts();
      AddDemoOrders(now);
    }

    /** `_initialize_demo_data()` exactly as the source writes it; see
        `FixtureAsWritten`. It reports whether the enum lookup raised. */
    method InitializeDemoDataAsWritten(now: Timestamp) returns (raised: bool)
      modifies this
      ensures (State(), raised) == FixtureAsWritten(old(State()), now)
    {
      AddDemoCustomers();
      var put := PutAllAsWritten(products, DemoProducts());
      products := put.0;
      if put.1 {
        return true;
      }
      AddDemoOrders(now);
      raised := false;
    }

    method AddDemoCustomers()
      modifies this
      ensures State() == old(State()).(customers := old(customers) + DemoCustomers())
    {
      customers := customers + DemoCustomers();
    }

    method AddDemoProducts()
      modifies this
      ensures State() == old(State()).(products := OrderedDict.PutAll(old(products), DemoProducts()))
    {
      products := OrderedDict.PutAll(products, DemoProducts());
    }

    method AddDemoOrders(now: Timestamp)
      modifies this
      ensures State() == old(State()).(orders := old(orders) + DemoOrders(now))
    {
      orders := orders + DemoOrders(now);
    }
  }
}
