/** The records of the simulated back ends (fake-backends/models.py). Money is
    held in integer cents, times in integer seconds. */
module Models {
  import opened Results

  /** An amount of money in cents (the source uses float dollars). */
  type Cents = int

  /** A point in time in seconds (the source uses `datetime`). */
  type Timestamp = int

  datatype OrderStatus = Pending | Processing | Shipped | Delivered | Returned | Cancelled {
    /** The enum's string value. */
    function Value(): string {
      match this
      case Pending => "pending"
      case Processing => "processing"
      case Shipped => "shipped"
      case Delivered => "delivered"
      case Returned => "returned"
      case Cancelled => "cancelled"
    }
  }

  /** `OrderStatus(value)`: the member with that value, if any. */
  function OrderStatusOf(value: string): (r: Option<OrderStatus>)
    ensures r.Some? ==> r.value.Value() == value
    ensures forall s: OrderStatus :: s.Value() == value ==> r == Some(s)
  {
    match value
    case "pending" => Some(Pending)
    case "processing" => Some(Processing)
    case "shipped" => Some(Shipped)
    case "delivered" => Some(Delivered)
    case "returned" => Some(Returned)
    case "cancelled" => Some(Cancelled)
    case _ => None
  }

  /** The six order statuses, each once. */
  function AllOrderStatuses(): (r: seq<OrderStatus>)
    ensures |r| == 6
    ensures forall i, j :: 0 <= i < j < |r| ==> r[i] != r[j]
    ensures forall s: OrderStatus :: s in r
  {
    var r := [Pending, Processing, Shipped, Delivered, Returned, Cancelled];
    assert forall s: OrderStatus :: s in r by {
      forall s: OrderStatus ensures s in r {
        if s.Pending? { assert r[0] == s; }
        else if s.Processing? { assert r[1] == s; }
        else if s.Shipped? { assert r[2] == s; }
        else if s.Delivered? { assert r[3] == s; }
        else if s.Returned? { assert r[4] == s; }
        else { assert r[5] == s; }
      }
    }
    r
  }

  /** The product categories. `Networking` is not declared in the enum, but the
      fixture (data_store.py:98) uses it; it is added here with value "networking". */
  datatype ProductCategory = Routers | Modems | Switches | Accessories | Networking {
    function Value(): string {
      match this
      case Routers => "routers"
      case Modems => "modems"
      case Switches => "switches"
      case Accessories => "accessories"
      case Networking => "networking"
    }
  }

  /** The categories declared in the source's enum: all but `Networking`. */
  function DeclaredCategories(): (r: seq<ProductCategory>)
    ensures |r| == 4 && Networking !in r
    ensures forall c: ProductCategory :: c != Networking ==> c in r
  {
    var r := [Routers, Modems, Switches, Accessories];
    assert forall c: ProductCategory :: c != Networking ==> c in r by {
      forall c: ProductCategory | c != Networking ensures c in r {
        if c.Routers? { assert r[0] == c; }
        else if c.Modems? { assert r[1] == c; }
        else if c.Switches? { assert r[2] == c; }
        else { assert r[3] == c; }
      }
    }
    r
  }

  datatype Address = Address(street: string, city: string, state: string, postalCode: string, country: string)

  /** An address with the default country. */
  function NewAddress(street: string, city: string, state: string, postalCode: string): (a: Address)
    ensures a.country == "USA"
    ensures a.street == street && a.city == city && a.state == state && a.postalCode == postalCode
  {
    Address(street, city, state, postalCode, "USA")
  }

  datatype Customer = Customer(customerId: string, name: string, email: string, phone: string, address: Address)

  datatype Product = Product(
    sku: string,
    name: string,
    category: ProductCategory,
    price: Cents,
    wifiStandard: Option<int>,
    tags: seq<string>,
    description: string,
    lifecycleStatus: string,
    inStock: bool,
    stockQuantity: int)

  /** A product with every defaulted field left at its default. */
  function NewProduct(sku: string, name: string, category: ProductCategory, price: Cents, description: string): (p: Product)
    ensures p.lifecycleStatus == "active" && p.inStock && p.stockQuantity == 100
    ensures p.wifiStandard == None && p.tags == []
    ensures p.sku == sku && p.name == name && p.category == category && p.price == price && p.description == description
  {
    Product(sku, name, category, price, None, [], description, "active", true, 100)
  }

  datatype OrderItem = OrderItem(sku: string, productName: string, quantity: int, unitPrice: Cents, totalPrice: Cents)

  datatype Order = Order(
    orderId: string,
    customerId: string,
    orderDate: Timestamp,
    deliveryDate: Option<Timestamp>,
    status: OrderStatus,
    items: seq<OrderItem>,
    subtotal: Cents,
    tax: Cents,
    shipping: Cents,
    total: Cents,
    shippingAddress: Address)

  datatype Rma = Rma(rmaId: string, orderId: string, customerId: string, sku: string, reason: string, status: string, createdAt: Timestamp)

  /** An RMA with the default status. */
  function NewRma(rmaId: string, orderId: string, customerId: string, sku: string, reason: string, now: Timestamp): (r: Rma)
    ensures r.status == "approved" && r.createdAt == now
    ensures r.rmaId == rmaId && r.orderId == orderId && r.customerId == customerId && r.sku == sku && r.reason == reason
  {
    Rma(rmaId, orderId, customerId, sku, reason, "approved", now)
  }

  datatype CartItem = CartItem(sku: string, productName: string, quantity: int, unitPrice: Cents)

  /** The sum of quantity times unit price over the lines. */
  function LinesSubtotal(items: seq<CartItem>): Cents {
    if items == [] then 0 else items[0].quantity * items[0].unitPrice + LinesSubtotal(items[1..])
  }

  datatype Cart = Cart(cartId: string, customerId: string, items: seq<CartItem>, storeCreditApplied: Cents, createdAt: Timestamp) {
    /** `Cart.subtotal`. */
    function Subtotal(): Cents {
      LinesSubtotal(items)
    }
  }

  /** A new cart: no lines, no store credit, so its subtotal is 0. */
  function NewCart(cartId: string, customerId: string, now: Timestamp): (c: Cart)
    ensures c.items == [] && c.storeCreditApplied == 0 && c.Subtotal() == 0
    ensures c.cartId == cartId && c.customerId == customerId && c.createdAt == now
  {
    Cart(cartId, customerId, [], 0, now)
  }

  /** Appending a line adds its quantity times its unit price to the subtotal. */
  lemma {:induction false} SubtotalAppend(items: seq<CartItem>, line: CartItem)
    ensures LinesSubtotal(items + [line]) == LinesSubtotal(items) + line.quantity * line.unitPrice
  {
    if items != [] {
      assert (items + [line])[1..] == items[1..] + [line];
      SubtotalAppend(items[1..], line);
    }
  }

  /** Changing the quantity of one line changes the subtotal by the difference times that line's unit price. */
  lemma {:induction false} SubtotalSetQuantity(items: seq<CartItem>, i: nat, quantity: int)
    requires i < |items|
    ensures LinesSubtotal(items[i := items[i].(quantity := quantity)])
         == LinesSubtotal(items) + (quantity - items[i].quantity) * items[i].unitPrice
  {
    var updated := items[i := items[i].(quantity := quantity)];
    if i == 0 {
      assert updated[1..] == items[1..];
      calc {
        quantity * items[0].unitPrice - items[0].quantity * items[0].unitPrice;
        (quantity - items[0].quantity) * items[0].unitPrice;
      }
    } else {
      assert updated[1..] == items[1..][i - 1 := items[i].(quantity := quantity)];
      SubtotalSetQuantity(items[1..], i - 1, quantity);
    }
  }

  datatype ReturnEligibility = ReturnEligibility(eligible: bool, reason: string, daysRemaining: Option<int>, restockingFee: Cents)

  datatype SkuInfo = SkuInfo(sku: string, name: string, lifecycleStatus: string, isClearance: bool, isDiscontinued: bool, currentPrice: Cents)

  datatype AvailabilityInfo = AvailabilityInfo(sku: string, available: bool, quantity: int, warehouseLocation: string)

  /** A delivery estimate: literal text, or a time written out as "%Y-%m-%d %H:%M". */
  datatype Estimate = Text(text: string) | Formatted(time: Timestamp)

  datatype FulfillmentEligibility = FulfillmentEligibility(eligible: bool, estimatedDelivery: Estimate, shippingMethod: string, warehouse: string)

  datatype ExpectedReturn = ExpectedReturn(
    returnId: string,
    sku: string,
    customerId: string,
    reason: string,
    overrideReason: Option<string>,
    status: string,
    createdAt: Timestamp)

  /** An expected return with the default status and no override reason. */
  function NewExpectedReturn(returnId: string, sku: string, customerId: string, reason: string, now: Timestamp): (e: ExpectedReturn)
    ensures e.status == "expected" && e.overrideReason == None && e.createdAt == now
    ensures e.returnId == returnId && e.sku == sku && e.customerId == customerId && e.reason == reason
  {
    ExpectedReturn(returnId, sku, customerId, reason, None, "expected", now)
  }

  datatype Shipment = Shipment(shipmentId: string, orderId: string, trackingNumber: string, carrier: string, estimatedDelivery: Estimate, status: string)

  /** A shipment with the default status. */
  function NewShipment(shipmentId: string, orderId: string, trackingNumber: string, carrier: string, estimatedDelivery: Estimate): (s: Shipment)
    ensures s.status == "released"
    ensures s.shipmentId == shipmentId && s.orderId == orderId && s.trackingNumber == trackingNumber
    ensures s.carrier == carrier && s.estimatedDelivery == estimatedDelivery
  {
    Shipment(shipmentId, orderId, trackingNumber, carrier, estimatedDelivery, "released")
  }

  datatype PolicyEvaluationRequest = PolicyEvaluationRequest(orderId: string, sku: string, daysSinceDelivery: int, reason: string, lifecycleStatus: string)

  datatype PolicyEvaluationResponse = PolicyEvaluationResponse(
    approved: bool,
    policyMatched: string,
    exceptionApplied: Option<string>,
    refundType: string,
    restockingFee: Cents,
    notes: string)

  datatype ReturnLabel = ReturnLabel(labelId: string, trackingNumber: string, carrier: string, labelUrl: string, expiresAt: Timestamp)

  datatype StoreCredit = StoreCredit(creditId: string, customerId: string, amount: Cents, reason: string, createdAt: Timestamp, applied: bool)

  /** A store credit with the default flag: not yet applied. */
  function NewStoreCredit(creditId: string, customerId: string, amount: Cents, reason: string, now: Timestamp): (c: StoreCredit)
    ensures !c.applied && c.createdAt == now
    ensures c.creditId == creditId && c.customerId == customerId && c.amount == amount && c.reason == reason
  {
    StoreCredit(creditId, customerId, amount, reason, now, false)
  }

  datatype Charge = Charge(chargeId: string, customerId: string, amount: Cents, paymentMethod: string, status: string, createdAt: Timestamp)

  /** A charge with the default status. */
  function NewCharge(chargeId: string, customerId: string, amount: Cents, paymentMethod: string, now: Timestamp): (c: Charge)
    ensures c.status == "completed" && c.createdAt == now
    ensures c.chargeId == chargeId && c.customerId == customerId && c.amount == amount && c.paymentMethod == paymentMethod
  {
    Charge(chargeId, customerId, amount, paymentMethod, "completed", now)
  }

  datatype EmailNotification = EmailNotification(emailId: string, to: string, subject: string, body: string, attachments: seq<string>, sentAt: Timestamp)
}
