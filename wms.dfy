/** The warehouse simulator (fake-backends/routers/wms.py): fulfilment eligibility,
    expected returns and outbound shipments. */
module Wms {
  import opened Results
  import opened Text
  import opened Models
  import opened Lists
  import OrderedDict
  import opened Store

  const Hour := 3600
  const Warehouse := "CA-SAN-01"

  /** Postal codes of the same-day area start with "94" or "95". */
  predicate SameDayArea(postalCode: string) {
    StartsWith(postalCode, "94") || StartsWith(postalCode, "95")
  }

  /** `GET /fulfillment/eligibility`: 404 for an unknown sku; an out-of-stock product
      cannot be fulfilled; otherwise same-day delivery in six hours to the same-day area
      and standard delivery in three days elsewhere, both from CA-SAN-01. */
  function CheckFulfillmentEligibility(products: seq<(string, Product)>, sku: string, postalCode: string, now: Timestamp): (r: Result<FulfillmentEligibility>)
    ensures r.Err? <==> OrderedDict.Get(products, sku).None?
    ensures r.Err? ==> r.error == HttpError(404, "SKU not found")
    ensures r.Ok? ==> (r.value.eligible <==> OrderedDict.Get(products, sku).value.inStock)
    ensures r.Ok? && !r.value.eligible ==>
      r.value == FulfillmentEligibility(false, Text("N/A - Out of stock"), "N/A", "N/A")
    ensures r.Ok? && r.value.eligible ==>
      && r.value.warehouse == Warehouse
      && (r.value.shippingMethod == "SAME_DAY" <==> SameDayArea(postalCode))
      && (r.value.shippingMethod == "STANDARD" <==> !SameDayArea(postalCode))
      && r.value.estimatedDelivery == Formatted(if SameDayArea(postalCode) then now + 6 * Hour else now + 3 * Day)
  {
    match OrderedDict.Get(products, sku)
    case None => Err(HttpError(404, "SKU not found"))
    case Some(product) =>
      if !product.inStock then
        Ok(FulfillmentEligibility(false, Text("N/A - Out of stock"), "N/A", "N/A"))
      else if StartsWith(postalCode, "94") || StartsWith(postalCode, "95") then
        Ok(FulfillmentEligibility(true, Formatted(now + 6 * Hour), "SAME_DAY", Warehouse))
      else
        Ok(FulfillmentEligibility(true, Formatted(now + 3 * Day), "STANDARD", Warehouse))
  }

  /** What `POST /returns/expected` answers: 404 for an unknown customer, otherwise an
      expected return carrying the override reason as given. */
  function ExpectedReturnOutcome(customers: seq<Customer>, sku: string, customerId: string, reason: string,
                                 overrideReason: Option<string>, returnId: string, now: Timestamp): (r: Result<ExpectedReturn>)
    ensures r.Err? <==> forall c :: c in customers ==> c.customerId != customerId
    ensures r.Err? ==> r.error == HttpError(404, "Customer not found")
    ensures r.Ok? ==> && r.value.status == "expected" && r.value.overrideReason == overrideReason
                      && r.value == NewExpectedReturn(returnId, sku, customerId, reason, now).(overrideReason := overrideReason)
  {
    if FindCustomer(customers, customerId).None? then Err(HttpError(404, "Customer not found"))
    else Ok(NewExpectedReturn(returnId, sku, customerId, reason, now).(overrideReason := overrideReason))
  }

  /** `POST /returns/expected`: on success exactly one record is appended. */
  method CreateExpectedReturn(store: DataStore, sku: string, customerId: string, reason: string,
                              overrideReason: Option<string>, uuidHex: string, now: Timestamp) returns (r: Result<ExpectedReturn>)
    requires IsUuidHex(uuidHex)
    modifies store
    ensures r == ExpectedReturnOutcome(old(store.customers), sku, customerId, reason, overrideReason, GenerateId("RET", uuidHex), now)
    ensures store.State() == old(store.State()).(expectedReturns := old(store.expectedReturns) + Appended(r))
  {
    if FindCustomer(store.customers, customerId).None? {
      return Err(HttpError(404, "Customer not found"));
    }
    var expected := NewExpectedReturn(GenerateId("RET", uuidHex), sku, customerId, reason, now).(overrideReason := overrideReason);
    store.expectedReturns := store.expectedReturns + [expected];
    r := Ok(expected);
  }

  /** The carrier for a shipping method, and how long it takes. */
  function Carrier(shippingMethod: string): (c: (string, int))
    ensures c.0 == "OnTrac" <==> shippingMethod == "SAME_DAY"
    ensures c.0 == "FedEx" <==> shippingMethod == "OVERNIGHT"
    ensures c.0 == "USPS" <==> shippingMethod != "SAME_DAY" && shippingMethod != "OVERNIGHT"
    ensures c.1 == (if c.0 == "OnTrac" then 6 * Hour else if c.0 == "FedEx" then Day else 3 * Day)
  {
    if shippingMethod == "SAME_DAY" then ("OnTrac", 6 * Hour)
    else if shippingMethod == "OVERNIGHT" then ("FedEx", Day)
    else ("USPS", 3 * Day)
  }

  const DefaultShippingMethod := "STANDARD"

  /** What `POST /shipments/release` answers: 404 for an unknown order, otherwise a
      released shipment by the method's carrier; an omitted method is STANDARD. */
  function ShipmentOutcome(orders: seq<Order>, orderId: string, shippingMethod: Option<string>,
                           shipmentId: string, trackingNumber: string, now: Timestamp): (r: Result<Shipment>)
    ensures r.Err? <==> forall o :: o in orders ==> o.orderId != orderId
    ensures r.Err? ==> r.error == HttpError(404, "Order not found")
    ensures r.Ok? ==> var c := Carrier(shippingMethod.GetOr(DefaultShippingMethod));
      && r.value == NewShipment(shipmentId, orderId, trackingNumber, c.0, Formatted(now + c.1))
      && r.value.status == "released"
    ensures r.Ok? && shippingMethod.None? ==> r.value.carrier == "USPS" && r.value.estimatedDelivery == Formatted(now + 3 * Day)
  {
    if FindOrder(orders, orderId).None? then Err(HttpError(404, "Order not found"))
    else
      var c := Carrier(shippingMethod.GetOr(DefaultShippingMethod));
      Ok(NewShipment(shipmentId, orderId, trackingNumber, c.0, Formatted(now + c.1)))
  }

  /** The orders after the first one with the id is marked shipped; every other order,
      including a later one with the same id, is left as it was. */
  function MarkShipped(orders: seq<Order>, orderId: string): (r: seq<Order>)
    ensures |r| == |orders|
    ensures match FirstIndex(orders, (o: Order) => o.orderId == orderId)
      case Some(i) => r[i] == orders[i].(status := Shipped) && forall j :: 0 <= j < |orders| && j != i ==> r[j] == orders[j]
      case None => r == orders
  {
    match FirstIndex(orders, (o: Order) => o.orderId == orderId)
    case Some(i) => orders[i := orders[i].(status := Shipped)]
    case None => orders
  }

  /** `POST /shipments/release`: on success one shipment is appended and the order
      found is marked shipped. The shipment id is drawn before the tracking number. */
  method ReleaseShipment(store: DataStore, orderId: string, shippingMethod: Option<string>,
                         shipmentHex: string, trackingHex: string, now: Timestamp) returns (r: Result<Shipment>)
    requires IsUuidHex(shipmentHex) && IsUuidHex(trackingHex)
    modifies store
    ensures r == ShipmentOutcome(old(store.orders), orderId, shippingMethod, GenerateId("SHIP", shipmentHex), GenerateId("TRK", trackingHex), now)
    ensures store.State() == old(store.State()).(shipments := old(store.shipments) + Appended(r),
                                                 orders := MarkShipped(old(store.orders), orderId))
    ensures old(store.Valid()) ==> store.Valid()
  {
    var index := FirstIndex(store.orders, (o: Order) => o.orderId == orderId);
    if index.None? {
      return Err(HttpError(404, "Order not found"));
    }
    var c := Carrier(shippingMethod.GetOr(DefaultShippingMethod));
    var shipment := NewShipment(GenerateId("SHIP", shipmentHex), orderId, GenerateId("TRK", trackingHex), c.0, Formatted(now + c.1));
    store.shipments := store.shipments + [shipment];
    var i := index.value;
    store.orders := store.orders[i := store.orders[i].(status := Shipped)];
    r := Ok(shipment);
  }
}
