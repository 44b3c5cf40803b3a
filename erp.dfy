/** The ERP simulator (fake-backends/routers/erp.py): return eligibility and
    SKU lookups. None of its handlers changes the store, so each is a function of
    the collections it reads. */
module Erp {
  import opened Results
  import opened Text
  import opened Models
  import OrderedDict
  import opened Store

  const StandardReturnDays := 30

  const WithinWindowReason := "Within standard 30-day return window"

  function ExpiredReason(daysSinceDelivery: int): string {
    "Return window expired (" + IntToString(daysSinceDelivery) + " days since delivery, limit is 30)"
  }

  /** `GET /skus/{sku}/return-eligibility`: 404 for an unknown order, then 404 for a sku
      the first such order does not hold; otherwise eligible exactly within 30 days. */
  function CheckReturnEligibility(orders: seq<Order>, sku: string, orderId: string, daysSinceDelivery: int): (r: Result<ReturnEligibility>)
    ensures r == Err(HttpError(404, "Order not found")) <==> forall o :: o in orders ==> o.orderId != orderId
    ensures r == Err(HttpError(404, "SKU not found in order")) <==>
      FindOrder(orders, orderId).Some? && !HasSku(FindOrder(orders, orderId).value, sku)
    ensures r.Ok? <==> FindOrder(orders, orderId).Some? && HasSku(FindOrder(orders, orderId).value, sku)
    ensures r.Ok? ==> (r.value.eligible <==> daysSinceDelivery <= StandardReturnDays)
    ensures r.Ok? ==> r.value.daysRemaining == Some(if r.value.eligible then StandardReturnDays - daysSinceDelivery else 0)
    ensures r.Ok? ==> r.value.restockingFee == 0
    ensures r.Ok? ==> r.value.reason == if r.value.eligible then WithinWindowReason else ExpiredReason(daysSinceDelivery)
  {
    match FindOrder(orders, orderId)
    case None => Err(HttpError(404, "Order not found"))
    case Some(order) =>
      if !HasSku(order, sku) then Err(HttpError(404, "SKU not found in order"))
      else if daysSinceDelivery <= StandardReturnDays then
        Ok(ReturnEligibility(true, WithinWindowReason, Some(StandardReturnDays - daysSinceDelivery), 0))
      else
        Ok(ReturnEligibility(false, ExpiredReason(daysSinceDelivery), Some(0), 0))
  }

  /** The days left in the window are never negative and at most 30 for a delivery in the past. */
  lemma DaysRemainingBounds(orders: seq<Order>, sku: string, orderId: string, daysSinceDelivery: int)
    requires CheckReturnEligibility(orders, sku, orderId, daysSinceDelivery).Ok?
    ensures var d := CheckReturnEligibility(orders, sku, orderId, daysSinceDelivery).value.daysRemaining.value;
      && 0 <= d
      && (daysSinceDelivery >= 0 ==> d <= StandardReturnDays)
      && (d > 0 ==> daysSinceDelivery < StandardReturnDays)
  {
  }

  /** The refusal names the number of days: it differs for every two different day counts. */
  lemma ExpiredReasonNamesDays(d1: int, d2: int)
    requires d1 != d2
    ensures ExpiredReason(d1) != ExpiredReason(d2)
  {
    var prefix := "Return window expired (";
    var suffix := " days since delivery, limit is 30)";
    assert ExpiredReason(d1) == prefix + IntToString(d1) + suffix;
    ParseIntOfIntToString(d1);
    ParseIntOfIntToString(d2);
    if ExpiredReason(d1) == ExpiredReason(d2) {
      assert IntToString(d1) == IntToString(d2) by {
        CancelAffixes(prefix, IntToString(d1), IntToString(d2), suffix);
      }
    }
  }

  /** `p + a + s == p + b + s` only when `a == b`. */
  lemma CancelAffixes(p: string, a: string, b: string, s: string)
    requires p + a + s == p + b + s
    ensures a == b
  {
    var x := p + a + s;
    assert |a| == |b|;
    forall i | 0 <= i < |a| ensures a[i] == b[i] {
      assert x[|p| + i] == a[i];
      assert (p + b + s)[|p| + i] == b[i];
    }
  }

  /** `GET /skus/{sku}`: 404 for an unknown sku; at most one of the clearance and
      discontinued flags is set. */
  function GetSkuInfo(products: seq<(string, Product)>, sku: string): (r: Result<SkuInfo>)
    ensures r.Err? <==> OrderedDict.Get(products, sku).None?
    ensures r.Err? ==> r.error == HttpError(404, "SKU not found")
    ensures r.Ok? ==> var p := OrderedDict.Get(products, sku).value;
      && r.value.sku == sku && r.value.name == p.name && r.value.currentPrice == p.price
      && r.value.lifecycleStatus == p.lifecycleStatus
      && (r.value.isClearance <==> p.lifecycleStatus == "clearance")
      && (r.value.isDiscontinued <==> p.lifecycleStatus == "discontinued")
    ensures r.Ok? ==> !(r.value.isClearance && r.value.isDiscontinued)
  {
    match OrderedDict.Get(products, sku)
    case None => Err(HttpError(404, "SKU not found"))
    case Some(p) =>
      Ok(SkuInfo(sku, p.name, p.lifecycleStatus, p.lifecycleStatus == "clearance",
                 p.lifecycleStatus == "discontinued", p.price))
  }

  /** `GET /availability`: 404 for an unknown sku; otherwise the stock flag and count,
      and the warehouse "CA-SAN-01" exactly when in stock. */
  function CheckAvailability(products: seq<(string, Product)>, sku: string): (r: Result<AvailabilityInfo>)
    ensures r.Err? <==> OrderedDict.Get(products, sku).None?
    ensures r.Err? ==> r.error == HttpError(404, "SKU not found")
    ensures r.Ok? ==> var p := OrderedDict.Get(products, sku).value;
      && r.value.sku == sku && r.value.available == p.inStock && r.value.quantity == p.stockQuantity
      && (r.value.warehouseLocation == "CA-SAN-01" <==> p.inStock)
      && (r.value.warehouseLocation == "OUT_OF_STOCK" <==> !p.inStock)
  {
    match OrderedDict.Get(products, sku)
    case None => Err(HttpError(404, "SKU not found"))
    case Some(p) =>
      Ok(AvailabilityInfo(sku, p.inStock, p.stockQuantity, if p.inStock then "CA-SAN-01" else "OUT_OF_STOCK"))
  }
}
