/** The payments simulator (fake-backends/routers/payments.py): store credits and
    charges, each guarded by a customer check and then an amount check. */
module Payments {
  import opened Results
  import opened Models
  import opened Store

  const DefaultPaymentMethod := "credit_card"

  /** The two guards shared by both handlers, in their order: 404 for an unknown
      customer before 400 for an amount that is not positive. */
  function PaymentGuard(customers: seq<Customer>, customerId: string, amount: Cents): (e: Option<HttpError>)
    ensures e == Some(HttpError(404, "Customer not found")) <==> forall c :: c in customers ==> c.customerId != customerId
    ensures e == Some(HttpError(400, "Amount must be positive")) <==> FindCustomer(customers, customerId).Some? && amount <= 0
    ensures e.None? <==> FindCustomer(customers, customerId).Some? && amount > 0
  {
    if FindCustomer(customers, customerId).None? then Some(HttpError(404, "Customer not found"))
    else if amount <= 0 then Some(HttpError(400, "Amount must be positive"))
    else None
  }

  /** What `POST /credits` answers: the guards, then an unapplied credit for the amount. */
  function StoreCreditOutcome(customers: seq<Customer>, customerId: string, amount: Cents, reason: string,
                              creditId: string, now: Timestamp): (r: Result<StoreCredit>)
    ensures r.Err? <==> PaymentGuard(customers, customerId, amount).Some?
    ensures r.Err? ==> r.error == PaymentGuard(customers, customerId, amount).value
    ensures r.Ok? ==> && r.value == NewStoreCredit(creditId, customerId, amount, reason, now)
                      && !r.value.applied && r.value.amount > 0
  {
    match PaymentGuard(customers, customerId, amount)
    case Some(e) => Err(e)
    case None => Ok(NewStoreCredit(creditId, customerId, amount, reason, now))
  }

  /** `POST /credits`: on success exactly one credit is appended. */
  method CreateStoreCredit(store: DataStore, customerId: string, amount: Cents, reason: string,
                           uuidHex: string, now: Timestamp) returns (r: Result<StoreCredit>)
    requires IsUuidHex(uuidHex)
    modifies store
    ensures r == StoreCreditOutcome(old(store.customers), customerId, amount, reason, GenerateId("CRD", uuidHex), now)
    ensures store.State() == old(store.State()).(storeCredits := old(store.storeCredits) + Appended(r))
  {
    if FindCustomer(store.customers, customerId).None? {
      return Err(HttpError(404, "Customer not found"));
    }
    if amount <= 0 {
      return Err(HttpError(400, "Amount must be positive"));
    }
    var credit := NewStoreCredit(GenerateId("CRD", uuidHex), customerId, amount, reason, now);
    store.storeCredits := store.storeCredits + [credit];
    r := Ok(credit);
  }

  /** What `POST /charges` answers: the same guards, then a completed charge. */
  function ChargeOutcome(customers: seq<Customer>, customerId: string, amount: Cents, paymentMethod: Option<string>,
                         chargeId: string, now: Timestamp): (r: Result<Charge>)
    ensures r.Err? <==> PaymentGuard(customers, customerId, amount).Some?
    ensures r.Err? ==> r.error == PaymentGuard(customers, customerId, amount).value
    ensures r.Ok? ==> && r.value == NewCharge(chargeId, customerId, amount, paymentMethod.GetOr(DefaultPaymentMethod), now)
                      && r.value.status == "completed" && r.value.amount > 0
                      && (paymentMethod.None? ==> r.value.paymentMethod == "credit_card")
  {
    match PaymentGuard(customers, customerId, amount)
    case Some(e) => Err(e)
    case None => Ok(NewCharge(chargeId, customerId, amount, paymentMethod.GetOr(DefaultPaymentMethod), now))
  }

  /** `POST /charges`: on success exactly one charge is appended. */
  method CreateCharge(store: DataStore, customerId: string, amount: Cents, paymentMethod: Option<string>,
                      uuidHex: string, now: Timestamp) returns (r: Result<Charge>)
    requires IsUuidHex(uuidHex)
    modifies store
    ensures r == ChargeOutcome(old(store.customers), customerId, amount, paymentMethod, GenerateId("CHG", uuidHex), now)
    ensures store.State() == old(store.State()).(charges := old(store.charges) + Appended(r))
  {
    if FindCustomer(store.customers, customerId).None? {
      return Err(HttpError(404, "Customer not found"));
    }
    if amount <= 0 {
      return Err(HttpError(400, "Amount must be positive"));
    }
    var charge := NewCharge(GenerateId("CHG", uuidHex), customerId, amount, paymentMethod.GetOr(DefaultPaymentMethod), now);
    store.charges := store.charges + [charge];
    r := Ok(charge);
  }
}
