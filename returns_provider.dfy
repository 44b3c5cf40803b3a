/** The return-label simulator (fake-backends/routers/returns_provider.py). */
module ReturnsProvider {
  import opened Results
  import opened Models
  import opened Lists
  import opened Store

  const DefaultCarrier := "USPS"
  const LabelValidity := 30 * Day

  function LabelUrl(id: string): string {
    "https://returns.example.com/labels/" + id + ".pdf"
  }

  function FindRma(rmas: seq<Rma>, rmaId: string): (r: Option<Rma>)
    ensures r.Some? ==> r.value in rmas && r.value.rmaId == rmaId
    ensures r.Some? ==> exists i :: 0 <= i < |rmas| && rmas[i] == r.value && forall j :: 0 <= j < i ==> rmas[j].rmaId != rmaId
    ensures r.None? <==> forall x :: x in rmas ==> x.rmaId != rmaId
  {
    First(rmas, (x: Rma) => x.rmaId == rmaId)
  }

  /** What `POST /labels` answers: 404 for an unknown customer, checked before 404 for an
      unknown RMA; otherwise a label by the carrier that expires 30 days from now. Its
      URL is built from a third generated id, not from the label id. */
  function LabelOutcome(customers: seq<Customer>, rmas: seq<Rma>, customerId: string, rmaId: string,
                        carrier: Option<string>, labelId: string, trackingNumber: string, urlId: string,
                        now: Timestamp): (r: Result<ReturnLabel>)
    ensures r == Err(HttpError(404, "Customer not found")) <==> forall c :: c in customers ==> c.customerId != customerId
    ensures r == Err(HttpError(404, "RMA not found")) <==>
      FindCustomer(customers, customerId).Some? && forall x :: x in rmas ==> x.rmaId != rmaId
    ensures r.Ok? <==> FindCustomer(customers, customerId).Some? && FindRma(rmas, rmaId).Some?
    ensures r.Ok? ==> && r.value.labelId == labelId && r.value.trackingNumber == trackingNumber
                      && r.value.carrier == carrier.GetOr(DefaultCarrier)
                      && r.value.labelUrl == LabelUrl(urlId)
                      && r.value.expiresAt == now + 30 * 86400
  {
    if FindCustomer(customers, customerId).None? then Err(HttpError(404, "Customer not found"))
    else if FindRma(rmas, rmaId).None? then Err(HttpError(404, "RMA not found"))
    else Ok(ReturnLabel(labelId, trackingNumber, carrier.GetOr(DefaultCarrier), LabelUrl(urlId), now + LabelValidity))
  }

  /** `POST /labels`: on success exactly one label is appended. The label id, the tracking
      number and the URL's id are drawn in that order. */
  method GenerateReturnLabel(store: DataStore, customerId: string, rmaId: string, carrier: Option<string>,
                             labelHex: string, trackingHex: string, urlHex: string, now: Timestamp)
    returns (r: Result<ReturnLabel>)
    requires IsUuidHex(labelHex) && IsUuidHex(trackingHex) && IsUuidHex(urlHex)
    modifies store
    ensures r == LabelOutcome(old(store.customers), old(store.rmas), customerId, rmaId, carrier,
                              GenerateId("LBL", labelHex), GenerateId("TRK", trackingHex), GenerateId("LBL", urlHex), now)
    ensures store.State() == old(store.State()).(returnLabels := old(store.returnLabels) + Appended(r))
  {
    if FindCustomer(store.customers, customerId).None? {
      return Err(HttpError(404, "Customer not found"));
    }
    if FindRma(store.rmas, rmaId).None? {
      return Err(HttpError(404, "RMA not found"));
    }
    var returnLabel := ReturnLabel(GenerateId("LBL", labelHex), GenerateId("TRK", trackingHex), carrier.GetOr(DefaultCarrier),
                             LabelUrl(GenerateId("LBL", urlHex)), now + LabelValidity);
    store.returnLabels := store.returnLabels + [returnLabel];
    r := Ok(returnLabel);
  }
}
