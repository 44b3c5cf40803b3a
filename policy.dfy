/** The return-policy engine (fake-backends/routers/policy.py): a base decision and
    three rules applied in turn, each later matching rule overwriting what the
    earlier ones set. */
module Policy {
  import opened Results
  import opened Text
  import opened Models
  import opened Store

  const StandardReturnDays := 30

  const DiscontinuedNotes := "Exception applied: Product discontinued. Store credit issued for exchange."
  const DefectiveNotes := "Defective product - full refund to original payment method"
  const PerformanceNotes := "Performance issues reported - store credit for exchange recommended"

  /** The lifecycle rule: the product is discontinued or on clearance. */
  predicate LifecycleException(lifecycleStatus: string) {
    lifecycleStatus == "discontinued" || lifecycleStatus == "clearance"
  }

  /** The defect rule: the lower-cased reason mentions "defective" or "broken". */
  predicate DefectReported(reason: string) {
    IsSubstring("defective", ToLower(reason)) || IsSubstring("broken", ToLower(reason))
  }

  /** The performance rule: the lower-cased reason mentions "performance" or "slow". */
  predicate PerformanceReported(reason: string) {
    IsSubstring("performance", ToLower(reason)) || IsSubstring("slow", ToLower(reason))
  }

  /** `POST /returns/evaluate`. An unknown order is refused before any rule runs. Then a
      return is approved when it is within 30 days or any rule matches; the policy is
      the exception policy exactly for discontinued or clearance items; a reported
      defect sets the defect exception over the lifecycle one, and the performance rule
      sets none; the refund goes to the original payment only for a defect without a
      performance complaint; the notes are those of the last rule that matched. */
  method EvaluateReturnPolicy(orders: seq<Order>, request: PolicyEvaluationRequest) returns (r: Result<PolicyEvaluationResponse>)
    ensures r.Err? <==> forall o :: o in orders ==> o.orderId != request.orderId
    ensures r.Err? ==> r.error == HttpError(404, "Order not found")
    ensures r.Ok? ==>
      var lifecycle := LifecycleException(request.lifecycleStatus);
      var defect := DefectReported(request.reason);
      var performance := PerformanceReported(request.reason);
      && (r.value.approved <==> request.daysSinceDelivery <= StandardReturnDays || lifecycle || defect || performance)
      && r.value.policyMatched == (if lifecycle then "EXCEPTION_POLICY" else "STANDARD_30_DAY")
      && r.value.exceptionApplied == (if defect then Some("DEFECTIVE_PRODUCT")
                                      else if lifecycle then Some("DISCONTINUED_ITEM_EXCEPTION")
                                      else None)
      && r.value.refundType == (if defect && !performance then "original_payment" else "store_credit")
      && r.value.restockingFee == 0
      && r.value.notes == (if performance then PerformanceNotes
                           else if defect then DefectiveNotes
                           else if lifecycle then DiscontinuedNotes
                           else "")
  {
    var order := FindOrder(orders, request.orderId);
    if order.None? {
      return Err(HttpError(404, "Order not found"));
    }

    var approved := request.daysSinceDelivery <= StandardReturnDays;
    var restockingFee := 0;
    var exceptionApplied: Option<string> := None;
    var policyMatched := "STANDARD_30_DAY";
    var refundType := "store_credit";
    var notes := "";

    if request.lifecycleStatus in ["discontinued", "clearance"] {
      approved := true;
      exceptionApplied := Some("DISCONTINUED_ITEM_EXCEPTION");
      refundType := "store_credit";
      notes := DiscontinuedNotes;
      policyMatched := "EXCEPTION_POLICY";
    }

    var reason := ToLower(request.reason);
    if IsSubstring("defective", reason) || IsSubstring("broken", reason) {
      approved := true;
      exceptionApplied := Some("DEFECTIVE_PRODUCT");
      refundType := "original_payment";
      restockingFee := 0;
      notes := DefectiveNotes;
    }

    if IsSubstring("performance", reason) || IsSubstring("slow", reason) {
      approved := true;
      refundType := "store_credit";
      restockingFee := 0;
      notes := PerformanceNotes;
    }

    r := Ok(PolicyEvaluationResponse(approved, policyMatched, exceptionApplied, refundType, restockingFee, notes));
  }
}
