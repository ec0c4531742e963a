/**
 * `ApprovalController.submitApproval`: validates the approver's decision on
 * a comparison; an approval asks the ERP system for a purchase order, a
 * rejection asks it for nothing. The ERP system is modelled as an object
 * that records every purchase-order request it receives and answers with
 * a purchase order chosen by a function the caller supplies. The uuid and
 * the clock are parameters.
 */
module Approval {
  import opened Models

  datatype Decision = Approved | Rejected

  /** The wire name of a decision. */
  function DecisionName(d: Decision): string
  {
    match d
    case Approved => "APPROVED"
    case Rejected => "REJECTED"
  }

  /** The request body; `None` is a missing property. */
  datatype ApprovalRequest = ApprovalRequest(
    comparisonId: Option<string>,
    decision: Option<string>,
    approverRole: Option<string>,
    approverEmail: Option<string>,
    comment: Option<string>)

  /** A request that passed validation. */
  datatype ValidApproval = ValidApproval(comparisonId: string, decision: Decision)

  /** What `createPurchaseOrder` receives. */
  datatype PurchaseOrderRequest = PurchaseOrderRequest(comparisonId: string, approverEmail: Option<string>, timestamp: string)

  /** What `createPurchaseOrder` returns; only its number is read. */
  datatype PurchaseOrder = PurchaseOrder(poNumber: string)

  /** The `data` of a successful reply. */
  datatype ApprovalResult = ApprovalResult(
    id: string,
    comparisonId: string,
    decision: string,
    timestamp: string,
    nextStep: string,
    approvalId: string,
    message: string,
    poDetails: Option<PurchaseOrder>)

  const InvalidApprovalMessage := "Invalid request: comparisonId and decision (APPROVED/REJECTED) required"
  const RejectedNextStep := "Comparison rejected; no PO created"
  const PoCreatedPrefix := "PO Created: "

  /** A present, non-empty string: JavaScript truthiness of a string property. */
  predicate Present(s: Option<string>)
  {
    s.Some? && s.value != ""
  }

  /**
   * The guard of `submitApproval`: a truthy comparisonId and a decision that
   * is exactly "APPROVED" or "REJECTED".
   */
  function ValidateApproval(req: ApprovalRequest): (r: Option<ValidApproval>)
    ensures r.Some? <==> Present(req.comparisonId) && (req.decision == Some("APPROVED") || req.decision == Some("REJECTED"))
    ensures r.Some? ==> req.comparisonId == Some(r.value.comparisonId)
                        && req.decision == Some(DecisionName(r.value.decision))
  {
    if !Present(req.comparisonId) || !Present(req.decision) then None
    else if req.decision.value == "APPROVED" then Some(ValidApproval(req.comparisonId.value, Approved))
    else if req.decision.value == "REJECTED" then Some(ValidApproval(req.comparisonId.value, Rejected))
    else None
  }

  /** `nextStep`: names the purchase order when there is one. */
  function NextStep(po: Option<PurchaseOrder>): string
  {
    match po
    case Some(order) => PoCreatedPrefix + order.poNumber
    case None => RejectedNextStep
  }

  /** The `message` of the result record. */
  function ResultMessage(d: Decision): string
  {
    match d
    case Approved => "Approval successful, PO created"
    case Rejected => "Comparison rejected"
  }

  /** Lower-cases one ASCII letter; every other character is kept. */
  function LowerChar(c: char): char
  {
    if 'A' <= c <= 'Z' then (c as int + 32) as char else c
  }

  /**
   * `String.prototype.toLowerCase` on ASCII letters: no upper-case ASCII
   * letter is left, and each character is either kept or is the lower-case
   * form of the upper-case letter in its place.
   */
  function LowerAscii(s: string): (r: string)
    ensures |r| == |s|
    ensures forall i :: 0 <= i < |r| ==> !('A' <= r[i] <= 'Z')
    ensures forall i :: 0 <= i < |r| ==> r[i] == s[i] || ('A' <= s[i] <= 'Z' && r[i] as int == s[i] as int + 32)
  {
    seq(|s|, i requires 0 <= i < |s| => LowerChar(s[i]))
  }

  /** The `message` of the reply: "Approval " + the lower-cased decision + " successfully". */
  function ResponseMessage(d: Decision): string
  {
    "Approval " + LowerAscii(DecisionName(d)) + " successfully"
  }

  /** The result record, given the purchase order (if any) the ERP system returned. */
  function ApprovalRecord(uuid: string, v: ValidApproval, timestamp: string, po: Option<PurchaseOrder>): ApprovalResult
  {
    var approvalId := "approval-" + uuid;
    ApprovalResult(approvalId, v.comparisonId, DecisionName(v.decision), timestamp, NextStep(po),
                   approvalId, ResultMessage(v.decision), po)
  }

  // ---------------------------------------------------------------------
  // Properties

  /** Validation accepts exactly the two wire names, and reads them back. */
  lemma ValidateApprovalRoundTrip(comparisonId: string, d: Decision, role: Option<string>,
                                  email: Option<string>, comment: Option<string>)
    requires comparisonId != ""
    ensures ValidateApproval(ApprovalRequest(Some(comparisonId), Some(DecisionName(d)), role, email, comment))
            == Some(ValidApproval(comparisonId, d))
  {
  }

  lemma LowerApproved()
    ensures LowerAscii("APPROVED") == "approved"
  {
    var s, r := "APPROVED", LowerAscii("APPROVED");
    forall i | 0 <= i < |s| ensures r[i] == "approved"[i] {
    }
  }

  lemma LowerRejected()
    ensures LowerAscii("REJECTED") == "rejected"
  {
    var s, r := "REJECTED", LowerAscii("REJECTED");
    forall i | 0 <= i < |s| ensures r[i] == "rejected"[i] {
    }
  }

  /** The reply message embeds the lower-cased decision. */
  lemma ResponseMessages()
    ensures ResponseMessage(Approved) == "Approval " + "approved" + " successfully"
    ensures ResponseMessage(Rejected) == "Approval " + "rejected" + " successfully"
  {
    LowerApproved();
    LowerRejected();
  }

  /**
   * A record built as `submitApproval` builds it (a purchase order exactly
   * when approved) has equal `id` and `approvalId`, and its decision,
   * next step, message and purchase order all agree: from any one of them
   * the decision can be read back.
   */
  lemma ApprovalRecordConsistent(uuid: string, v: ValidApproval, timestamp: string, po: Option<PurchaseOrder>)
    requires po.Some? <==> v.decision == Approved
    ensures var r := ApprovalRecord(uuid, v, timestamp, po);
      && r.id == r.approvalId == "approval-" + uuid
      && r.comparisonId == v.comparisonId
      && (r.decision == "APPROVED" <==> v.decision == Approved)
      && (r.poDetails.Some? <==> v.decision == Approved)
      && (r.nextStep == RejectedNextStep <==> v.decision == Rejected)
      && (v.decision == Approved ==> r.nextStep == PoCreatedPrefix + po.value.poNumber)
      && (r.message == "Comparison rejected" <==> v.decision == Rejected)
  {
    var r := ApprovalRecord(uuid, v, timestamp, po);
    if v.decision == Approved {
      assert r.nextStep[0] == 'P' && RejectedNextStep[0] == 'C';
    }
  }

  // ---------------------------------------------------------------------
  // The ERP collaborator and the controller

  /** The ERP integration service: every purchase-order request it has received. */
  class ErpService {
    /** The purchase order answered to the n-th request. */
    const issue: (PurchaseOrderRequest, nat) -> PurchaseOrder
    var requests: seq<PurchaseOrderRequest>

    constructor (issue: (PurchaseOrderRequest, nat) -> PurchaseOrder)
      ensures this.issue == issue && requests == []
    {
      this.issue := issue;
      requests := [];
    }

    /** `createPurchaseOrder`: records the request and returns its purchase order. */
    method CreatePurchaseOrder(r: PurchaseOrderRequest) returns (po: PurchaseOrder)
      modifies this
      ensures requests == old(requests) + [r]
      ensures po == issue(r, |old(requests)|)
    {
      po := issue(r, |requests|);
      requests := requests + [r];
    }
  }

  class ApprovalController {
    const erp: ErpService

    constructor (erp: ErpService)
      ensures this.erp == erp
    {
      this.erp := erp;
    }

    /**
     * `submitApproval`. An invalid request gets a 400 and the ERP system is
     * not called. An approval calls `createPurchaseOrder` exactly once and
     * records its purchase order; a rejection calls nothing and records none.
     * `poTime` and `now` are the two readings of the clock.
     */
    method SubmitApproval(req: ApprovalRequest, uuid: string, poTime: string, now: string)
      returns (resp: Response<ApprovalResult>)
      modifies erp
      ensures ValidateApproval(req).None? ==>
        resp == Err(400, InvalidApprovalMessage) && erp.requests == old(erp.requests)
      ensures ValidateApproval(req).Some? && ValidateApproval(req).value.decision == Approved ==>
        var order := PurchaseOrderRequest(ValidateApproval(req).value.comparisonId, req.approverEmail, poTime);
        && erp.requests == old(erp.requests) + [order]
        && resp == Ok(ApprovalRecord(uuid, ValidateApproval(req).value, now,
                                     Some(erp.issue(order, |old(erp.requests)|))),
                      Some(ResponseMessage(Approved)))
      ensures ValidateApproval(req).Some? && ValidateApproval(req).value.decision == Rejected ==>
        && erp.requests == old(erp.requests)
        && resp == Ok(ApprovalRecord(uuid, ValidateApproval(req).value, now, None), Some(ResponseMessage(Rejected)))
    {
      var valid := ValidateApproval(req);
      if valid.None? {
        return Err(400, InvalidApprovalMessage);
      }
      var decision := valid.value.decision;
      var poResult: Option<PurchaseOrder> := None;
      if decision == Approved {
        var po := erp.CreatePurchaseOrder(PurchaseOrderRequest(valid.value.comparisonId, req.approverEmail, poTime));
        poResult := Some(po);
      }
      var approvalResult := ApprovalRecord(uuid, valid.value, now, poResult);
      resp := Ok(approvalResult, Some(ResponseMessage(decision)));
    }
  }
}
