/** The payment service and the post-payment workflow, updating one order's rows in place. */
module PaymentService {
  import opened Wrappers
  import opened Money
  import opened OrderStatus
  import opened Payments

  class OrderRecord {
    var status: Status
    var total: nat
    var workflowProcessed: bool
    var workflowStatus: WorkflowStatus
    var payment: Option<Payment>
    /** Invoice tasks sent, and those sent by transactions that then failed: histories. */
    var sent: nat
    var sentInVain: nat

    function State(): Desk
      reads this
    {
      Desk(Order(status, total, workflowProcessed, workflowStatus, payment), sent, sentInVain)
    }

    constructor (status: Status, total: nat)
      ensures State() == Desk(Order(status, total, false, WorkflowPending, None), 0, 0)
    {
      this.status, this.total := status, total;
      workflowProcessed, workflowStatus, payment := false, WorkflowPending, None;
      sent, sentInVain := 0, 0;
    }

    /** The database undoes a failed transaction; a sent task is not taken back. */
    method Rollback(saved: Desk)
      modifies this
      ensures State() == Desk(saved.order, old(sent), old(sentInVain) + old(sent) - saved.sent)
      requires saved.sent <= sent
    {
      status, total, payment := saved.order.status, saved.order.total, saved.order.payment;
      workflowProcessed, workflowStatus := saved.order.workflowProcessed, saved.order.workflowStatus;
      sentInVain := sentInVain + (sent - saved.sent);
    }

    method ProcessPayment(
        m: Option<PaymentMethod>, reference: string, config: Option<FeeConfig>,
        answer: GatewayAnswer, fate: Fate, now: Time)
      returns (result: Result<Payment, PayError>)
      modifies this
      ensures Outcome(State(), result) == Processed(old(State()), m, reference, config, answer, fate, now)
    {
      if m == None {
        return Err(InvalidMethod);
      }
      if m.value != Cash && reference == "" {
        return Err(MissingReference);
      }
      var saved := State();
      if payment.Some? {
        if payment.value.status in {AwaitingGateway, Approved, Refunded} {
          return Err(DuplicatePayment);
        }
        payment := None;
      }
      if !Payable(status) {
        Rollback(saved);
        return Err(NotPayable);
      }
      var feeRate := RateFor(config, m.value);
      var fee := Fee(total, feeRate);
      payment := Some(Payment(m.value, total, feeRate, fee, reference, AwaitingGateway, "", None, ""));
      if answer.GatewayError? {
        Rollback(saved);
        return Err(GatewayDown);
      }
      var raised := ApplyResult(answer, fate, now);
      if raised {
        Rollback(saved);
        return Err(WorkflowBroke);
      }
      return Ok(payment.value);
    }

    method ConfirmPayment(answer: GatewayAnswer, fate: Fate, now: Time)
      modifies this
      ensures State() == Confirmed(old(State()), answer, fate, now)
    {
      if payment == None || payment.value.status != AwaitingGateway {
        return;
      }
      var saved := State();
      if answer.GatewayError? {
        return;
      }
      var raised := ApplyResult(answer, fate, now);
      if raised {
        Rollback(saved);
      }
    }

    /** The gateway's answer on the current payment; `raised` tells that the workflow failed. */
    method ApplyResult(answer: GatewayAnswer, fate: Fate, now: Time) returns (raised: bool)
      requires payment.Some? && !answer.GatewayError?
      modifies this
      ensures payment == Some(Resolved(old(payment).value, answer, now))
      ensures var pays := answer.Approve? && Payable(old(status));
              var runs := pays && !old(workflowProcessed);
              && (raised <==> runs && fate != AllWell)
              && sent == old(sent) + (if runs && fate != SendFails then 1 else 0)
              && sentInVain == old(sentInVain) && total == old(total)
              && (!raised ==>
                    && status == (if pays then Paid else old(status))
                    && workflowProcessed == (old(workflowProcessed) || runs)
                    && workflowStatus == if runs then WorkflowCompleted else old(workflowStatus))
    {
      var p := payment.value;
      if answer.external != "" {
        p := p.(externalReference := answer.external);
      }
      match answer {
        case Approve(_) =>
          p := p.(status := Approved);
          p := p.(approvedAt := Some(now), errorMessage := "");
          payment := Some(p);
          raised := MarkOrderPaid(fate);
        case Decline(_, error) =>
          p := p.(status := Declined);
          p := p.(errorMessage := if error != "" then error else DECLINED_MESSAGE);
          payment := Some(p);
          raised := false;
        case Hold(_) =>
          payment := Some(p);
          raised := false;
      }
    }

    /** The guarded promotion to paid. */
    method MarkOrderPaid(fate: Fate) returns (raised: bool)
      modifies this`status, this`workflowProcessed, this`workflowStatus, this`sent
      ensures var pays := Payable(old(status));
              var runs := pays && !old(workflowProcessed);
              && (raised <==> runs && fate != AllWell)
              && sent == old(sent) + (if runs && fate != SendFails then 1 else 0)
              && (!raised ==>
                    && status == (if pays then Paid else old(status))
                    && workflowProcessed == (old(workflowProcessed) || runs)
                    && workflowStatus == if runs then WorkflowCompleted else old(workflowStatus))
    {
      if Paid !in ValidTransitions(status) {
        return false;
      }
      status := Paid;
      raised := HandleOrderPaid(fate);
    }

    /** The post-payment workflow: claimed once, then the invoice task is sent. */
    method HandleOrderPaid(fate: Fate) returns (raised: bool)
      modifies this`workflowProcessed, this`workflowStatus, this`sent
      ensures var runs := status == Paid && !old(workflowProcessed);
              && (raised <==> runs && fate != AllWell)
              && sent == old(sent) + (if runs && fate != SendFails then 1 else 0)
              && (!raised ==>
                    && workflowProcessed == (old(workflowProcessed) || runs)
                    && workflowStatus == if runs then WorkflowCompleted else old(workflowStatus))
    {
      if status != Paid {
        return false;
      }
      if workflowProcessed {
        return false;
      }
      var claimed := ClaimWorkflowLock();
      if !claimed {
        return false;
      }
      if fate == SendFails {
        workflowStatus := WorkflowFailed;
        return true;
      }
      sent := sent + 1;
      workflowProcessed := true;
      workflowStatus := WorkflowCompleted;
      return fate == CommitFails;
    }

    method ClaimWorkflowLock() returns (claimed: bool)
      modifies this`workflowStatus
      ensures claimed <==> !workflowProcessed
      ensures workflowStatus == if claimed then WorkflowProcessing else old(workflowStatus)
    {
      if workflowProcessed {
        return false;
      }
      workflowStatus := WorkflowProcessing;
      return true;
    }
  }
}
