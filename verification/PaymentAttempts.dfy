/** One attempt to pay, and the next: when an attempt is refused and why, what it stores, and
    what a declined one leaves room for. */
module PaymentAttempts {
  import opened Wrappers
  import opened Money
  import opened OrderStatus
  import opened Payments

  // ---------------------------------------------------------------- rates

  /** Each method has its own rate: changing one changes it for that method alone. */
  lemma RatesAreIndependent(c: FeeConfig, rate: nat, m: PaymentMethod)
    ensures RateFor(Some(c.(cashRate := rate)), m) == if m == Cash then rate else RateFor(Some(c), m)
    ensures RateFor(Some(c.(cardRate := rate)), m) == if m == Card then rate else RateFor(Some(c), m)
    ensures RateFor(Some(c.(transferRate := rate)), m) == if m == Transfer then rate else RateFor(Some(c), m)
    ensures RateFor(Some(c.(walletRate := rate)), m) == if m == Wallet then rate else RateFor(Some(c), m)
  {
  }

  /** Without a configuration, cards cost 3.5%, wallets 1%, and the rest nothing. */
  lemma DefaultRates(m: PaymentMethod)
    ensures RateFor(None, m) == if m == Card then 350 else if m == Wallet then 100 else 0
  {
  }

  // ---------------------------------------------------------------- answers

  /** What the gateway's answer leaves on a payment, column by column. */
  lemma AnswerIsRecorded(p: Payment, answer: GatewayAnswer, now: Time)
    requires !answer.GatewayError?
    ensures var r := Resolved(p, answer, now);
            && r.status == (if answer.Approve? then Approved else if answer.Decline? then Declined else p.status)
            && r.approvedAt == (if answer.Approve? then Some(now) else p.approvedAt)
            && r.externalReference == (if answer.external != "" then answer.external else p.externalReference)
            && r.errorMessage ==
               (if answer.Approve? then ""
                else if answer.Decline? then (if answer.error != "" then answer.error else DECLINED_MESSAGE)
                else p.errorMessage)
            && r.method_ == p.method_ && r.amount == p.amount && r.reference == p.reference
            && r.feeRate == p.feeRate && r.feeAmount == p.feeAmount
  {
  }

  // ---------------------------------------------------------------- one attempt

  /** A method the shop knows, with a reference unless it is cash. */
  predicate WellFormed(m: Option<PaymentMethod>, reference: string)
  {
    m.Some? && (m.value == Cash || reference != "")
  }

  /** The order has a payment that stands: waiting, approved or refunded. */
  predicate HasStandingPayment(order: Order)
  {
    order.payment.Some? && order.payment.value.status in {AwaitingGateway, Approved, Refunded}
  }

  predicate Admitted(order: Order, m: Option<PaymentMethod>, reference: string)
  {
    WellFormed(m, reference) && !HasStandingPayment(order) && order.status == Pending
  }

  predicate WorkflowBreaks(order: Order, answer: GatewayAnswer, fate: Fate)
  {
    answer.Approve? && !order.workflowProcessed && fate != AllWell
  }

  /** An attempt fails for exactly one reason, in this order: its method, its reference, a
      payment that stands, an order that is not pending, the gateway, or the workflow of an
      approved payment. A failed attempt leaves the order as it was. */
  lemma RefusalsExactly(
      d: Desk, m: Option<PaymentMethod>, reference: string, config: Option<FeeConfig>,
      answer: GatewayAnswer, fate: Fate, now: Time)
    ensures var out := Processed(d, m, reference, config, answer, fate, now);
            && (out.result == Err(InvalidMethod) <==> m == None)
            && (out.result == Err(MissingReference) <==> m.Some? && m.value != Cash && reference == "")
            && (out.result == Err(DuplicatePayment) <==> WellFormed(m, reference) && HasStandingPayment(d.order))
            && (out.result == Err(NotPayable) <==>
                  WellFormed(m, reference) && !HasStandingPayment(d.order) && d.order.status != Pending)
            && (out.result == Err(GatewayDown) <==> Admitted(d.order, m, reference) && answer.GatewayError?)
            && (out.result == Err(WorkflowBroke) <==>
                  Admitted(d.order, m, reference) && WorkflowBreaks(d.order, answer, fate))
            && (out.result.Err? ==> out.desk.order == d.order)
            && (out.result.Err? && out.desk != d ==>
                  fate == CommitFails && out.desk.sent == d.sent + 1 && out.desk.sentInVain == d.sentInVain + 1)
  {
  }

  /** An attempt that goes through stores one new payment of the order's current total, at
      the rate of its method and with the half-up fee, in the status the answer gives it; an
      approval also pays the order and runs its workflow once. */
  lemma AttemptIsStored(
      d: Desk, m: Option<PaymentMethod>, reference: string, config: Option<FeeConfig>,
      answer: GatewayAnswer, fate: Fate, now: Time)
    requires Processed(d, m, reference, config, answer, fate, now).result.Ok?
    ensures var out := Processed(d, m, reference, config, answer, fate, now);
            var p := out.result.value;
            && out.desk.order.payment == Some(p)
            && Some(p.method_) == m && p.amount == d.order.total && p.reference == reference
            && p.feeRate == RateFor(config, p.method_) && IsFee(p.feeAmount, p.amount, p.feeRate)
            && p.status == (if answer.Approve? then Approved else if answer.Decline? then Declined else AwaitingGateway)
            && p.approvedAt == (if answer.Approve? then Some(now) else None)
            && p.externalReference == answer.external
            && out.desk.order.total == d.order.total
            && out.desk.order.status == (if answer.Approve? then Paid else Pending)
            && out.desk.order.workflowProcessed == (d.order.workflowProcessed || answer.Approve?)
            && out.desk.sent == d.sent + (if answer.Approve? && !d.order.workflowProcessed then 1 else 0)
  {
    FeeBounds(d.order.total, RateFor(config, m.value), Fee(d.order.total, RateFor(config, m.value)));
  }

  /** A confirmation touches a waiting payment only, and gives it the answer's status; an
      approval pays the order if it is still pending, and otherwise leaves it alone. */
  lemma ConfirmationExactly(d: Desk, answer: GatewayAnswer, fate: Fate, now: Time)
    ensures var t := Confirmed(d, answer, fate, now);
            var waits := d.order.payment.Some? && d.order.payment.value.status == AwaitingGateway;
            if !waits || answer.GatewayError? then t == d
            else if d.order.status == Pending && WorkflowBreaks(d.order, answer, fate) then t.order == d.order
            else
              && t.order.payment == Some(Resolved(d.order.payment.value, answer, now))
              && t.order.status == (if answer.Approve? && d.order.status == Pending then Paid else d.order.status)
              && t.order.total == d.order.total
  {
  }

  // ---------------------------------------------------------------- after a declined attempt

  predicate HasDeclined(d: Desk)
  {
    d.order.payment.Some? && d.order.payment.value.status == Declined
  }

  predicate NoAttempt(steps: seq<Step>)
  {
    forall i :: 0 <= i < |steps| ==> !steps[i].Pay?
  }

  lemma {:induction false} StaysDeclined(d: Desk, steps: seq<Step>)
    requires HasDeclined(d) && NoAttempt(steps)
    ensures Run(d, steps).order.payment == d.order.payment
    decreases |steps|
  {
    if steps != [] {
      assert Apply(d, steps[0]).order.payment == d.order.payment;
      StaysDeclined(Apply(d, steps[0]), steps[1..]);
    }
  }

  /** In every run, a declined attempt makes room for the next: whatever happens short of
      another attempt, a well-formed one is never a duplicate, and while the order is
      pending it is admitted and replaces the declined payment by one of the order's
      current total. */
  lemma DeclinedAttemptIsReplaced(
      d: Desk, before: seq<Step>, declined: Step, between: seq<Step>,
      m: Option<PaymentMethod>, reference: string, config: Option<FeeConfig>,
      answer: GatewayAnswer, fate: Fate, now: Time)
    requires Initial(d) && declined.Pay? && declined.answer.Decline? && NoAttempt(between)
    requires Admitted(Run(d, before).order, declined.m, declined.reference)
    requires WellFormed(m, reference)
    ensures var t := Run(Apply(Run(d, before), declined), between);
            var out := Processed(t, m, reference, config, answer, fate, now);
            && HasDeclined(t)
            && out.result != Err(DuplicatePayment)
            && (t.order.status == Pending && !answer.GatewayError? && !WorkflowBreaks(t.order, answer, fate) ==>
                  && out.result.Ok? && out.desk.order.payment == Some(out.result.value)
                  && out.result.value.amount == t.order.total && Some(out.result.value.method_) == m
                  && out.result.value.feeRate == RateFor(config, m.value))
  {
    var s := Run(d, before);
    var first := Apply(s, declined);
    RefusalsExactly(s, declined.m, declined.reference, declined.config, declined.answer, declined.fate, declined.now);
    AttemptIsStored(s, declined.m, declined.reference, declined.config, declined.answer, declined.fate, declined.now);
    assert HasDeclined(first);
    StaysDeclined(first, between);
    var t := Run(first, between);
    RefusalsExactly(t, m, reference, config, answer, fate, now);
    if Processed(t, m, reference, config, answer, fate, now).result.Ok? {
      AttemptIsStored(t, m, reference, config, answer, fate, now);
    }
  }
}
