/** Payments, the order's status and the post-payment workflow of one order. */
module Payments {
  import opened Wrappers
  import opened Money
  import opened OrderStatus

  type Time = int

  datatype PaymentMethod = Cash | Card | Transfer | Wallet
  datatype PaymentStatus = AwaitingGateway | Approved | Declined | Refunded | PaymentFailed

  datatype Payment = Payment(
    method_: PaymentMethod,
    amount: nat,
    feeRate: nat,
    feeAmount: nat,
    reference: string,
    status: PaymentStatus,
    externalReference: string,
    approvedAt: Option<Time>,
    errorMessage: string)

  function NetAmount(payment: Payment): int
  {
    payment.amount - payment.feeAmount
  }

  datatype FeeConfig = FeeConfig(cashRate: nat, cardRate: nat, transferRate: nat, walletRate: nat)

  const DEFAULT_FEES: FeeConfig := FeeConfig(0, 350, 0, 100)

  function RateFor(config: Option<FeeConfig>, m: PaymentMethod): nat
  {
    var c := if config.Some? then config.value else DEFAULT_FEES;
    match m
    case Cash => c.cashRate
    case Card => c.cardRate
    case Transfer => c.transferRate
    case Wallet => c.walletRate
  }

  datatype WorkflowStatus = WorkflowPending | WorkflowProcessing | WorkflowCompleted | WorkflowFailed

  datatype Order = Order(
    status: Status,
    total: nat,
    workflowProcessed: bool,
    workflowStatus: WorkflowStatus,
    payment: Option<Payment>)

  /** What the gateway answers; `external` may be empty. */
  datatype GatewayAnswer =
    | Approve(external: string)
    | Decline(external: string, error: string)
    | Hold(external: string)
    | GatewayError

  /** What happens to the workflow of an approved payment: all goes well, the invoice task
      cannot be sent, or it is sent but the transaction fails afterwards. */
  datatype Fate = AllWell | SendFails | CommitFails

  datatype PayError = InvalidMethod | MissingReference | DuplicatePayment | NotPayable | GatewayDown | WorkflowBroke

  /** One order, the invoice tasks sent for it, and how many of those were sent by
      transactions that then failed. */
  datatype Desk = Desk(order: Order, sent: nat, sentInVain: nat)

  const DECLINED_MESSAGE := "El pago fue rechazado por la pasarela."

  predicate Payable(status: Status)
  {
    Paid in ValidTransitions(status)
  }

  function WithExternal(payment: Payment, external: string): Payment
  {
    if external == "" then payment else payment.(externalReference := external)
  }

  function Resolved(payment: Payment, answer: GatewayAnswer, now: Time): Payment
  {
    match answer
    case Approve(x) => WithExternal(payment, x).(status := Approved, approvedAt := Some(now), errorMessage := "")
    case Decline(x, error) =>
      WithExternal(payment, x).(status := Declined, errorMessage := if error == "" then DECLINED_MESSAGE else error)
    case Hold(x) => WithExternal(payment, x)
    case GatewayError => payment
  }

  /** A transaction's outcome: the new desk, and the payment or the error that rolled it back. */
  datatype Outcome = Outcome(desk: Desk, result: Result<Payment, PayError>)

  /** The gateway's answer applied to a payment of `order`; `before` is the desk to return
      to if the transaction fails. */
  function Settled(before: Desk, order: Order, payment: Payment, answer: GatewayAnswer, fate: Fate, now: Time): Outcome
  {
    var resolved := Resolved(payment, answer, now);
    var recorded := order.(payment := Some(resolved));
    if answer.GatewayError? then Outcome(before, Err(GatewayDown))
    else if !answer.Approve? || !Payable(order.status) then
      Outcome(before.(order := recorded), Ok(resolved))
    else if order.workflowProcessed then
      Outcome(before.(order := recorded.(status := Paid)), Ok(resolved))
    else match fate
      case SendFails => Outcome(before, Err(WorkflowBroke))
      case CommitFails =>
        Outcome(before.(sent := before.sent + 1, sentInVain := before.sentInVain + 1), Err(WorkflowBroke))
      case AllWell =>
        Outcome(Desk(recorded.(status := Paid, workflowProcessed := true, workflowStatus := WorkflowCompleted),
                     before.sent + 1, before.sentInVain),
                Ok(resolved))
  }

  function NewPayment(order: Order, m: PaymentMethod, reference: string, config: Option<FeeConfig>): Payment
  {
    var rate := RateFor(config, m);
    Payment(m, order.total, rate, Fee(order.total, rate), reference, AwaitingGateway, "", None, "")
  }

  function Processed(
      d: Desk, m: Option<PaymentMethod>, reference: string, config: Option<FeeConfig>,
      answer: GatewayAnswer, fate: Fate, now: Time): Outcome
  {
    var existing := d.order.payment;
    if m == None then Outcome(d, Err(InvalidMethod))
    else if m.value != Cash && reference == "" then Outcome(d, Err(MissingReference))
    else if existing.Some? && existing.value.status in {AwaitingGateway, Approved, Refunded} then
      Outcome(d, Err(DuplicatePayment))
    else if !Payable(d.order.status) then Outcome(d, Err(NotPayable))
    else Settled(d, d.order, NewPayment(d.order, m.value, reference, config), answer, fate, now)
  }

  /** Confirmation of a waiting payment; a payment that is not waiting is left alone. */
  function Confirmed(d: Desk, answer: GatewayAnswer, fate: Fate, now: Time): Desk
  {
    if d.order.payment == None || d.order.payment.value.status != AwaitingGateway then d
    else Settled(d, d.order, d.order.payment.value, answer, fate, now).desk
  }

  datatype Step =
    | Pay(m: Option<PaymentMethod>, reference: string, config: Option<FeeConfig>,
          answer: GatewayAnswer, fate: Fate, now: Time)
    | Confirm(answer: GatewayAnswer, fate: Fate, now: Time)
    | ChangeStatus(status: Status)
    | EditTotal(total: nat)

  function Apply(d: Desk, step: Step): Desk
  {
    match step
    case Pay(m, reference, config, answer, fate, now) => Processed(d, m, reference, config, answer, fate, now).desk
    case Confirm(answer, fate, now) => Confirmed(d, answer, fate, now)
    case ChangeStatus(status) =>
      if status in ValidTransitions(d.order.status) then d.(order := d.order.(status := status)) else d
    case EditTotal(total) =>
      if d.order.status in {Draft, Pending} then d.(order := d.order.(total := total)) else d
  }

  function Run(d: Desk, steps: seq<Step>): Desk
    decreases |steps|
  {
    if steps == [] then d else Run(Apply(d, steps[0]), steps[1..])
  }

  predicate Initial(d: Desk)
  {
    && d.order.status in {Draft, Pending} && d.order.payment == None && !d.order.workflowProcessed
    && d.sent == 0 && d.sentInVain == 0
  }

  // ---------------------------------------------------------------- what every run keeps

  predicate HasApproved(d: Desk)
  {
    d.order.payment.Some? && d.order.payment.value.status == Approved
  }

  predicate DeskInv(d: Desk)
  {
    && (d.order.payment.Some? ==>
          && d.order.payment.value.status !in {Refunded, PaymentFailed}
          && d.order.payment.value.feeAmount == Fee(d.order.payment.value.amount, d.order.payment.value.feeRate)
          && d.order.status !in {Draft, Courtesy})
    && (d.order.status == Pending ==> !HasApproved(d))
    && (d.order.workflowProcessed ==> HasApproved(d) && Rank(d.order.status) >= Rank(Paid))
    && d.sent == d.sentInVain + if d.order.workflowProcessed then 1 else 0
  }

  lemma DeskStep(d: Desk, step: Step)
    requires DeskInv(d)
    ensures DeskInv(Apply(d, step))
    ensures var before, after := d.order.status, Apply(d, step).order.status;
            after == before || after in ValidTransitions(before)
    ensures HasApproved(d) ==> Apply(d, step).order.payment == d.order.payment
    ensures d.order.workflowProcessed ==> Apply(d, step).order.workflowProcessed
  {
  }

  lemma {:induction false} DeskRun(d: Desk, steps: seq<Step>)
    requires DeskInv(d)
    ensures DeskInv(Run(d, steps))
    ensures HasApproved(d) ==> Run(d, steps).order.payment == d.order.payment
    ensures Rank(Run(d, steps).order.status) >= Rank(d.order.status)
    ensures d.order.status == Cancelled ==> Run(d, steps).order.status == Cancelled
    ensures d.order.workflowProcessed ==>
              && Run(d, steps).order.workflowProcessed
              && Run(d, steps).sent - Run(d, steps).sentInVain == d.sent - d.sentInVain
    decreases |steps|
  {
    if steps != [] {
      DeskStep(d, steps[0]);
      DeskRun(Apply(d, steps[0]), steps[1..]);
    }
  }

  /** Over every run, manual status changes included: the workflow is recorded at most
      once and only for an approved payment, every invoice task beyond it was sent by a
      transaction that failed, an approved payment is never replaced or altered, a
      cancelled order stays cancelled, and the fee is always the fee of its own amount. */
  lemma PaymentSafety(d: Desk, before: seq<Step>, after: seq<Step>)
    requires Initial(d)
    ensures var s := Run(d, before);
            var t := Run(s, after);
            && s.sent <= 1 + s.sentInVain
            && (s.order.workflowProcessed ==> HasApproved(s) && t.sent - t.sentInVain == 1)
            && (HasApproved(s) ==> t.order.payment == s.order.payment)
            && (s.order.status == Cancelled ==> t.order.status == Cancelled)
            && (s.order.payment.Some? ==>
                  s.order.payment.value.feeAmount == Fee(s.order.payment.value.amount, s.order.payment.value.feeRate))
  {
    DeskRun(d, before);
    DeskRun(Run(d, before), after);
  }

  /** With rates of at most 100%, no payment nets a negative amount. */
  lemma NetIsNotNegative(d: Desk, steps: seq<Step>)
    requires Initial(d)
    ensures var p := Run(d, steps).order.payment;
            p.Some? && p.value.feeRate <= FULL_RATE ==> 0 <= NetAmount(p.value) <= p.value.amount
  {
    DeskRun(d, steps);
    var p := Run(d, steps).order.payment;
    if p.Some? && p.value.feeRate <= FULL_RATE {
      FeeBounds(p.value.amount, p.value.feeRate, p.value.feeAmount);
    }
  }

  // ---------------------------------------------------------------- paid means approved, exactly

  /** A status page moving a pending order to paid by hand. */
  predicate PaysByHand(d: Desk, step: Step)
  {
    step == ChangeStatus(Paid) && d.order.status == Pending
  }

  predicate NeverPaidByHand(d: Desk, steps: seq<Step>)
    decreases |steps|
  {
    steps != [] ==> !PaysByHand(d, steps[0]) && NeverPaidByHand(Apply(d, steps[0]), steps[1..])
  }

  /** At every point of the run, a paid order has an approved payment. */
  predicate AlwaysBacked(d: Desk, steps: seq<Step>)
    decreases |steps|
  {
    && (d.order.status == Paid ==> HasApproved(d))
    && (steps != [] ==> AlwaysBacked(Apply(d, steps[0]), steps[1..]))
  }

  predicate Backed(d: Desk)
  {
    && (d.order.status == Paid ==> HasApproved(d))
    && (d.order.payment.Some? && d.order.payment.value.status in {AwaitingGateway, Declined} ==>
          d.order.status in {Pending, Cancelled})
  }

  lemma {:induction false} BackedExactly(d: Desk, steps: seq<Step>)
    requires DeskInv(d) && Backed(d)
    ensures AlwaysBacked(d, steps) <==> NeverPaidByHand(d, steps)
    ensures NeverPaidByHand(d, steps) ==> Backed(Run(d, steps))
    decreases |steps|
  {
    if steps != [] {
      DeskStep(d, steps[0]);
      var next := Apply(d, steps[0]);
      if PaysByHand(d, steps[0]) {
        assert next.order.status == Paid && !HasApproved(next);
      } else {
        assert Backed(next);
        BackedExactly(next, steps[1..]);
      }
    }
  }

  /** The order is paid at some point of the run. */
  predicate EverPaid(d: Desk, steps: seq<Step>)
    decreases |steps|
  {
    d.order.status == Paid || (steps != [] && EverPaid(Apply(d, steps[0]), steps[1..]))
  }

  lemma {:induction false} OncePaidStaysApproved(d: Desk, steps: seq<Step>)
    requires DeskInv(d) && AlwaysBacked(d, steps) && EverPaid(d, steps)
    ensures HasApproved(Run(d, steps))
    decreases |steps|
  {
    if d.order.status == Paid {
      DeskRun(d, steps);
    } else {
      DeskStep(d, steps[0]);
      OncePaidStaysApproved(Apply(d, steps[0]), steps[1..]);
    }
  }

  /** A paid order always has an approved payment, throughout a run, exactly when no
      status page pays a pending order by hand; then a waiting payment's order is pending
      or cancelled, and an order that was ever paid still has its approved payment. */
  lemma PaidMeansApprovedExactly(d: Desk, steps: seq<Step>)
    requires Initial(d)
    ensures AlwaysBacked(d, steps) <==> NeverPaidByHand(d, steps)
    ensures NeverPaidByHand(d, steps) ==>
              var p := Run(d, steps).order.payment;
              p.Some? && p.value.status == AwaitingGateway ==> Run(d, steps).order.status in {Pending, Cancelled}
    ensures NeverPaidByHand(d, steps) && EverPaid(d, steps) ==> HasApproved(Run(d, steps))
  {
    BackedExactly(d, steps);
    if NeverPaidByHand(d, steps) && EverPaid(d, steps) {
      OncePaidStaysApproved(d, steps);
    }
  }

  lemma {:induction false} CancelledRun(d: Desk, steps: seq<Step>)
    requires DeskInv(d) && d.order.status == Cancelled && !d.order.workflowProcessed
    ensures var t := Run(d, steps);
            t.order.status == Cancelled && !t.order.workflowProcessed && t.sent == d.sent
    decreases |steps|
  {
    if steps != [] {
      DeskStep(d, steps[0]);
      CancelledRun(Apply(d, steps[0]), steps[1..]);
    }
  }

  /** An order cancelled before its workflow ran is never revived, over every run: whatever
      the gateway approves later, it stays cancelled, runs no workflow and sends no invoice
      task. */
  lemma CancelledIsNotRevived(d: Desk, before: seq<Step>, after: seq<Step>)
    requires Initial(d)
    requires Run(d, before).order.status == Cancelled && !Run(d, before).order.workflowProcessed
    ensures var t := Run(Run(d, before), after);
            t.order.status == Cancelled && !t.order.workflowProcessed && t.sent == Run(d, before).sent
  {
    DeskRun(d, before);
    CancelledRun(Run(d, before), after);
  }
}
