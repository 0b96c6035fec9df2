/** The invoice columns of an order and the two use cases that write them:
    emission and status query. */
module InvoiceUseCases {
  import opened Wrappers
  import opened InvoiceSyncQueue

  datatype InvoiceStatus =
    | NotIssued | Queued | Emitting | Submitted | SyncPending | SyncProcessing
    | Accepted | Observed | Rejected | Retrying | EmissionFailed | Voided

  /** The statuses the poll task treats as final. */
  const TERMINAL_STATUSES: set<InvoiceStatus> := {Accepted, Observed, Rejected, Voided}

  /** The invoice columns of an order. The empty string stands for a null or empty
      `invoice_external_id` or `invoice_hash`: the code only tests them for truth. */
  datatype Invoice = Invoice(
    status: InvoiceStatus,
    externalId: string,
    hash: string,
    attempts: nat,
    lastError: Option<string>)

  /** The database rows of one order: its invoice columns and its queue entry, if any. */
  class Database {
    var order: Invoice
    var entry: Option<Row>

    constructor (order: Invoice)
      ensures this.order == order && entry == None
    {
      this.order := order;
      this.entry := None;
    }
  }

  // ---------------------------------------------------------------- status query

  /** What the provider answers to a status query: a normalised reply with its three
      independent flags, or one of the three kinds of error. */
  datatype Answer =
    | Reply(accepted: bool, observed: bool, rejected: bool, hash: string, raw: string)
    | QueryTemporary(message: string)
    | QueryPermanent(message: string)
    | QueryUnexpected(message: string)

  /** How a poll's query ended, as the task sees it. */
  datatype Verdict =
    | Settled(raw: string)
    | Unsettled(raw: string)
    | TemporaryFailure(message: string)
    | PermanentFailure(message: string)
    | UnexpectedFailure(message: string)

  function ResolveStatus(accepted: bool, observed: bool, rejected: bool): (status: InvoiceStatus)
    ensures status in TERMINAL_STATUSES <==> accepted || observed || rejected
    ensures status == Rejected <==> rejected
    ensures status == Observed <==> observed && !rejected
    ensures status == Accepted <==> accepted && !observed && !rejected
    ensures status == SyncPending <==> !accepted && !observed && !rejected
  {
    if rejected then Rejected else if observed then Observed else if accepted then Accepted else SyncPending
  }

  const MISSING_EXTERNAL_ID := "order has no invoice_external_id"

  datatype QueryEffect = QueryEffect(stored: Invoice, copy: Invoice, verdict: Verdict)

  /** The effect of a status query on the stored invoice columns, given the copy of the
      order that was read when the poll began. Only the status column, and the hash
      column when the copy has none, are written back. */
  function QueryInvoice(stored: Invoice, copy: Invoice, answer: Answer): QueryEffect
  {
    if copy.externalId == "" then
      QueryEffect(stored, copy, PermanentFailure(MISSING_EXTERNAL_ID))
    else match answer
      case QueryTemporary(m) => QueryEffect(stored, copy, TemporaryFailure(m))
      case QueryPermanent(m) => QueryEffect(stored, copy, PermanentFailure(m))
      case QueryUnexpected(m) => QueryEffect(stored, copy, UnexpectedFailure(m))
      case Reply(accepted, observed, rejected, hash, raw) =>
        var status := ResolveStatus(accepted, observed, rejected);
        var fillsHash := hash != "" && copy.hash == "";
        QueryEffect(
          stored.(status := status, hash := if fillsHash then hash else stored.hash),
          copy.(status := status, hash := if fillsHash then hash else copy.hash),
          if status in TERMINAL_STATUSES then Settled(raw) else Unsettled(raw))
  }

  // ---------------------------------------------------------------- emission

  /** What the provider answers to an emission. A success always names the invoice. */
  type ExternalId = id: string | id != "" witness "B001-1"

  datatype EmissionAnswer =
    | Issued(externalId: ExternalId, hash: string)
    | EmitTemporary(message: string)
    | EmitPermanent(message: string)
    | EmitUnexpected(message: string)

  /** The whole-row save of the task's copy after a successful emission. */
  function RecordIssued(copy: Invoice, externalId: ExternalId, hash: string): Invoice
  {
    copy.(status := Submitted, externalId := externalId, hash := hash)
  }
}
