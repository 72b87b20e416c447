/** The values every part of the service shares: identifiers, statuses, rows and errors. */
module Domain {

  /** A UUID. Only equality matters, so a number stands for it. */
  type Id = nat

  newtype byte = x: int | 0 <= x < 256
  type Bytes = seq<byte>

  datatype Option<+T> = None | Some(value: T)

  datatype Result<+T> = Ok(value: T) | Err(error: Error)

  /** What a provider reports about a payment: "paid" or "failed". */
  datatype Verdict = VPaid | VFailed

  /** "pending", or the terminal "paid" / "failed". */
  datatype PaymentStatus = Unsettled | Settled(verdict: Verdict)

  /** "pending", "pending_payment", "paid", "payment_failed". */
  datatype OrderStatus = Pending | PendingPayment | Paid | PaymentFailed

  /** Quantity and price are integers in units of 10^-8, as numeric(24,8) stores them. */
  datatype Order = Order(user: Id, symbol: Bytes, side: string, quantity: int, price: int, status: OrderStatus)

  /** The amount is in units of 10^-8. */
  datatype Payment = Payment(oid: Id, reference: string, amount: int, status: PaymentStatus)

  /** The calendar day a file is stored under. */
  datatype Date = Date(year: nat, month: nat, day: nat)

  /** A stored file: its day directory, the generated name and the extension. */
  datatype Path = Path(date: Date, name: Id, ext: string)

  datatype Upload = Upload(oid: Id, contentType: string, size: int, path: Path)

  /** The body of an order create or update request; quantity and price are exact decimals. */
  datatype OrderRequest = OrderRequest(symbol: Bytes, side: string, quantity: real, price: real)

  /** The payment struct `Create` and `ApplyProviderCallback` hand back; the amount is in units of 10^-16. */
  datatype Receipt = Receipt(pid: Id, oid: Id, reference: string, amount: int, status: PaymentStatus)

  datatype Error =
    // order
    | InvalidSymbol | InvalidSide | InvalidQuantity | InvalidPrice | OrderNotFound
    // payment
    | PaymentOrderNotFound | OrderNotPayable | DuplicatePayment | InvalidAmount
    | PaymentNotFound | InvalidStatusTransition
    // upload
    | UploadOrderNotFound | EmptyFile | FileTooLarge | UnsupportedContentType | UploadNotFound | InvalidStoragePath
    // webhook
    | InvalidSignature | InvalidRequest | InvalidStatus
    // anything the database driver or the file system reports
    | Driver | Storage

  /** A repository call succeeds, fails before taking effect, or takes effect and then fails. */
  datatype Fault = NoFault | LostCall | LostReply

  function Image(v: Verdict): OrderStatus {
    if v.VPaid? then Paid else PaymentFailed
  }

  /** The order status a payment status calls for. */
  function ImageOf(p: PaymentStatus): OrderStatus {
    match p
    case Unsettled => PendingPayment
    case Settled(v) => Image(v)
  }

  /** Only "paid" and "failed" are accepted from a provider. */
  function ParseVerdict(status: string): Option<Verdict> {
    if status == "paid" then Some(VPaid) else if status == "failed" then Some(VFailed) else None
  }

  function Rank(st: OrderStatus): nat {
    match st
    case Pending => 0
    case PendingPayment => 1
    case _ => 2
  }

  /** The exact value of an order, quantity times price, in units of 10^-16. */
  function Gross(o: Order): int {
    o.quantity * o.price
  }
}
