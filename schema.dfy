/**
 * The database enums and the rows of the `orders` and `vouchers` tables
 * that the storefront reads and writes. Every enum value has its stored
 * name, and parsing a stored name gives the value back.
 */
module Schema {
  import opened Common

  /** `order_status`. */
  datatype OrderStatus = Pending | Ordered | Shipping | Completed | Cancelled | AwaitingPayment

  /** `payment_status`. */
  datatype PaymentStatus = Unpaid | Paid | Refunded

  /** `voucher_type`. */
  datatype VoucherType = Free | PaidVoucher

  /** `app_role`. */
  datatype AppRole = Admin | User

  /** The stored name of a status. */
  function StatusName(s: OrderStatus): (n: string)
    ensures ParseStatus(n) == Some(s)
  {
    match s
    case Pending => "pending"
    case Ordered => "ordered"
    case Shipping => "shipping"
    case Completed => "completed"
    case Cancelled => "cancelled"
    case AwaitingPayment => "awaiting_payment"
  }

  function ParseStatus(n: string): (r: Option<OrderStatus>)
  {
    if n == "pending" then Some(Pending)
    else if n == "ordered" then Some(Ordered)
    else if n == "shipping" then Some(Shipping)
    else if n == "completed" then Some(Completed)
    else if n == "cancelled" then Some(Cancelled)
    else if n == "awaiting_payment" then Some(AwaitingPayment)
    else None
  }

  function PaymentName(p: PaymentStatus): (n: string)
    ensures ParsePayment(n) == Some(p)
  {
    match p
    case Unpaid => "unpaid"
    case Paid => "paid"
    case Refunded => "refunded"
  }

  function ParsePayment(n: string): (r: Option<PaymentStatus>)
  {
    if n == "unpaid" then Some(Unpaid)
    else if n == "paid" then Some(Paid)
    else if n == "refunded" then Some(Refunded)
    else None
  }

  function VoucherTypeName(t: VoucherType): (n: string)
    ensures ParseVoucherType(n) == Some(t)
  {
    match t
    case Free => "free"
    case PaidVoucher => "paid"
  }

  function ParseVoucherType(n: string): (r: Option<VoucherType>)
  {
    if n == "free" then Some(Free)
    else if n == "paid" then Some(PaidVoucher)
    else None
  }

  function RoleName(r: AppRole): (n: string)
    ensures ParseRole(n) == Some(r)
  {
    match r
    case Admin => "admin"
    case User => "user"
  }

  function ParseRole(n: string): (r: Option<AppRole>)
  {
    if n == "admin" then Some(Admin)
    else if n == "user" then Some(User)
    else None
  }

  /** Every stored name that parses is the name of the value it parses to. */
  lemma ParseInverse(n: string)
    ensures ParseStatus(n).Some? ==> StatusName(ParseStatus(n).value) == n
    ensures ParsePayment(n).Some? ==> PaymentName(ParsePayment(n).value) == n
    ensures ParseVoucherType(n).Some? ==> VoucherTypeName(ParseVoucherType(n).value) == n
    ensures ParseRole(n).Some? ==> RoleName(ParseRole(n).value) == n
  {
  }

  /** The six statuses in the order of the `statusConfig` tables. */
  const AllStatuses: seq<OrderStatus> := [Pending, Ordered, Shipping, Completed, Cancelled, AwaitingPayment]

  /** Their stored names, in the same order. */
  function StatusNames(): (names: seq<string>)
    ensures |names| == |AllStatuses|
    ensures forall i :: 0 <= i < |names| ==> names[i] == StatusName(AllStatuses[i])
  {
    seq(|AllStatuses|, i requires 0 <= i < |AllStatuses| => StatusName(AllStatuses[i]))
  }

  /** Every status appears in the table, at the position `StatusIndex` gives. */
  function StatusIndex(s: OrderStatus): (i: nat)
    ensures i < |AllStatuses| && AllStatuses[i] == s
  {
    match s
    case Pending => 0
    case Ordered => 1
    case Shipping => 2
    case Completed => 3
    case Cancelled => 4
    case AwaitingPayment => 5
  }

  /** A row of `orders` as the screens read it. */
  datatype OrderRow = OrderRow(
    id: string,
    orderCode: string,
    userId: Option<string>,
    productLink: string,
    quantity: int,
    voucherId: Option<string>,
    recipientName: string,
    phoneOrContact: string,
    address: string,
    email: Option<string>,
    notes: Option<string>,
    serviceFee: Option<int>,
    status: OrderStatus,
    paymentStatus: PaymentStatus,
    trackingCode: Option<string>,
    adminNotes: Option<string>)

  /**
   * The record a client sends to `orders.insert`. The order code is `None`
   * when the code generator returned nothing, the quantity `None` when it
   * was NaN, and the fee `None` when it was `null`.
   */
  datatype OrderInsert = OrderInsert(
    userId: Option<string>,
    orderCode: Option<string>,
    productLink: string,
    quantity: Option<int>,
    voucherId: Option<string>,
    recipientName: string,
    phoneOrContact: string,
    address: string,
    email: Option<string>,
    notes: Option<string>,
    serviceFee: Option<int>,
    status: OrderStatus,
    paymentStatus: PaymentStatus)

  /** A row of `vouchers`. */
  datatype VoucherRow = VoucherRow(
    id: string,
    code: string,
    voucherType: VoucherType,
    feeAmount: Option<int>,
    isActive: bool,
    description: Option<string>)
}
