/**
 * The customer order form. It keeps the active vouchers, the "limit
 * reached" lock, the signed-in user and the form fields as page state. On
 * submit it derives the service fee and payment status from the selected
 * voucher, inserts the order and redirects to the tracking page of the
 * generated code.
 */
module OrderForm {
  import opened Common
  import opened JsNumber
  import opened Seqs
  import opened Schema

  /** The form fields; `quantity` is `None` after an input that `parseInt` reads as NaN. */
  datatype FormData = FormData(
    productLink: string,
    quantity: Option<int>,
    voucherId: string,
    recipientName: string,
    phoneOrContact: string,
    address: string,
    email: string,
    notes: string)

  const InitialForm := FormData("", Some(1), "", "", "", "", "", "")

  /** The rows `vouchers.select().eq("is_active", true)` returns, in table order. */
  function ActiveVouchers(table: seq<VoucherRow>): (r: seq<VoucherRow>)
    ensures forall v :: v in r <==> v in table && v.isActive
    ensures IsSubsequence(r, table)
  {
    var p := (v: VoucherRow) => v.isActive;
    forall v | true ensures v in Filter(table, p) <==> v in table && v.isActive {
      FilterMember(table, p, v);
    }
    FilterIsSubsequence(table, p);
    Filter(table, p)
  }

  /** `vouchers.find(v => v.id === id)`: the first voucher with that id. */
  function SelectVoucher(vouchers: seq<VoucherRow>, id: string): (r: Option<VoucherRow>)
    ensures r.None? <==> forall i :: 0 <= i < |vouchers| ==> vouchers[i].id != id
    ensures r.Some? ==> exists i :: 0 <= i < |vouchers| && vouchers[i] == r.value && r.value.id == id
                                    && forall j :: 0 <= j < i ==> vouchers[j].id != id
  {
    if vouchers == [] then None
    else if vouchers[0].id == id then Some(vouchers[0])
    else
      var r := SelectVoucher(vouchers[1..], id);
      assert forall i :: 1 <= i < |vouchers| ==> vouchers[i] == vouchers[1..][i - 1];
      if r.Some? then
        var i :| 0 <= i < |vouchers[1..]| && vouchers[1..][i] == r.value && r.value.id == id
                 && forall j :: 0 <= j < i ==> vouchers[1..][j].id != id;
        assert vouchers[i + 1] == r.value;
        r
      else r
  }

  /** `selectedVoucher?.voucher_type === "paid" ? selectedVoucher.fee_amount : 0`. */
  function FormFee(selected: Option<VoucherRow>): (fee: Option<int>)
    ensures (selected.None? || selected.value.voucherType == Free) ==> fee == Some(0)
    ensures selected.Some? && selected.value.voucherType == PaidVoucher ==> fee == selected.value.feeAmount
  {
    match selected
    case Some(v) => if v.voucherType == PaidVoucher then v.feeAmount else Some(0)
    case None => Some(0)
  }

  /** `serviceFee > 0 ? "unpaid" : "paid"`; a `null` fee is not greater than 0. */
  function FormPayment(fee: Option<int>): (p: PaymentStatus)
    ensures p == Unpaid <==> fee.Some? && fee.value > 0
    ensures p != Refunded
  {
    if fee.Some? && fee.value > 0 then Unpaid else Paid
  }

  /** `s || null` for a text field that is never `null`. */
  function OrNull(s: string): (r: Option<string>)
    ensures r.None? <==> s == ""
    ensures r.Some? ==> r.value == s
  {
    if s == "" then None else Some(s)
  }

  /** The record `handleSubmit` inserts. */
  function FormRecord(form: FormData, userId: Option<string>, vouchers: seq<VoucherRow>, code: string): (o: OrderInsert)
    ensures o.status == Pending
    ensures o.paymentStatus == Unpaid <==> o.serviceFee.Some? && o.serviceFee.value > 0
    ensures o.paymentStatus == Paid <==> !(o.serviceFee.Some? && o.serviceFee.value > 0)
    ensures o.serviceFee == FormFee(SelectVoucher(vouchers, form.voucherId))
    ensures o.orderCode == Some(code)
    ensures o.voucherId.None? <==> form.voucherId == ""
    ensures o.email.None? <==> form.email == ""
    ensures o.notes.None? <==> form.notes == ""
    ensures o.userId.None? <==> !Truthy(userId)
    ensures o.productLink == form.productLink && o.quantity == form.quantity
    ensures o.recipientName == form.recipientName && o.phoneOrContact == form.phoneOrContact
    ensures o.address == form.address
    ensures form.voucherId != "" ==> o.voucherId == Some(form.voucherId)
    ensures form.email != "" ==> o.email == Some(form.email)
    ensures form.notes != "" ==> o.notes == Some(form.notes)
    ensures Truthy(userId) ==> o.userId == userId
  {
    var fee := FormFee(SelectVoucher(vouchers, form.voucherId));
    OrderInsert(
      NullIfEmpty(userId), Some(code), form.productLink, form.quantity, OrNull(form.voucherId),
      form.recipientName, form.phoneOrContact, form.address, OrNull(form.email), OrNull(form.notes),
      fee, Pending, FormPayment(fee))
  }

  /** `(count || 0) >= parseInt(value)`; a comparison with NaN is false. */
  predicate LimitLocks(value: string, count: Option<nat>) {
    var limit := ParseInt(value);
    limit.Some? && count.GetOr(0) >= limit.value
  }

  /** A stored limit of 0 locks the form even before the first order of the day. */
  lemma ZeroLimitLocks(count: Option<nat>)
    ensures LimitLocks("0", count)
  {
    assert IntToString(0) == NatToString(0) == [DigitChar(0)] == "0";
    IntToStringRoundTrip(0);
  }

  /** A stored limit that is not a number never locks the form. */
  lemma NaNLimitNeverLocks(value: string, count: Option<nat>)
    requires ParseInt(value).None?
    ensures !LimitLocks(value, count)
  {
  }

  /** With a positive limit, the form locks exactly when today's count has reached it. */
  lemma PositiveLimitLocks(value: string, count: Option<nat>)
    requires ParseInt(value).Some? && ParseInt(value).value > 0
    ensures LimitLocks(value, count) <==> count.Some? && count.value >= ParseInt(value).value
  {
  }

  /** The page's state. */
  class OrderPage {
    var vouchers: seq<VoucherRow>
    var isLimitReached: bool
    var userId: Option<string>
    var form: FormData

    constructor ()
      ensures vouchers == [] && !isLimitReached && userId == None && form == InitialForm
    {
      vouchers := [];
      isLimitReached := false;
      userId := None;
      form := InitialForm;
    }

    /** `fetchVouchers`: the active rows, when the query returned any data. */
    method FetchVouchers(table: Option<seq<VoucherRow>>)
      modifies this
      ensures table.Some? ==> vouchers == ActiveVouchers(table.value)
      ensures table.None? ==> vouchers == old(vouchers)
      ensures isLimitReached == old(isLimitReached) && userId == old(userId) && form == old(form)
    {
      if table.Some? {
        vouchers := ActiveVouchers(table.value);
      }
    }

    /** `checkDailyLimit`: the lock is recomputed only when a limit row exists. */
    method CheckDailyLimit(setting: Option<string>, todayCount: Option<nat>)
      modifies this
      ensures setting.Some? ==> isLimitReached == LimitLocks(setting.value, todayCount)
      ensures setting.None? ==> isLimitReached == old(isLimitReached)
      ensures vouchers == old(vouchers) && userId == old(userId) && form == old(form)
    {
      if setting.Some? {
        isLimitReached := LimitLocks(setting.value, todayCount);
      }
    }

    /** The quantity input: `parseInt(e.target.value)`. */
    method SetQuantity(text: string)
      modifies this
      ensures form == old(form).(quantity := ParseInt(text))
      ensures vouchers == old(vouchers) && isLimitReached == old(isLimitReached) && userId == old(userId)
    {
      form := form.(quantity := ParseInt(text));
    }

    /**
     * `handleSubmit`. `code` is what the code generator returned (`None`
     * when it failed, which throws before the insert). The redirect happens
     * only after a successful insert and goes to the inserted code.
     */
    method HandleSubmit(code: Option<string>, insertOk: bool)
      returns (attempted: Option<OrderInsert>, redirect: Option<string>)
      ensures attempted.Some? <==> code.Some?
      ensures code.Some? ==> attempted.value == FormRecord(form, userId, vouchers, code.value)
      ensures redirect.Some? <==> code.Some? && insertOk
      ensures redirect.Some? ==> attempted.value.orderCode == Some(code.value)
                                 && redirect.value == "/track/" + code.value
    {
      if code.None? {
        return None, None;
      }
      var orderCode := code.value;
      var record := FormRecord(form, userId, vouchers, orderCode);
      attempted := Some(record);
      if insertOk {
        redirect := Some("/track/" + orderCode);
      } else {
        redirect := None;
      }
    }
  }

  /** Only a voucher fetched as active can be selected; an unknown id selects none. */
  lemma SelectedVoucherIsActive(table: seq<VoucherRow>, id: string)
    ensures SelectVoucher(ActiveVouchers(table), id).Some? ==>
              var v := SelectVoucher(ActiveVouchers(table), id).value;
              v in table && v.isActive && v.id == id
    ensures (forall v :: v in table && v.isActive ==> v.id != id) ==>
              SelectVoucher(ActiveVouchers(table), id).None?
  {
    var r := SelectVoucher(ActiveVouchers(table), id);
    if r.Some? {
      var active := ActiveVouchers(table);
      var i :| 0 <= i < |active| && active[i] == r.value && r.value.id == id;
      assert active[i] in active;
    }
  }
}
