/**
 * The two ways an order is placed, the HTTP function and the web form,
 * disagree on three rules. Each lemma below exhibits one disagreement on
 * the same inputs.
 */
module PlacementCompare {
  import opened Common
  import opened Schema
  import PlaceOrderApi
  import OrderForm

  /**
   * A stored daily limit of "0": the HTTP function treats it as "no limit"
   * whatever today's count, while the web form locks itself.
   */
  lemma ZeroLimitDisagreement(count: Option<nat>)
    ensures !PlaceOrderApi.LimitBlocks(PlaceOrderApi.DailyLimit(Some("0")), count)
    ensures OrderForm.LimitLocks("0", count)
  {
    PlaceOrderApi.ZeroParses();
    OrderForm.ZeroLimitLocks(count);
  }

  /**
   * An order without a voucher: the HTTP function records it as unpaid with
   * a fee of 0, while the web form records the same order as paid.
   */
  lemma NoVoucherPaymentDisagreement(b: PlaceOrderApi.Body, form: OrderForm.FormData,
                                     userId: Option<string>, vouchers: seq<VoucherRow>, code: string)
    requires PlaceOrderApi.HasRequiredFields(b)
    requires form.voucherId == ""
    requires forall i :: 0 <= i < |vouchers| ==> vouchers[i].id != ""
    ensures PlaceOrderApi.ApiRecord(b, None, Some(code)).serviceFee == Some(0)
    ensures PlaceOrderApi.ApiRecord(b, None, Some(code)).paymentStatus == Unpaid
    ensures OrderForm.FormRecord(form, userId, vouchers, code).serviceFee == Some(0)
    ensures OrderForm.FormRecord(form, userId, vouchers, code).paymentStatus == Paid
  {
  }

  /**
   * A free voucher that carries a positive fee amount, entered by its code
   * on the HTTP side and picked by its id on the form: the HTTP function
   * looks it up, charges that amount and leaves the order unpaid, while the
   * web form charges nothing and marks it paid.
   */
  lemma FreeVoucherFeeDisagreement(b: PlaceOrderApi.Body, v: VoucherRow, form: OrderForm.FormData,
                                   userId: Option<string>, code: string)
    requires PlaceOrderApi.HasRequiredFields(b)
    requires v.isActive && v.voucherType == Free && v.feeAmount.Some? && v.feeAmount.value > 0
    requires b.voucherCode == Some(v.code) && v.code != ""
    requires form.voucherId == v.id
    ensures PlaceOrderApi.AppliedVoucher(b, [v]) == Some(v)
    ensures PlaceOrderApi.ApiRecord(b, PlaceOrderApi.AppliedVoucher(b, [v]), Some(code)).serviceFee == v.feeAmount
    ensures PlaceOrderApi.ApiRecord(b, PlaceOrderApi.AppliedVoucher(b, [v]), Some(code)).paymentStatus == Unpaid
    ensures OrderForm.FormRecord(form, userId, [v], code).serviceFee == Some(0)
    ensures OrderForm.FormRecord(form, userId, [v], code).paymentStatus == Paid
  {
    PlaceOrderApi.AppliedVoucherFound(b, [v], 0);
  }
}
