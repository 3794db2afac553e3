/**
 * The admin voucher screen: the record a new voucher is inserted as, the
 * form reset after a successful insert, and the active/inactive toggle.
 */
module VouchersAdmin {
  import opened Common
  import opened Text
  import opened Schema

  /** The form; the fee is `None` after an input `parseFloat` reads as NaN. */
  datatype VoucherForm = VoucherForm(code: string, description: string, voucherType: VoucherType, feeAmount: Option<int>)

  const InitialVoucherForm := VoucherForm("", "", Free, Some(0))

  /** The record sent to `vouchers.insert`. */
  datatype VoucherInsert = VoucherInsert(code: string, description: string, voucherType: VoucherType, feeAmount: Option<int>)

  /**
   * `handleSubmit`'s record: the code upper-cased; a fee only for a paid
   * voucher (a free voucher's fee is `null` whatever was typed).
   */
  function InsertRecord(f: VoucherForm): (r: VoucherInsert)
    ensures |r.code| == |f.code| && forall i :: 0 <= i < |r.code| ==> !IsLowerAscii(r.code[i])
    ensures forall i :: 0 <= i < |r.code| ==> r.code[i] == UpperChar(f.code[i])
    ensures r.voucherType == f.voucherType && r.description == f.description
    ensures r.feeAmount.Some? ==> r.voucherType == PaidVoucher
    ensures r.voucherType == PaidVoucher ==> r.feeAmount == f.feeAmount
  {
    VoucherInsert(ToUpper(f.code), f.description, f.voucherType,
                  if f.voucherType == PaidVoucher then f.feeAmount else None)
  }

  /** Submitting a form whose code is already stored upper-case stores the same code. */
  lemma InsertCodeIdempotent(f: VoucherForm)
    ensures InsertRecord(f.(code := InsertRecord(f).code)).code == InsertRecord(f).code
  {
    ToUpperIdempotent(f.code);
  }

  /**
   * The order paths look a voucher up by the exact code typed. A code with
   * a lower-case letter is never equal to a code this screen stored.
   */
  lemma LowerCaseCodeNeverStored(f: VoucherForm, typed: string, i: nat)
    requires i < |typed| && IsLowerAscii(typed[i])
    ensures InsertRecord(f).code != typed
  {
    var stored := InsertRecord(f).code;
    if |stored| == |typed| {
      assert !IsLowerAscii(stored[i]);
    }
  }

  /** The form after submitting: back to its initial values on success, unchanged otherwise. */
  function AfterSubmit(f: VoucherForm, insertOk: bool): (g: VoucherForm)
    ensures insertOk ==> g.code == "" && g.description == "" && g.voucherType == Free && g.feeAmount == Some(0)
    ensures !insertOk ==> g == f
  {
    if insertOk then InitialVoucherForm else f
  }

  /** `toggleActive(id, current)` on the table: `is_active := !current` on the row with that id. */
  function ToggleById(table: seq<VoucherRow>, id: string, current: bool): (r: seq<VoucherRow>)
    ensures |r| == |table|
    ensures forall i :: 0 <= i < |table| ==>
              if table[i].id == id then r[i] == table[i].(isActive := !current) else r[i] == table[i]
  {
    seq(|table|, i requires 0 <= i < |table| =>
      if table[i].id == id then table[i].(isActive := !current) else table[i])
  }

  /** Toggling twice, each time with the status then shown, restores the table. */
  lemma ToggleTwiceRestores(table: seq<VoucherRow>, id: string, current: bool)
    requires forall i :: 0 <= i < |table| && table[i].id == id ==> table[i].isActive == current
    ensures ToggleById(ToggleById(table, id, current), id, !current) == table
  {
    var once := ToggleById(table, id, current);
    var twice := ToggleById(once, id, !current);
    assert forall i :: 0 <= i < |table| ==> twice[i] == table[i];
  }

  /** The toggle writes the negation of the status shown, so it really flips a row whose status was shown correctly. */
  lemma ToggleFlips(table: seq<VoucherRow>, id: string, i: nat)
    requires i < |table| && table[i].id == id
    ensures ToggleById(table, id, table[i].isActive)[i].isActive != table[i].isActive
  {
  }
}
