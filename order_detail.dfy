/**
 * The admin order editor. Each input replaces one field of the loaded
 * order, "save" sends a fixed projection of eight fields to the row with
 * the route's id, and "delete" removes that row.
 */
module OrderDetail {
  import opened Common
  import opened JsNumber
  import opened Seqs
  import opened Schema

  /** The eight fields `handleUpdate` writes. */
  datatype Patch = Patch(
    recipientName: string,
    phoneOrContact: string,
    address: string,
    status: OrderStatus,
    paymentStatus: PaymentStatus,
    trackingCode: Option<string>,
    adminNotes: Option<string>,
    serviceFee: Option<int>)

  /** The patch built from the edited order. */
  function UpdatePatch(o: OrderRow): Patch {
    Patch(o.recipientName, o.phoneOrContact, o.address, o.status, o.paymentStatus,
          o.trackingCode, o.adminNotes, o.serviceFee)
  }

  /** A row after the patch is applied: the patched fields change and nothing else does. */
  function ApplyPatch(row: OrderRow, p: Patch): (r: OrderRow)
    ensures r.id == row.id && r.orderCode == row.orderCode && r.userId == row.userId
            && r.productLink == row.productLink && r.quantity == row.quantity
            && r.voucherId == row.voucherId && r.email == row.email && r.notes == row.notes
    ensures UpdatePatch(r) == p
  {
    row.(recipientName := p.recipientName, phoneOrContact := p.phoneOrContact, address := p.address,
         status := p.status, paymentStatus := p.paymentStatus, trackingCode := p.trackingCode,
         adminNotes := p.adminNotes, serviceFee := p.serviceFee)
  }

  /** The fields the editor never writes. */
  predicate SameUnpatched(a: OrderRow, b: OrderRow) {
    a.id == b.id && a.orderCode == b.orderCode && a.userId == b.userId && a.productLink == b.productLink
    && a.quantity == b.quantity && a.voucherId == b.voucherId && a.email == b.email && a.notes == b.notes
  }

  /**
   * Saving an edited copy of a row stores exactly the edited copy, provided
   * the copy agrees with the row on the fields the editor cannot change.
   */
  lemma SaveStoresEdits(row: OrderRow, edited: OrderRow)
    requires SameUnpatched(row, edited)
    ensures ApplyPatch(row, UpdatePatch(edited)) == edited
  {
  }

  /** `.update(patch).eq("id", id)` on the table. */
  function UpdateById(table: seq<OrderRow>, id: string, p: Patch): (r: seq<OrderRow>)
    ensures |r| == |table|
    ensures forall i :: 0 <= i < |table| ==> r[i] == (if table[i].id == id then ApplyPatch(table[i], p) else table[i])
  {
    seq(|table|, i requires 0 <= i < |table| => if table[i].id == id then ApplyPatch(table[i], p) else table[i])
  }

  /** `.delete().eq("id", id)` on the table. */
  function DeleteById(table: seq<OrderRow>, id: string): (r: seq<OrderRow>)
    ensures IsSubsequence(r, table)
    ensures forall o :: o in r <==> o in table && o.id != id
  {
    var keep := (o: OrderRow) => o.id != id;
    FilterIsSubsequence(table, keep);
    forall o | true ensures o in Filter(table, keep) <==> o in table && o.id != id {
      FilterMember(table, keep, o);
    }
    Filter(table, keep)
  }

  /** Deleting an id that no row has leaves the table as it is. */
  lemma DeleteMissingId(table: seq<OrderRow>, id: string)
    requires forall i :: 0 <= i < |table| ==> table[i].id != id
    ensures DeleteById(table, id) == table
  {
    FilterAll(table, (o: OrderRow) => o.id != id);
  }

  /** The options of the two selects. */
  const StatusOptions: seq<string> := ["pending", "ordered", "shipping", "completed", "cancelled", "awaiting_payment"]
  const PaymentOptions: seq<string> := ["unpaid", "paid", "refunded"]

  /** Every stored status and payment status is offered, so any value can follow any other. */
  lemma OptionsCoverEnums(s: OrderStatus, p: PaymentStatus)
    ensures StatusName(s) in StatusOptions && ParseStatus(StatusName(s)) == Some(s)
    ensures PaymentName(p) in PaymentOptions && ParsePayment(PaymentName(p)) == Some(p)
    ensures forall n :: n in StatusOptions ==> ParseStatus(n).Some?
    ensures forall n :: n in PaymentOptions ==> ParsePayment(n).Some?
  {
  }

  /** `parseFloat(value) || 0` on whole numbers. */
  function ServiceFeeInput(text: string): (fee: int)
    ensures ParseFloat(text).None? ==> fee == 0
    ensures ParseFloat(text).Some? ==> fee == ParseFloat(text).value
  {
    ParseFloatOrZero(text)
  }

  /** One input of the editor. */
  datatype FieldEdit =
    | EditRecipientName(name: string)
    | EditPhone(phone: string)
    | EditAddress(address: string)
    | EditStatus(status: OrderStatus)
    | EditPaymentStatus(payment: PaymentStatus)
    | EditTrackingCode(code: string)
    | EditServiceFee(text: string)
    | EditAdminNotes(notes: string)

  /** The `setOrder({ ...order, field: value })` of each input. */
  function ApplyEdit(o: OrderRow, e: FieldEdit): (r: OrderRow)
    ensures SameUnpatched(o, r)
    ensures e.EditRecipientName? ==> r == o.(recipientName := e.name)
    ensures e.EditPhone? ==> r == o.(phoneOrContact := e.phone)
    ensures e.EditAddress? ==> r == o.(address := e.address)
    ensures e.EditStatus? ==> r == o.(status := e.status)
    ensures e.EditPaymentStatus? ==> r == o.(paymentStatus := e.payment)
    ensures e.EditTrackingCode? ==> r == o.(trackingCode := Some(e.code))
    ensures e.EditServiceFee? ==> r == o.(serviceFee := Some(ServiceFeeInput(e.text)))
    ensures e.EditAdminNotes? ==> r == o.(adminNotes := Some(e.notes))
  {
    match e
    case EditRecipientName(name) => o.(recipientName := name)
    case EditPhone(phone) => o.(phoneOrContact := phone)
    case EditAddress(address) => o.(address := address)
    case EditStatus(status) => o.(status := status)
    case EditPaymentStatus(payment) => o.(paymentStatus := payment)
    case EditTrackingCode(code) => o.(trackingCode := Some(code))
    case EditServiceFee(text) => o.(serviceFee := Some(ServiceFeeInput(text)))
    case EditAdminNotes(notes) => o.(adminNotes := Some(notes))
  }

  /** The editor page: the route's id and the loaded order. */
  class OrderDetailPage {
    const routeId: string
    var order: Option<OrderRow>

    constructor (id: string)
      ensures routeId == id && order == None
    {
      routeId := id;
      order := None;
    }

    /** `fetchOrder`: the row with the route's id, or nothing on error. */
    method Load(data: Option<OrderRow>)
      modifies this
      ensures order == data
    {
      order := data;
    }

    /** One input changes one field of the loaded order. */
    method Edit(e: FieldEdit)
      requires order.Some?
      modifies this
      ensures order == Some(ApplyEdit(old(order).value, e))
      ensures SameUnpatched(old(order).value, order.value)
    {
      order := Some(ApplyEdit(order.value, e));
    }

    /** `handleUpdate`: the patch of the edited order, sent to the route's id. */
    method HandleUpdate() returns (target: string, p: Patch)
      requires order.Some?
      ensures target == routeId && p == UpdatePatch(order.value)
    {
      var o := order.value;
      p := Patch(o.recipientName, o.phoneOrContact, o.address, o.status, o.paymentStatus,
                 o.trackingCode, o.adminNotes, o.serviceFee);
      target := routeId;
    }

    /** `handleDelete`: the route's id. */
    method HandleDelete() returns (target: string)
      ensures target == routeId
    {
      target := routeId;
    }
  }

  /**
   * Loading a row, editing it and saving: only the row with the route's id
   * changes, and it changes only in the patched fields.
   */
  lemma SaveTouchesOnlyTarget(table: seq<OrderRow>, id: string, edited: OrderRow, i: nat)
    requires i < |table|
    ensures table[i].id != id ==> UpdateById(table, id, UpdatePatch(edited))[i] == table[i]
    ensures table[i].id == id ==> SameUnpatched(UpdateById(table, id, UpdatePatch(edited))[i], table[i])
  {
  }
}
