/**
 * The `api-place-order` HTTP function: one handler that runs top to bottom
 * with early returns. It answers a CORS preflight, checks the `x-api-key`
 * header, the required body fields and the daily order limit, resolves the
 * voucher code, and inserts the new order.
 *
 * The database is an input: the stored `daily_order_limit` value, the
 * number of orders created today, the voucher table, the code the
 * `generate_order_code` procedure returned and the outcome of the insert.
 */
module PlaceOrderApi {
  import opened Common
  import opened Text
  import opened JsNumber
  import opened Seqs
  import opened Schema

  /** The JSON shapes a client may send for `quantity`. */
  datatype JsonValue = JsonNull | JsonNumber(n: int) | JsonString(s: string)

  /** JavaScript truthiness: `null`, `0` and `""` are falsy. */
  predicate JsonTruthy(v: JsonValue) {
    match v
    case JsonNull => false
    case JsonNumber(n) => n != 0
    case JsonString(s) => s != ""
  }

  /** `parseInt(v)`, which first converts `v` to a string. */
  function JsonParseInt(v: JsonValue): Option<int> {
    match v
    case JsonNull => ParseInt("null")
    case JsonNumber(n) => ParseInt(IntToString(n))
    case JsonString(s) => ParseInt(s)
  }

  /** A whole number sent as a JSON number is stored as that number. */
  lemma JsonNumberQuantity(n: int)
    ensures JsonParseInt(JsonNumber(n)) == Some(n)
  {
    IntToStringRoundTrip(n);
  }

  /** The fields the handler reads from the JSON body; absent and `null` are `None`. */
  datatype Body = Body(
    userId: Option<string>,
    productLink: Option<string>,
    quantity: JsonValue,
    voucherCode: Option<string>,
    recipientName: Option<string>,
    phoneOrContact: Option<string>,
    address: Option<string>,
    email: Option<string>,
    notes: Option<string>)

  /** An HTTP request; `body` is `None` when it is not JSON, or is `null`. */
  datatype Request = Request(isPreflight: bool, apiKey: Option<string>, body: Option<Body>)

  /** What the insert returned: the new row's id, or an error. */
  datatype InsertResult = InsertOk(id: string) | InsertError

  datatype Response =
    | Preflight
    | Unauthorized
    | MissingFields
    | LimitReached
    | ServerError
    | Created(orderCode: Option<string>, id: string, status: OrderStatus, serviceFee: int)

  function HttpStatus(r: Response): (code: int)
    ensures code == 200 <==> r.Preflight? || r.Created?
  {
    match r
    case Preflight => 200
    case Unauthorized => 401
    case MissingFields => 400
    case LimitReached => 429
    case ServerError => 500
    case Created(_, _, _, _) => 200
  }

  /** `!(!apiKey || apiKey !== validApiKey)`: a non-empty header equal to the configured key. */
  predicate Authorized(apiKey: Option<string>, validKey: Option<string>) {
    Truthy(apiKey) && validKey == apiKey
  }

  /** All five required fields are truthy. */
  predicate HasRequiredFields(b: Body) {
    Truthy(b.productLink) && JsonTruthy(b.quantity) && Truthy(b.recipientName)
    && Truthy(b.phoneOrContact) && Truthy(b.address)
  }

  /** `parseInt(settings?.value || '0')`; `None` is NaN. */
  function DailyLimit(setting: Option<string>): Option<int> {
    ParseInt(OrElse(setting, "0"))
  }

  /**
   * `dailyLimit > 0` and then `count && count >= dailyLimit`: a NaN or
   * non-positive limit never blocks, nor does a missing or zero count.
   */
  predicate LimitBlocks(limit: Option<int>, count: Option<nat>) {
    limit.Some? && limit.value > 0 && count.Some? && count.value != 0 && count.value >= limit.value
  }

  /** Without a stored limit the limit is 0, and no count blocks. */
  lemma MissingLimitIsUnlimited(count: Option<nat>)
    ensures DailyLimit(None) == Some(0)
    ensures !LimitBlocks(DailyLimit(None), count)
  {
    ZeroParses();
  }

  lemma ZeroParses()
    ensures ParseInt("0") == Some(0)
  {
    var z := IntToString(0);
    assert z == NatToString(0) == [DigitChar(0)];
    assert DigitChar(0) == '0';
    IntToStringRoundTrip(0);
  }

  /** A limit stored as "0" (or any text that parses to 0) never blocks. */
  lemma ZeroLimitIsUnlimited(setting: Option<string>, count: Option<nat>)
    requires DailyLimit(setting) == Some(0)
    ensures !LimitBlocks(DailyLimit(setting), count)
  {
  }

  /** The active voucher whose code is exactly `code`, if there is exactly one (`.single()`). */
  function FindActiveVoucher(vouchers: seq<VoucherRow>, code: string): (r: Option<VoucherRow>)
    ensures r.Some? ==> r.value in vouchers && r.value.isActive && r.value.code == code
    ensures (forall v :: v in vouchers ==> !(v.isActive && v.code == code)) ==> r.None?
  {
    var matches := Filter(vouchers, (v: VoucherRow) => v.isActive && v.code == code);
    FilterMember(vouchers, (v: VoucherRow) => v.isActive && v.code == code, if matches == [] then VoucherRow("", "", Free, None, false, None) else matches[0]);
    if |matches| == 1 then Some(matches[0]) else None
  }

  /** The test `.eq("code", code).eq("is_active", true)`. */
  function ActiveWithCode(code: string): VoucherRow -> bool {
    (v: VoucherRow) => v.isActive && v.code == code
  }

  /** A code held by exactly one active row finds that row. */
  lemma FindActiveVoucherUnique(vouchers: seq<VoucherRow>, code: string, i: nat)
    requires i < |vouchers| && vouchers[i].isActive && vouchers[i].code == code
    requires forall j :: 0 <= j < |vouchers| && j != i ==> !(vouchers[j].isActive && vouchers[j].code == code)
    ensures FindActiveVoucher(vouchers, code) == Some(vouchers[i])
  {
    FilterExt(vouchers, (v: VoucherRow) => v.isActive && v.code == code, ActiveWithCode(code));
    FilterSingle(vouchers, ActiveWithCode(code), i);
  }

  /** Two active rows with the code make `.single()` fail, so no voucher is found. */
  lemma FindActiveVoucherAmbiguous(vouchers: seq<VoucherRow>, code: string, i: nat, j: nat)
    requires i < j < |vouchers|
    requires vouchers[i].isActive && vouchers[i].code == code
    requires vouchers[j].isActive && vouchers[j].code == code
    ensures FindActiveVoucher(vouchers, code).None?
  {
    var p := ActiveWithCode(code);
    FilterExt(vouchers, (v: VoucherRow) => v.isActive && v.code == code, p);
    FilterTwo(vouchers, p, i, j);
  }

  /** The voucher the handler applies: one is looked up only for a truthy code. */
  function AppliedVoucher(b: Body, vouchers: seq<VoucherRow>): (r: Option<VoucherRow>)
    ensures r.Some? ==> Truthy(b.voucherCode) && r.value in vouchers && r.value.isActive
                        && r.value.code == b.voucherCode.value
  {
    if Truthy(b.voucherCode) then FindActiveVoucher(vouchers, b.voucherCode.value) else None
  }

  /** A non-empty code held by exactly one active row is applied. */
  lemma AppliedVoucherFound(b: Body, vouchers: seq<VoucherRow>, i: nat)
    requires Truthy(b.voucherCode)
    requires i < |vouchers| && vouchers[i].isActive && vouchers[i].code == b.voucherCode.value
    requires forall j :: 0 <= j < |vouchers| && j != i ==>
               !(vouchers[j].isActive && vouchers[j].code == b.voucherCode.value)
    ensures AppliedVoucher(b, vouchers) == Some(vouchers[i])
  {
    FindActiveVoucherUnique(vouchers, b.voucherCode.value, i);
  }

  /** `parseFloat(voucher.fee_amount || '0')` on a whole-number fee: `null` and 0 give 0. */
  function VoucherFee(v: VoucherRow): int {
    v.feeAmount.GetOr(0)
  }

  /**
   * The record the handler inserts for a body that passed the checks, given
   * the voucher it applied: always pending and unpaid, with the voucher's
   * fee whatever the voucher's type.
   */
  function ApiRecord(b: Body, voucher: Option<VoucherRow>, code: Option<string>): (o: OrderInsert)
    requires HasRequiredFields(b)
    ensures o.status == Pending && o.paymentStatus == Unpaid
    ensures o.voucherId == (if voucher.Some? then Some(voucher.value.id) else None)
    ensures o.serviceFee == Some(if voucher.Some? then voucher.value.feeAmount.GetOr(0) else 0)
    ensures o.orderCode == code
    ensures o.quantity == JsonParseInt(b.quantity)
    ensures o.userId == NullIfEmpty(b.userId) && o.email == NullIfEmpty(b.email) && o.notes == NullIfEmpty(b.notes)
    ensures Some(o.productLink) == b.productLink && Some(o.recipientName) == b.recipientName
    ensures Some(o.phoneOrContact) == b.phoneOrContact && Some(o.address) == b.address
  {
    OrderInsert(
      NullIfEmpty(b.userId), code, b.productLink.value, JsonParseInt(b.quantity),
      if voucher.Some? then Some(voucher.value.id) else None,
      b.recipientName.value, b.phoneOrContact.value, b.address.value,
      NullIfEmpty(b.email), NullIfEmpty(b.notes),
      Some(if voucher.Some? then VoucherFee(voucher.value) else 0), Pending, Unpaid)
  }

  /** The handler itself. `attempted` is the record passed to the insert, if one was. */
  method HandleRequest(req: Request, validKey: Option<string>, limitSetting: Option<string>,
                       todayCount: Option<nat>, vouchers: seq<VoucherRow>,
                       generatedCode: Option<string>, insert: InsertResult)
    returns (resp: Response, attempted: Option<OrderInsert>)
    // The preflight is answered before anything else.
    ensures req.isPreflight ==> resp == Preflight && attempted == None
    // 401 exactly when the key check fails, 400 exactly when a required field is falsy.
    ensures resp == Unauthorized <==> !req.isPreflight && !Authorized(req.apiKey, validKey)
    ensures resp == MissingFields <==>
              !req.isPreflight && Authorized(req.apiKey, validKey) && req.body.Some?
              && !HasRequiredFields(req.body.value)
    // 429 exactly when the limit blocks a request that passed the earlier checks.
    ensures resp == LimitReached <==>
              !req.isPreflight && Authorized(req.apiKey, validKey) && req.body.Some?
              && HasRequiredFields(req.body.value) && LimitBlocks(DailyLimit(limitSetting), todayCount)
    // An insert is attempted exactly when every check passed.
    ensures attempted.Some? <==>
              !req.isPreflight && Authorized(req.apiKey, validKey) && req.body.Some?
              && HasRequiredFields(req.body.value) && !LimitBlocks(DailyLimit(limitSetting), todayCount)
    // The attempted record.
    ensures attempted.Some? ==>
              attempted.value == ApiRecord(req.body.value, AppliedVoucher(req.body.value, vouchers), generatedCode)
    // The reply to an attempted insert: the new row's fields, or 500.
    ensures attempted.Some? ==>
              match insert
              case InsertOk(id) =>
                resp == Created(generatedCode, id, Pending, attempted.value.serviceFee.value)
              case InsertError => resp == ServerError
    // A body that is not JSON is a 500 after the key check.
    ensures !req.isPreflight && Authorized(req.apiKey, validKey) && req.body.None? ==>
              resp == ServerError && attempted == None
  {
    attempted := None;
    if req.isPreflight {
      return Preflight, None;
    }
    if !Truthy(req.apiKey) || req.apiKey != validKey {
      return Unauthorized, None;
    }
    if req.body.None? {
      return ServerError, None;
    }
    var b := req.body.value;
    if !Truthy(b.productLink) || !JsonTruthy(b.quantity) || !Truthy(b.recipientName)
       || !Truthy(b.phoneOrContact) || !Truthy(b.address) {
      return MissingFields, None;
    }
    var dailyLimit := DailyLimit(limitSetting);
    if dailyLimit.Some? && dailyLimit.value > 0 {
      if todayCount.Some? && todayCount.value != 0 && todayCount.value >= dailyLimit.value {
        return LimitReached, None;
      }
    }
    var voucherId: Option<string> := None;
    var serviceFee := 0;
    if Truthy(b.voucherCode) {
      var voucher := FindActiveVoucher(vouchers, b.voucherCode.value);
      if voucher.Some? {
        voucherId := Some(voucher.value.id);
        serviceFee := VoucherFee(voucher.value);
      }
    }
    var record := OrderInsert(
      NullIfEmpty(b.userId), generatedCode, b.productLink.value, JsonParseInt(b.quantity),
      voucherId, b.recipientName.value, b.phoneOrContact.value, b.address.value,
      NullIfEmpty(b.email), NullIfEmpty(b.notes), Some(serviceFee), Pending, Unpaid);
    attempted := Some(record);
    match insert {
      case InsertOk(id) =>
        resp := Created(record.orderCode, id, record.status, serviceFee);
      case InsertError =>
        resp := ServerError;
    }
  }
}
