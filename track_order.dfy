/**
 * The public tracking page: the masks applied to the recipient's phone
 * number and address, the four-step status timeline, when the payment QR
 * code and the edit-request button are shown, and the bank settings the QR
 * code is drawn from.
 */
module TrackOrder {
  import opened Common
  import opened Text
  import opened Schema
  import opened KeyValue

  /** `Math.ceil(n * 0.4)` on whole numbers. */
  function PhoneVisible(n: nat): (v: nat)
    ensures 5 * v >= 2 * n && 5 * (v - 1) < 2 * n
  {
    (2 * n + 4) / 5
  }

  /**
   * `maskPhone`: up to four characters are shown as they are; a longer
   * number keeps its first `ceil(0.4 n)` characters and stars out the rest.
   */
  function MaskPhone(phone: string): (r: string)
    ensures |r| == |phone|
    ensures |phone| <= 4 ==> r == phone
    ensures |phone| > 4 ==>
              var v := PhoneVisible(|phone|);
              2 <= v < |phone| && r[..v] == phone[..v]
              && forall i :: v <= i < |r| ==> r[i] == '*'
  {
    if |phone| <= 4 then phone
    else
      var v := PhoneVisible(|phone|);
      phone[..v] + Repeat('*', |phone| - v)
  }

  /** Masking never shows more than 40 % of a number longer than four characters, rounded up. */
  lemma MaskPhoneHidesMost(phone: string)
    requires |phone| > 4
    ensures |phone| - PhoneVisible(|phone|) >= 3 * |phone| / 5
  {
  }

  /** `Math.ceil(k * 0.5)` on whole numbers. */
  function AddressVisible(k: nat): (v: nat)
    ensures 2 * v >= k && 2 * (v - 1) < k
  {
    (k + 1) / 2
  }

  /** The part of the address `maskAddress` keeps: the first half of its comma-separated pieces. */
  function AddressKept(address: string): string {
    var parts := Split(address, ',');
    Join(parts[..AddressVisible(|parts|)], ',')
  }

  /** `maskAddress`: the kept pieces rejoined with ",", then ", ***". */
  function MaskAddress(address: string): (r: string)
    ensures r == AddressKept(address) + ", ***"
    ensures |r| >= 5 && r[|r| - 5..] == ", ***"
  {
    AddressKept(address) + ", ***"
  }

  /** The kept part is a prefix of the address, and an address without commas is kept whole. */
  lemma AddressKeptIsPrefix(address: string)
    ensures AddressKept(address) <= address
    ensures ',' !in address ==> AddressKept(address) == address
  {
    var parts := Split(address, ',');
    var v := AddressVisible(|parts|);
    JoinPrefix(parts, ',', v);
    JoinSplit(address, ',');
    if ',' !in address {
      SplitCount(address, ',');
      NoCommaCount(address);
      assert parts[..v] == parts;
    }
  }

  lemma {:induction false} NoCommaCount(s: string)
    requires ',' !in s
    ensures CountChar(s, ',') == 0
  {
    if s != [] {
      assert s[0] != ',';
      assert forall c :: c in s[1..] ==> c in s;
      NoCommaCount(s[1..]);
    }
  }

  /** The kept part holds `ceil(k/2)` of the address's `k` pieces. */
  lemma AddressKeptPieces(address: string)
    ensures var parts := Split(address, ',');
            Split(AddressKept(address), ',') == parts[..AddressVisible(|parts|)]
  {
    var parts := Split(address, ',');
    var kept := parts[..AddressVisible(|parts|)];
    SplitJoin(kept, ',');
  }

  /** Splitting a join of separator-free pieces gives the pieces back. */
  lemma {:induction false} SplitJoin(parts: seq<string>, sep: char)
    requires |parts| >= 1
    requires forall k :: 0 <= k < |parts| ==> sep !in parts[k]
    ensures Split(Join(parts, sep), sep) == parts
    decreases |parts|, |parts[0]|
  {
    var p := parts[0];
    if |parts| == 1 {
      SplitPiece(p, sep);
    } else {
      var tail := Join(parts[1..], sep);
      SplitJoin(parts[1..], sep);
      SplitPieceSep(p, tail, sep);
    }
  }

  /** A separator-free piece splits to itself. */
  lemma {:induction false} SplitPiece(p: string, sep: char)
    requires sep !in p
    ensures Split(p, sep) == [p]
  {
    if p != [] {
      assert sep !in p[1..] by {
        assert forall c :: c in p[1..] ==> c in p;
      }
      SplitPiece(p[1..], sep);
      assert [p[0]] + p[1..] == p;
    }
  }

  /** A separator-free piece followed by the separator and the rest. */
  lemma {:induction false} SplitPieceSep(p: string, rest: string, sep: char)
    requires sep !in p
    ensures Split(p + [sep] + rest, sep) == [p] + Split(rest, sep)
  {
    if p == [] {
      assert p + [sep] + rest == [sep] + rest;
      assert ([sep] + rest)[1..] == rest;
    } else {
      var s := p + [sep] + rest;
      assert s[0] == p[0];
      assert s[1..] == p[1..] + [sep] + rest;
      assert sep !in p[1..] by {
        assert forall c :: c in p[1..] ==> c in p;
      }
      SplitPieceSep(p[1..], rest, sep);
      assert [p[0]] + p[1..] == p;
    }
  }

  /** `Object.keys(statusConfig).indexOf(name)`, or -1. */
  function IndexOf(names: seq<string>, name: string): (i: int)
    ensures -1 <= i < |names|
    ensures i >= 0 ==> names[i] == name && forall j :: 0 <= j < i ==> names[j] != name
    ensures i == -1 ==> forall j :: 0 <= j < |names| ==> names[j] != name
  {
    if names == [] then -1
    else if names[0] == name then 0
    else
      var r := IndexOf(names[1..], name);
      if r == -1 then -1 else r + 1
  }

  /** Timeline step `step` (0 to 3) is lit for the status stored as `name`. */
  predicate StepActive(name: string, step: nat) {
    IndexOf(StatusNames(), name) >= step
  }

  /** A known status lights exactly the steps up to its place in the table. */
  lemma StepActiveKnown(s: OrderStatus, step: nat)
    ensures StepActive(StatusName(s), step) <==> StatusIndex(s) >= step
  {
    assert StatusNames()[StatusIndex(s)] == StatusName(s);
  }

  /** A name that is no status lights no step. */
  lemma StepActiveUnknown(name: string, step: nat)
    requires ParseStatus(name).None?
    ensures !StepActive(name, step)
  {
  }

  /** Cancelled and awaiting-payment orders light all four steps. */
  lemma LateStatusesLightEverything(step: nat)
    requires step < 4
    ensures StepActive(StatusName(Cancelled), step)
    ensures StepActive(StatusName(AwaitingPayment), step)
  {
    StepActiveKnown(Cancelled, step);
    StepActiveKnown(AwaitingPayment, step);
  }

  /** The lit steps always form a prefix of the timeline. */
  lemma StepsLitInOrder(name: string, step: nat, earlier: nat)
    requires earlier <= step && StepActive(name, step)
    ensures StepActive(name, earlier)
  {
  }

  /** The QR code needs a tracking code, a positive fee and an unpaid order. */
  predicate ShowPaymentQr(o: OrderRow) {
    Truthy(o.trackingCode) && o.serviceFee.Some? && o.serviceFee.value > 0 && o.paymentStatus == Unpaid
  }

  /** The edit-request button is shown for pending orders only. */
  predicate ShowEditButton(o: OrderRow) {
    o.status == Pending
  }

  /** A paid order, or one without a positive fee, never shows the QR code. */
  lemma NoQrWithoutDebt(o: OrderRow)
    requires o.paymentStatus != Unpaid || o.serviceFee.None? || o.serviceFee.value <= 0
    ensures !ShowPaymentQr(o)
  {
  }

  /**
   * An unpaid order with a positive fee shows the QR code exactly once a
   * non-empty tracking code is set on it.
   */
  lemma TrackingCodeRevealsQr(o: OrderRow, code: string)
    requires o.paymentStatus == Unpaid && o.serviceFee.Some? && o.serviceFee.value > 0
    ensures ShowPaymentQr(o.(trackingCode := Some(code))) <==> code != ""
    ensures !ShowPaymentQr(o.(trackingCode := None))
  {
  }

  /** A new order (pending, no tracking code yet) offers the edit request and no QR code. */
  lemma NewOrderView(o: OrderRow)
    requires o.status == Pending && o.trackingCode.None?
    ensures ShowEditButton(o) && !ShowPaymentQr(o)
  {
  }

  /** Once an order leaves "pending" the edit request is gone, whatever else changes. */
  lemma EditButtonOnlyWhilePending(o: OrderRow, s: OrderStatus)
    requires s != Pending
    ensures !ShowEditButton(o.(status := s))
  {
  }

  /** The bank details the QR code is drawn from. */
  datatype BankSettings = BankSettings(bankName: string, accountNumber: string, accountName: string)

  /** The settings dictionary read with its defaults. */
  function BankSettingsOf(m: map<string, string>): (b: BankSettings)
    ensures b.bankName == OrElse(Lookup(m, "bank_name"), "MBank")
    ensures b.accountNumber == OrElse(Lookup(m, "bank_account_number"), "")
    ensures b.accountName == OrElse(Lookup(m, "bank_account_name"), "")
  {
    BankSettings(
      OrElse(Lookup(m, "bank_name"), "MBank"),
      OrElse(Lookup(m, "bank_account_number"), ""),
      OrElse(Lookup(m, "bank_account_name"), ""))
  }

  /** With none of the bank keys stored, the bank is "MBank" and the account is blank. */
  lemma MissingBankSettings(rows: seq<(string, string)>)
    requires forall i :: 0 <= i < |rows| ==>
               rows[i].0 != "bank_name" && rows[i].0 != "bank_account_number" && rows[i].0 != "bank_account_name"
    ensures BankSettingsOf(LastWins(rows)) == BankSettings("MBank", "", "")
  {
    LastWinsKeys(rows, "bank_name");
    LastWinsKeys(rows, "bank_account_number");
    LastWinsKeys(rows, "bank_account_name");
  }

  /** The part of the page state the tracking helpers use. */
  class TrackPage {
    var bankSettings: BankSettings

    constructor ()
      ensures bankSettings == BankSettings("", "", "")
    {
      bankSettings := BankSettings("", "", "");
    }

    /** The settings query's rows fill a dictionary; no data keeps the blank initial settings. */
    method LoadBankSettings(rows: Option<seq<(string, string)>>)
      modifies this
      ensures rows.Some? ==> bankSettings == BankSettingsOf(LastWins(rows.value))
      ensures rows.None? ==> bankSettings == old(bankSettings)
    {
      if rows.Some? {
        var settingsMap := BuildMap(rows.value);
        bankSettings := BankSettingsOf(settingsMap);
      }
    }
  }
}
