/**
 * The payment QR card: the bank name normalised to a VietQR bank code, the
 * image URL built from the payment details, and the card shown when no
 * account is configured. `encodeURIComponent` is a parameter `enc`.
 */
module PaymentQr {
  import opened Text
  import opened JsNumber

  /** `bankName.trim().toLowerCase().replace(/\s+/g, "")`. */
  function NormaliseBank(name: string): (n: string)
    ensures forall i :: 0 <= i < |n| ==> !IsSpace(n[i]) && !IsUpperAscii(n[i])
  {
    var lower := ToLower(Trim(name));
    var n := RemoveSpaces(lower);
    forall i | 0 <= i < |n|
      ensures !IsUpperAscii(n[i])
    {
      assert n[i] in lower;
      var j :| 0 <= j < |lower| && lower[j] == n[i];
    }
    n
  }

  /** The trim is redundant: the result is the lower-cased name with all whitespace gone. */
  lemma NormaliseBankIsLowerWithoutSpaces(name: string)
    ensures NormaliseBank(name) == ToLower(RemoveSpaces(name))
  {
    RemoveSpacesLower(Trim(name));
    RemoveSpacesTrim(name);
  }

  /** Normalising twice is normalising once. */
  lemma NormaliseBankIdempotent(name: string)
    ensures NormaliseBank(NormaliseBank(name)) == NormaliseBank(name)
  {
    var n := NormaliseBank(name);
    NormaliseBankIsLowerWithoutSpaces(n);
    RemoveSpacesNoop(n);
    assert ToLower(n) == n;
  }

  /** `bankCodeMap`. */
  const BankCodeMap: map<string, string> := map["mb" := "mbbank", "mbank" := "mbbank", "mbbank" := "mbbank"]

  /** `bankCodeMap[normalizedBank] ?? normalizedBank`. */
  function BankCode(normalised: string): (code: string)
    ensures normalised in {"mb", "mbank", "mbbank"} ==> code == "mbbank"
    ensures normalised !in {"mb", "mbank", "mbbank"} ==> code == normalised
  {
    if normalised in BankCodeMap then BankCodeMap[normalised] else normalised
  }

  /** A bank code is its own code: the table has no chains. */
  lemma BankCodeIdempotent(n: string)
    ensures BankCode(BankCode(n)) == BankCode(n)
  {
  }

  /** Spacing and capitals make no difference to the bank code. */
  lemma BankCodeIgnoresSpacing(a: string, b: string)
    requires ToLower(RemoveSpaces(a)) == ToLower(RemoveSpaces(b))
    ensures BankCode(NormaliseBank(a)) == BankCode(NormaliseBank(b))
  {
    NormaliseBankIsLowerWithoutSpaces(a);
    NormaliseBankIsLowerWithoutSpaces(b);
  }

  const UrlPrefix := "https://img.vietqr.io/image/"

  /** The `qrUrl` template. */
  function QrUrl(bankCode: string, accountNumber: string, amount: int, orderCode: string,
                 accountName: string, enc: string -> string): (url: string)
    ensures UrlPrefix + bankCode + "-" + accountNumber + "-compact2.jpg?amount=" <= url
  {
    UrlPrefix + bankCode + "-" + accountNumber + "-compact2.jpg?amount=" + IntToString(amount)
      + "&addInfo=" + enc(orderCode) + "&accountName=" + enc(accountName)
  }

  /** What the card shows. */
  datatype QrCard = NotConfigured | Qr(url: string)

  /** `if (!accountNumber)` shows the alert; otherwise the image of the URL. */
  function PaymentCard(bankName: string, accountNumber: string, accountName: string, amount: int,
                       orderCode: string, enc: string -> string): (c: QrCard)
    ensures c.NotConfigured? <==> accountNumber == ""
  {
    if accountNumber == "" then NotConfigured
    else Qr(QrUrl(BankCode(NormaliseBank(bankName)), accountNumber, amount, orderCode, accountName, enc))
  }

  /** Splitting at a separator that occurs only at a known place. */
  lemma {:induction false} SplitAtSeparator(a: string, b: string, sep: char)
    requires sep !in a
    ensures Split(a + [sep] + b, sep) == [a] + Split(b, sep)
  {
    if a == [] {
      assert a + [sep] + b == [sep] + b;
      assert ([sep] + b)[1..] == b;
    } else {
      var s := a + [sep] + b;
      assert s[0] == a[0] && s[1..] == a[1..] + [sep] + b;
      SplitAtSeparator(a[1..], b, sep);
      assert [a[0]] + a[1..] == a;
    }
  }

  /** A string without the separator is one piece. */
  lemma {:induction false} SplitWithoutSeparator(s: string, sep: char)
    requires sep !in s
    ensures Split(s, sep) == [s]
  {
    if s != [] {
      SplitWithoutSeparator(s[1..], sep);
      assert [s[0]] + s[1..] == s;
    }
  }

  lemma IntToStringHasNoAmpersand(n: int)
    ensures '&' !in IntToString(n)
  {
    var d := NatToString(if n < 0 then -n else n);
    assert forall i :: 0 <= i < |d| ==> IsDigit(d[i]);
    if n < 0 {
      assert IntToString(n) == "-" + d;
    }
  }

  /** Three pieces joined by a separator none of them holds split back into the three. */
  lemma SplitThree(a: string, b: string, c: string, sep: char)
    requires sep !in a && sep !in b && sep !in c
    ensures Split(a + [sep] + b + [sep] + c, sep) == [a, b, c]
  {
    assert a + [sep] + b + [sep] + c == a + [sep] + (b + [sep] + c);
    SplitAtSeparator(a, b + [sep] + c, sep);
    SplitAtSeparator(b, c, sep);
    SplitWithoutSeparator(c, sep);
  }

  /**
   * When the encoder escapes '&' (as `encodeURIComponent` does) and the bank
   * code and account number hold none, the URL splits at '&' into exactly the
   * address with the amount, the order code and the account name.
   */
  lemma QrUrlFields(bankCode: string, accountNumber: string, amount: int, orderCode: string,
                    accountName: string, enc: string -> string)
    requires '&' !in bankCode && '&' !in accountNumber
    requires '&' !in enc(orderCode) && '&' !in enc(accountName)
    ensures Split(QrUrl(bankCode, accountNumber, amount, orderCode, accountName, enc), '&') ==
            [UrlPrefix + bankCode + "-" + accountNumber + "-compact2.jpg?amount=" + IntToString(amount),
             "addInfo=" + enc(orderCode),
             "accountName=" + enc(accountName)]
  {
    var head := UrlPrefix + bankCode + "-" + accountNumber + "-compact2.jpg?amount=" + IntToString(amount);
    var info := "addInfo=" + enc(orderCode);
    var name := "accountName=" + enc(accountName);
    UrlHeadHasNoAmpersand(bankCode, accountNumber, amount);
    LabelsHaveNoAmpersand(enc(orderCode), enc(accountName));
    QrUrlPieces(bankCode, accountNumber, amount, orderCode, accountName, enc);
    SplitThree(head, info, name, '&');
  }

  lemma UrlHeadHasNoAmpersand(bankCode: string, accountNumber: string, amount: int)
    requires '&' !in bankCode && '&' !in accountNumber
    ensures '&' !in UrlPrefix + bankCode + "-" + accountNumber + "-compact2.jpg?amount=" + IntToString(amount)
  {
    IntToStringHasNoAmpersand(amount);
    assert '&' !in UrlPrefix && '&' !in "-" && '&' !in "-compact2.jpg?amount=";
  }

  lemma LabelsHaveNoAmpersand(info: string, name: string)
    requires '&' !in info && '&' !in name
    ensures '&' !in "addInfo=" + info && '&' !in "accountName=" + name
  {
    assert '&' !in "addInfo=" && '&' !in "accountName=";
  }

  /** The URL is its three fields with '&' between them. */
  lemma QrUrlPieces(bankCode: string, accountNumber: string, amount: int, orderCode: string,
                    accountName: string, enc: string -> string)
    ensures QrUrl(bankCode, accountNumber, amount, orderCode, accountName, enc)
            == (UrlPrefix + bankCode + "-" + accountNumber + "-compact2.jpg?amount=" + IntToString(amount))
               + ['&'] + ("addInfo=" + enc(orderCode)) + ['&'] + ("accountName=" + enc(accountName))
  {
    assert "&addInfo=" == ['&'] + "addInfo=";
    assert "&accountName=" == ['&'] + "accountName=";
  }
}
