/**
 * The pay-by-QR screen: a UPI payment request for the user's own account,
 * rendered as the URL of a QR-code image and rebuilt whenever the amount
 * changes, and a Pay button checked against the user's PIN.
 */
module PayQr {
  import opened Wrappers
  import opened Text
  import opened Uri
  import Forms

  /** `&am=<amount>` for a positive amount, and nothing otherwise (an empty amount included). */
  function AmountParam(amount: string): (r: string)
    requires IsDigits(amount)
  {
    if IsPositiveAmount(amount) then "&am=" + amount else ""
  }

  /** The amount appears in the request exactly when some digit of it is not '0'. */
  lemma AmountParamIff(amount: string)
    requires IsDigits(amount)
    ensures AmountParam(amount) == "&am=" + amount <==> exists i :: 0 <= i < |amount| && amount[i] != '0'
    ensures AmountParam(amount) == "" <==> forall i :: 0 <= i < |amount| ==> amount[i] == '0'
  {
    PositiveIffNonzeroDigit(amount);
  }

  /** The UPI request: payee `<phone>@okbank`, the encoded name, the optional amount, rupees. */
  function UpiString(phoneNumber: string, userName: string, amount: string): string
    requires IsDigits(amount)
  {
    "upi://pay?pa=" + phoneNumber + "@okbank" + "&pn=" + EncodeURIComponent(userName) + AmountParam(amount) + "&cu=INR"
  }

  const QrPrefix := "https://api.qrserver.com/v1/create-qr-code/?data="
  const QrSuffix := "&size=256x256"

  /** The QR image URL: the encoded UPI request as the service's `data` parameter. */
  function QrCodeUrl(phoneNumber: string, userName: string, amount: string): string
    requires IsDigits(amount)
  {
    QrPrefix + EncodeURIComponent(UpiString(phoneNumber, userName, amount)) + QrSuffix
  }

  /**
   * The `data` parameter ends at the first `&` after the prefix, because an
   * encoded string never holds one, and it decodes back to the UPI request.
   */
  lemma QrDataRecoversUpi(phoneNumber: string, userName: string, amount: string)
    requires IsDigits(amount)
    ensures var url := QrCodeUrl(phoneNumber, userName, amount);
      var data := EncodeURIComponent(UpiString(phoneNumber, userName, amount));
      && url == QrPrefix + data + QrSuffix
      && '&' !in data
      && PercentDecode(data) == Some(UpiString(phoneNumber, userName, amount))
  {
    var data := EncodeURIComponent(UpiString(phoneNumber, userName, amount));
    assert '&' !in data by {
      assert !IsUnreserved('&');
    }
    DecodeEncode(UpiString(phoneNumber, userName, amount));
  }

  /** Whatever the user's name, its encoded form cannot start a parameter (`&`) or a value (`=`) of its own. */
  lemma NameCannotAddParameters(userName: string)
    ensures '&' !in EncodeURIComponent(userName) && '=' !in EncodeURIComponent(userName)
    ensures PercentDecode(EncodeURIComponent(userName)) == Some(userName)
  {
    assert !IsUnreserved('&') && !IsUnreserved('=');
    DecodeEncode(userName);
  }

  /** The parent callbacks: `onPay({ amount })` and `onCancel()`. */
  datatype HostCall = Paid(amount: string) | Cancelled

  class PayQrPage {
    const originalPin: string
    const userName: string
    const phoneNumber: string

    var amount: string
    var pin: string
    var pinError: string
    var qrCodeUrl: string
    var calls: seq<HostCall>

    /**
     * The fields are digit strings, and the QR URL is the one for the
     * current amount and the user's name and number: the effect that
     * builds it runs after every change of the amount.
     */
    ghost predicate Valid()
      reads this
    {
      && IsDigits(amount)
      && IsDigits(pin) && |pin| <= Forms.PinLength
      && qrCodeUrl == QrCodeUrl(phoneNumber, userName, amount)
      && (forall i :: 0 <= i < |calls| ==> calls[i].Paid? ==> IsDigits(calls[i].amount) && IsPositiveAmount(calls[i].amount))
    }

    /** The screen opens empty; the mount effect builds the URL for an empty amount. */
    constructor(originalPin: string, userName: string, phoneNumber: string)
      ensures Valid()
      ensures this.originalPin == originalPin && this.userName == userName && this.phoneNumber == phoneNumber
      ensures amount == "" && pin == "" && pinError == "" && calls == []
    {
      this.originalPin := originalPin;
      this.userName := userName;
      this.phoneNumber := phoneNumber;
      amount, pin, pinError, calls := "", "", "", [];
      qrCodeUrl := QrCodeUrl(phoneNumber, userName, "");
    }

    /** `handleAmountChange` and the effect it triggers: keep the digits, rebuild the URL. */
    method ChangeAmount(raw: string)
      requires Valid()
      modifies this
      ensures Valid()
      ensures amount == KeepDigits(raw)
      ensures qrCodeUrl == QrCodeUrl(phoneNumber, userName, KeepDigits(raw))
      ensures unchanged(this`pin, this`pinError, this`calls)
    {
      amount := KeepDigits(raw);
      qrCodeUrl := QrCodeUrl(phoneNumber, userName, amount);
    }

    /** `handlePinChange`: keep the digits and clear the error; the field holds at most 6 characters. */
    method ChangePin(raw: string)
      requires Valid() && |raw| <= Forms.PinLength
      modifies this
      ensures Valid()
      ensures pin == KeepDigits(raw) && pinError == ""
      ensures unchanged(this`amount, this`qrCodeUrl, this`calls)
    {
      pin := KeepDigits(raw);
      if pinError != "" {
        pinError := "";
      }
    }

    /** `parseFloat(amount) > 0 && pin.length === 6`; the payee is the user, so no recipient is asked for. */
    predicate FormValid()
      reads this
      requires IsDigits(amount)
    {
      IsPositiveAmount(amount) && |pin| == Forms.PinLength
    }

    /** `handlePay`: nothing on an invalid form, an error on a wrong PIN, else `onPay` once with the raw amount. */
    method Pay()
      requires Valid()
      modifies this
      ensures Valid()
      ensures !FormValid() ==> unchanged(this`pinError, this`calls)
      ensures FormValid() && pin != originalPin ==> pinError == Forms.IncorrectPin && calls == old(calls)
      ensures FormValid() && pin == originalPin ==> calls == old(calls) + [Paid(amount)] && unchanged(this`pinError)
      ensures unchanged(this`amount, this`pin, this`qrCodeUrl)
    {
      if !FormValid() {
        return;
      }
      if pin != originalPin {
        pinError := Forms.IncorrectPin;
        return;
      }
      calls := calls + [Paid(amount)];
    }

    /** The header's back button. */
    method Cancel()
      requires Valid()
      modifies this
      ensures Valid()
      ensures calls == old(calls) + [Cancelled]
      ensures unchanged(this`amount, this`pin, this`pinError, this`qrCodeUrl)
    {
      calls := calls + [Cancelled];
    }
  }

  /** Clearing the amount again gives back the URL the screen opened with. */
  method ClearedAmountRestoresUrl(userName: string, phoneNumber: string) returns (same: bool)
    ensures same
  {
    var page := new PayQrPage("123456", userName, phoneNumber);
    var first := page.qrCodeUrl;
    page.ChangeAmount("5");
    page.ChangeAmount("abc");
    same := page.qrCodeUrl == first;
  }
}
