/**
 * The send-money screen: recipient, amount and PIN fields kept digit-only,
 * and a Send button that hands the transfer to the parent only when the
 * form is complete and the PIN is the user's.
 */
module SendMoney {
  import opened Text
  import Forms

  /** The parent callbacks: `onSend({ amount, recipient })` and `onCancel()`. */
  datatype HostCall = Sent(amount: string, recipient: string) | Cancelled

  /** What every `onSend` carries: a ten-digit recipient and a positive digit-string amount. */
  predicate IsValidTransfer(c: HostCall) {
    c.Sent? ==> IsDigits(c.amount) && IsPositiveAmount(c.amount) && IsDigits(c.recipient) && |c.recipient| == Forms.PhoneLength
  }

  class SendMoneyPage {
    const originalPin: string

    var recipient: string
    var amount: string
    var pin: string
    var pinError: string
    var calls: seq<HostCall>

    /** The fields are digit strings within their lengths, and every transfer handed over was valid. */
    ghost predicate Valid()
      reads this
    {
      && IsDigits(recipient) && |recipient| <= Forms.PhoneLength
      && IsDigits(amount)
      && IsDigits(pin) && |pin| <= Forms.PinLength
      && (forall i :: 0 <= i < |calls| ==> IsValidTransfer(calls[i]))
    }

    /**
     * The screen always opens empty: the parent's `initialRecipient` and
     * `initialAmount` are not among its props and are never read.
     */
    constructor(originalPin: string)
      ensures Valid()
      ensures this.originalPin == originalPin
      ensures recipient == "" && amount == "" && pin == "" && pinError == "" && calls == []
    {
      this.originalPin := originalPin;
      recipient, amount, pin, pinError, calls := "", "", "", "", [];
    }

    /** The recipient field's `onChange`; the field holds at most its `maxLength` of 10. */
    method ChangeRecipient(raw: string)
      requires Valid() && |raw| <= Forms.PhoneLength
      modifies this
      ensures Valid()
      ensures recipient == KeepDigits(raw)
      ensures unchanged(this`amount, this`pin, this`pinError, this`calls)
    {
      recipient := KeepDigits(raw);
    }

    /** `handleAmountChange`: keep the digits; the field has no length limit. */
    method ChangeAmount(raw: string)
      requires Valid()
      modifies this
      ensures Valid()
      ensures amount == KeepDigits(raw)
      ensures unchanged(this`recipient, this`pin, this`pinError, this`calls)
    {
      amount := KeepDigits(raw);
    }

    /** `handlePinChange`: keep the digits and clear the error; the field holds at most 6 characters. */
    method ChangePin(raw: string)
      requires Valid() && |raw| <= Forms.PinLength
      modifies this
      ensures Valid()
      ensures pin == KeepDigits(raw) && pinError == ""
      ensures unchanged(this`recipient, this`amount, this`calls)
    {
      pin := KeepDigits(raw);
      if pinError != "" {
        pinError := "";
      }
    }

    predicate FormValid()
      reads this
      requires IsDigits(amount)
    {
      Forms.RecipientFormValid(recipient, amount, pin)
    }

    /** `handleSend`: nothing on an invalid form, an error on a wrong PIN, else `onSend` once with the raw fields. */
    method Send()
      requires Valid()
      modifies this
      ensures Valid()
      ensures !FormValid() ==> unchanged(this`pinError, this`calls)
      ensures FormValid() && pin != originalPin ==> pinError == Forms.IncorrectPin && calls == old(calls)
      ensures FormValid() && pin == originalPin ==>
        calls == old(calls) + [Sent(amount, recipient)] && unchanged(this`pinError)
      ensures unchanged(this`recipient, this`amount, this`pin)
    {
      if !FormValid() {
        return;
      }
      if pin != originalPin {
        pinError := Forms.IncorrectPin;
        return;
      }
      calls := calls + [Sent(amount, recipient)];
    }

    /** The header's back button. */
    method Cancel()
      requires Valid()
      modifies this
      ensures Valid()
      ensures calls == old(calls) + [Cancelled]
      ensures unchanged(this`recipient, this`amount, this`pin, this`pinError)
    {
      calls := calls + [Cancelled];
    }
  }

  /** An empty or all-zero amount keeps Send inert, even with the right PIN and whatever the other fields hold. */
  method ZeroAmountSendsNothing(recipient: string, amount: string, pin: string) returns (handed: seq<HostCall>)
    requires |recipient| <= Forms.PhoneLength && |pin| <= Forms.PinLength
    requires forall i :: 0 <= i < |amount| ==> amount[i] == '0'
    ensures handed == []
  {
    var page := new SendMoneyPage(pin);
    page.ChangeRecipient(recipient);
    page.ChangeAmount(amount);
    page.ChangePin(pin);
    Forms.ZeroAmountInvalid(page.recipient, amount, page.pin);
    KeepDigitsOfDigits(amount);
    page.Send();
    handed := page.calls;
  }

  /** A complete digit-only form with the right PIN hands exactly the typed strings to the parent, once. */
  method RightPinSendsRawDigits(recipient: string, amount: string, pin: string) returns (handed: seq<HostCall>)
    requires IsDigits(recipient) && |recipient| == Forms.PhoneLength
    requires IsDigits(amount) && exists i :: 0 <= i < |amount| && amount[i] != '0'
    requires IsDigits(pin) && |pin| == Forms.PinLength
    ensures handed == [Sent(amount, recipient)]
  {
    var page := new SendMoneyPage(pin);
    page.ChangeRecipient(recipient);
    page.ChangeAmount(amount);
    page.ChangePin(pin);
    KeepDigitsOfDigits(recipient);
    KeepDigitsOfDigits(amount);
    KeepDigitsOfDigits(pin);
    PositiveIffNonzeroDigit(amount);
    page.Send();
    handed := page.calls;
  }
}
