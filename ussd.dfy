/**
 * The USSD payment screen: a dial pad whose buffer unlocks, once it holds
 * the code `*99#`, a payment form checked against the user's PIN.
 */
module Ussd {
  import opened Text
  import Forms

  datatype Step = Dialpad | Form

  /** The parent callbacks: `onSuccess()` and `onCancel()`. */
  datatype HostCall = Succeeded | Cancelled

  /** The dial pad's twelve keys in their grid order. */
  const DialKeys: seq<string> := ["1", "2", "3", "4", "5", "6", "7", "8", "9", "*", "0", "#"]

  /** The only code that opens the form. */
  const DialCode := "*99#"

  predicate IsDialChar(c: char) {
    IsDigit(c) || c == '*' || c == '#'
  }

  /** The dial keys are exactly the one-character strings over `0-9 * #`. */
  lemma DialKeysAreDialChars(key: string)
    ensures key in DialKeys <==> |key| == 1 && IsDialChar(key[0])
  {
    if |key| == 1 && IsDialChar(key[0]) {
      var d := key[0];
      assert key == [d];
      if d == '*' { assert DialKeys[9] == key; }
      else if d == '#' { assert DialKeys[11] == key; }
      else if d == '0' { assert DialKeys[10] == key; }
      else if d == '1' { assert DialKeys[0] == key; }
      else if d == '2' { assert DialKeys[1] == key; }
      else if d == '3' { assert DialKeys[2] == key; }
      else if d == '4' { assert DialKeys[3] == key; }
      else if d == '5' { assert DialKeys[4] == key; }
      else if d == '6' { assert DialKeys[5] == key; }
      else if d == '7' { assert DialKeys[6] == key; }
      else if d == '8' { assert DialKeys[7] == key; }
      else { assert DialKeys[8] == key; }
    }
  }

  class UssdPage {
    const originalPin: string

    var step: Step
    var isLoading: bool
    var dialInput: string
    var recipient: string
    var amount: string
    var pin: string
    var pinError: string
    /** Queued callbacks of `setTimeout(() => { setIsLoading(false); setStep('form') }, 1500)`. */
    var pendingDials: nat
    var calls: seq<HostCall>

    /**
     * The buffer holds dial-pad characters only, the fields digits only
     * within their lengths, the spinner is on only while a dial is queued,
     * and `onSuccess` was reached from the form.
     */
    ghost predicate Valid()
      reads this
    {
      && (forall i :: 0 <= i < |dialInput| ==> IsDialChar(dialInput[i]))
      && IsDigits(recipient) && |recipient| <= Forms.PhoneLength
      && IsDigits(amount)
      && IsDigits(pin) && |pin| <= Forms.PinLength
      && (isLoading ==> pendingDials > 0)
      && (Succeeded in calls ==> step == Form)
    }

    constructor(originalPin: string)
      ensures Valid()
      ensures this.originalPin == originalPin
      ensures step == Dialpad && !isLoading && dialInput == "" && pendingDials == 0
      ensures recipient == "" && amount == "" && pin == "" && pinError == "" && calls == []
    {
      this.originalPin := originalPin;
      step, isLoading, dialInput, pendingDials := Dialpad, false, "", 0;
      recipient, amount, pin, pinError, calls := "", "", "", "", [];
    }

    /** `handleKeyPress`: append the key to the buffer. */
    method KeyPress(key: string)
      requires Valid() && step == Dialpad && key in DialKeys
      modifies this
      ensures Valid()
      ensures dialInput == old(dialInput) + key
      ensures unchanged(this`step, this`isLoading, this`pendingDials, this`recipient, this`amount)
      ensures unchanged(this`pin, this`pinError, this`calls)
    {
      DialKeysAreDialChars(key);
      dialInput := dialInput + key;
    }

    /** `handleDelete`: drop the last character of the buffer, if any. */
    method Delete()
      requires Valid() && step == Dialpad
      modifies this
      ensures Valid()
      ensures old(dialInput) == [] ==> dialInput == []
      ensures old(dialInput) != [] ==> dialInput == old(dialInput)[..|old(dialInput)| - 1]
      ensures unchanged(this`step, this`isLoading, this`pendingDials, this`recipient, this`amount)
      ensures unchanged(this`pin, this`pinError, this`calls)
    {
      if dialInput != [] {
        dialInput := dialInput[..|dialInput| - 1];
      }
    }

    /** `handleDial`: only the exact code starts the spinner and queues the switch to the form. */
    method Dial()
      requires Valid() && step == Dialpad
      modifies this
      ensures Valid()
      ensures old(DialEnabled()) ==> isLoading && pendingDials == old(pendingDials) + 1
      ensures !old(DialEnabled()) ==> unchanged(this`isLoading, this`pendingDials)
      ensures unchanged(this`step, this`dialInput, this`recipient, this`amount, this`pin, this`pinError, this`calls)
    {
      if dialInput == DialCode {
        isLoading := true;
        pendingDials := pendingDials + 1;
      }
    }

    /** `disabled={dialInput !== '*99#'}`: the Call button is enabled exactly on the code. */
    predicate DialEnabled()
      reads this
    {
      dialInput == DialCode
    }

    /** One queued dial callback runs: the spinner stops and the form is shown. */
    method FireDial()
      requires Valid() && pendingDials > 0
      modifies this
      ensures Valid()
      ensures !isLoading && step == Form && pendingDials == old(pendingDials) - 1
      ensures unchanged(this`dialInput, this`recipient, this`amount, this`pin, this`pinError, this`calls)
    {
      isLoading := false;
      step := Form;
      pendingDials := pendingDials - 1;
    }

    /** The recipient field's `onChange`; the field holds at most its `maxLength` of 10. */
    method ChangeRecipient(raw: string)
      requires Valid() && step == Form && |raw| <= Forms.PhoneLength
      modifies this
      ensures Valid()
      ensures recipient == KeepDigits(raw)
      ensures unchanged(this`step, this`isLoading, this`pendingDials, this`dialInput, this`amount)
      ensures unchanged(this`pin, this`pinError, this`calls)
    {
      recipient := KeepDigits(raw);
    }

    /** `handleAmountChange`: keep the digits; the field has no length limit. */
    method ChangeAmount(raw: string)
      requires Valid() && step == Form
      modifies this
      ensures Valid()
      ensures amount == KeepDigits(raw)
      ensures unchanged(this`step, this`isLoading, this`pendingDials, this`dialInput, this`recipient)
      ensures unchanged(this`pin, this`pinError, this`calls)
    {
      amount := KeepDigits(raw);
    }

    /** `handlePinChange`: keep the digits and clear the error; the field holds at most 6 characters. */
    method ChangePin(raw: string)
      requires Valid() && step == Form && |raw| <= Forms.PinLength
      modifies this
      ensures Valid()
      ensures pin == KeepDigits(raw) && pinError == ""
      ensures unchanged(this`step, this`isLoading, this`pendingDials, this`dialInput, this`recipient)
      ensures unchanged(this`amount, this`calls)
    {
      pin := KeepDigits(raw);
      if pinError != "" {
        pinError := "";
      }
    }

    predicate FormValid()
      reads this
      requires IsDigits(amount)
    {
      Forms.RecipientFormValid(recipient, amount, pin)
    }

    /** `handleSend`: nothing on an invalid form, an error on a wrong PIN, else `onSuccess` once. */
    method Send()
      requires Valid() && step == Form
      modifies this
      ensures Valid()
      ensures !FormValid() ==> unchanged(this`pinError, this`calls)
      ensures FormValid() && pin != originalPin ==> pinError == Forms.IncorrectPin && calls == old(calls)
      ensures FormValid() && pin == originalPin ==> calls == old(calls) + [Succeeded] && unchanged(this`pinError)
      ensures unchanged(this`step, this`isLoading, this`pendingDials, this`dialInput)
      ensures unchanged(this`recipient, this`amount, this`pin)
    {
      if !FormValid() {
        return;
      }
      if pin != originalPin {
        pinError := Forms.IncorrectPin;
        return;
      }
      calls := calls + [Succeeded];
    }

    /** The header's back button: `onCancel()`, on either step. */
    method Cancel()
      requires Valid()
      modifies this
      ensures Valid()
      ensures calls == old(calls) + [Cancelled]
      ensures unchanged(this`step, this`isLoading, this`pendingDials, this`dialInput)
      ensures unchanged(this`recipient, this`amount, this`pin, this`pinError)
    {
      calls := calls + [Cancelled];
    }
  }

  /** Dialling `*99#` and letting the timer run opens the form. */
  method DialCodeOpensForm() returns (step: Step, loading: bool)
    ensures step == Form && !loading
  {
    var page := new UssdPage("123456");
    page.KeyPress("*");
    page.KeyPress("9");
    page.KeyPress("9");
    page.KeyPress("#");
    assert page.dialInput == DialCode;
    page.Dial();
    page.FireDial();
    step, loading := page.step, page.isLoading;
  }

  /**
   * Any buffer other than the code, typed key by key, leaves the Call button
   * disabled, and dialling it anyway queues nothing.
   */
  method OtherCodeDoesNothing(code: string) returns (enabled: bool, queued: nat)
    requires forall i :: 0 <= i < |code| ==> IsDialChar(code[i])
    requires code != DialCode
    ensures !enabled && queued == 0
  {
    var page := new UssdPage("123456");
    var i := 0;
    while i < |code|
      invariant 0 <= i <= |code|
      invariant page.Valid() && page.step == Dialpad && page.dialInput == code[..i] && page.pendingDials == 0
    {
      DialKeysAreDialChars([code[i]]);
      assert code[..i + 1] == code[..i] + [code[i]];
      page.KeyPress([code[i]]);
      i := i + 1;
    }
    assert code[..i] == code;
    enabled := page.DialEnabled();
    page.Dial();
    queued := page.pendingDials;
  }
}
