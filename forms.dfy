/**
 * What the payment forms (send money, USSD, SMS, pay by QR) have in common:
 * digit-only fields and the validity test in front of their submit button.
 */
module Forms {
  import opened Text

  /** The message every form shows when the entered PIN is not the user's PIN. */
  const IncorrectPin := "Incorrect PIN. Please try again."

  /** How many digits a PIN has. */
  const PinLength := 6

  /** How many digits a recipient's phone number has. */
  const PhoneLength := 10

  /**
   * `recipient.length === 10 && parseFloat(amount) > 0 && pin.length === 6`,
   * the `isFormValid` of the send-money, USSD and SMS forms.
   */
  predicate RecipientFormValid(recipient: string, amount: string, pin: string)
    requires IsDigits(amount)
  {
    |recipient| == PhoneLength && IsPositiveAmount(amount) && |pin| == PinLength
  }

  /** A form with a recipient is valid exactly when its lengths are right and some digit of the amount is not '0'. */
  lemma RecipientFormValidIff(recipient: string, amount: string, pin: string)
    requires IsDigits(amount)
    ensures RecipientFormValid(recipient, amount, pin) <==>
      |recipient| == 10 && |pin| == 6 && exists i :: 0 <= i < |amount| && amount[i] != '0'
  {
    PositiveIffNonzeroDigit(amount);
  }

  /** An empty or all-zero amount never makes a form valid. */
  lemma ZeroAmountInvalid(recipient: string, amount: string, pin: string)
    requires forall i :: 0 <= i < |amount| ==> amount[i] == '0'
    ensures IsDigits(amount) && !RecipientFormValid(recipient, amount, pin)
  {
    PositiveIffNonzeroDigit(amount);
  }
}
