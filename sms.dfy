/**
 * The SMS payment screen: the same three digit-only fields as the
 * send-money screen, and a Proceed button that opens the phone's messaging
 * app with a prepared `PAY` message to the payment service number.
 */
module Sms {
  import opened Wrappers
  import opened Text
  import opened Uri
  import Forms

  /** The service number the message is addressed to. */
  const ServiceNumber := "5551234"

  /** Everything in front of the encoded message in the link. */
  const HrefPrefix := "sms:" + ServiceNumber + "?body="

  /** The message text: `PAY <recipient> <amount> <pin>`. */
  function MessageBody(recipient: string, amount: string, pin: string): string {
    "PAY " + recipient + " " + amount + " " + pin
  }

  /** The link the page opens: `sms:<number>?body=<encodeURIComponent(body)>`. */
  function SmsHref(body: string): string {
    HrefPrefix + EncodeURIComponent(body)
  }

  /** An unreserved word and a space encode as the word and `%20`. */
  lemma EncodeWordSpace(word: string, rest: string)
    requires forall i :: 0 <= i < |word| ==> IsUnreserved(word[i])
    ensures EncodeURIComponent(word + " " + rest) == word + "%20" + EncodeURIComponent(rest)
  {
    EncodeAppend(word + " ", rest);
    EncodeAppend(word, " ");
    EncodeUnreserved(word);
    EncodeSpace();
  }

  lemma DigitsUnreserved(d: string)
    requires IsDigits(d)
    ensures forall i :: 0 <= i < |d| ==> IsUnreserved(d[i])
  {
  }

  /** Four words joined by a separator, grouped from the right, are the same words joined from the left. */
  lemma JoinRegroup(w0: string, w1: string, w2: string, w3: string, sep: string)
    ensures w0 + sep + (w1 + sep + (w2 + sep + w3)) == w0 + sep + w1 + sep + w2 + sep + w3
  {
  }

  /** Four unreserved words joined by single spaces encode with `%20` in place of each space. */
  lemma EncodeSpacedWords(w0: string, w1: string, w2: string, w3: string)
    requires forall i :: 0 <= i < |w0| ==> IsUnreserved(w0[i])
    requires forall i :: 0 <= i < |w1| ==> IsUnreserved(w1[i])
    requires forall i :: 0 <= i < |w2| ==> IsUnreserved(w2[i])
    requires forall i :: 0 <= i < |w3| ==> IsUnreserved(w3[i])
    ensures EncodeURIComponent(w0 + " " + w1 + " " + w2 + " " + w3) ==
      w0 + "%20" + w1 + "%20" + w2 + "%20" + w3
  {
    JoinRegroup(w0, w1, w2, w3, " ");
    EncodeUnreserved(w3);
    EncodeWordSpace(w2, w3);
    EncodeWordSpace(w1, w2 + " " + w3);
    EncodeWordSpace(w0, w1 + " " + (w2 + " " + w3));
    JoinRegroup(w0, w1, w2, w3, "%20");
  }

  /** With digit fields the encoding only turns each of the three spaces of the message into `%20`. */
  lemma EncodeBodyOfDigitFields(recipient: string, amount: string, pin: string)
    requires IsDigits(recipient) && IsDigits(amount) && IsDigits(pin)
    ensures EncodeURIComponent(MessageBody(recipient, amount, pin)) ==
      "PAY" + "%20" + recipient + "%20" + amount + "%20" + pin
  {
    DigitsUnreserved(recipient);
    DigitsUnreserved(amount);
    DigitsUnreserved(pin);
    assert "PAY " == "PAY" + " ";
    EncodeSpacedWords("PAY", recipient, amount, pin);
  }

  /** The link for digit fields: the service number, then the message with `%20` for its spaces. */
  lemma HrefOfDigitFields(recipient: string, amount: string, pin: string)
    requires IsDigits(recipient) && IsDigits(amount) && IsDigits(pin)
    ensures SmsHref(MessageBody(recipient, amount, pin)) ==
      HrefPrefix + "PAY%20" + recipient + "%20" + amount + "%20" + pin
  {
    EncodeBodyOfDigitFields(recipient, amount, pin);
  }

  /** The body parameter of any link the page builds decodes back to the message. */
  lemma HrefDecodesToBody(body: string)
    ensures StartsWith(SmsHref(body), HrefPrefix)
    ensures PercentDecode(SmsHref(body)[|HrefPrefix|..]) == Some(body)
  {
    assert SmsHref(body)[|HrefPrefix|..] == EncodeURIComponent(body);
    DecodeEncode(body);
  }

  /** The text before the first space, and what follows that space if there is one (used by `ParseBody`). */
  function SplitAtSpace(s: string): (r: (string, Option<string>))
    ensures r.1.None? ==> r.0 == s && ' ' !in s
    ensures r.1.Some? ==> s == r.0 + " " + r.1.value && ' ' !in r.0
  {
    if s == [] then ([], None)
    else if s[0] == ' ' then ([], Some(s[1..]))
    else
      var (head, tail) := SplitAtSpace(s[1..]);
      ([s[0]] + head, tail)
  }

  /** The first field of a digit string followed by a space and anything is that digit string. */
  lemma {:induction false} SplitDigitsSpace(d: string, rest: string)
    requires IsDigits(d)
    ensures SplitAtSpace(d + " " + rest) == (d, Some(rest))
  {
    if d != [] {
      var s := d + " " + rest;
      assert s[0] == d[0] && s[1..] == d[1..] + " " + rest;
      SplitDigitsSpace(d[1..], rest);
      assert [d[0]] + d[1..] == d;
    } else {
      assert (d + " " + rest)[1..] == rest;
    }
  }

  /** A digit string contains no space, so it is one field. */
  lemma {:induction false} SplitDigits(d: string)
    requires IsDigits(d)
    ensures SplitAtSpace(d) == (d, None)
  {
    if d != [] {
      SplitDigits(d[1..]);
    }
  }

  /**
   * The inverse of the message template: `PAY` and exactly three
   * space-separated fields. A reference definition that states what the
   * message determines; the page itself never parses a message.
   */
  function ParseBody(body: string): (r: Option<(string, string, string)>)
    ensures r.Some? ==> body == MessageBody(r.value.0, r.value.1, r.value.2)
  {
    if !StartsWith(body, "PAY ") then None
    else
      var (recipient, t1) := SplitAtSpace(body[4..]);
      if t1.None? then None
      else
        var (amount, t2) := SplitAtSpace(t1.value);
        if t2.None? then None
        else
          var (pin, t3) := SplitAtSpace(t2.value);
          if t3.Some? then None
          else
            assert body == body[..4] + body[4..];
            Some((recipient, amount, pin))
  }

  /** Digit fields come back out of the message unchanged: the message determines them. */
  lemma ParseMessageBody(recipient: string, amount: string, pin: string)
    requires IsDigits(recipient) && IsDigits(amount) && IsDigits(pin)
    ensures ParseBody(MessageBody(recipient, amount, pin)) == Some((recipient, amount, pin))
  {
    var body := MessageBody(recipient, amount, pin);
    assert StartsWith(body, "PAY ");
    assert body[4..] == recipient + " " + (amount + " " + pin);
    SplitDigitsSpace(recipient, amount + " " + pin);
    SplitDigitsSpace(amount, pin);
    SplitDigits(pin);
  }

  /** The parent callback `onCancel()`, and the link the page opens. */
  datatype HostCall = OpenedLink(href: string) | Cancelled

  /**
   * A payment link: it is addressed to the service number and its body
   * decodes to a `PAY` message for a ten-digit recipient, a positive amount
   * and six PIN digits.
   */
  ghost predicate IsPaymentLink(href: string) {
    && StartsWith(href, HrefPrefix)
    && var body := PercentDecode(href[|HrefPrefix|..]);
    && body.Some?
    && var fields := ParseBody(body.value);
    && fields.Some?
    && IsDigits(fields.value.1)
    && Forms.RecipientFormValid(fields.value.0, fields.value.1, fields.value.2)
  }

  /** Every link built from a valid digit-only form is a payment link. */
  lemma ValidFormGivesPaymentLink(recipient: string, amount: string, pin: string)
    requires IsDigits(recipient) && IsDigits(amount) && IsDigits(pin)
    requires Forms.RecipientFormValid(recipient, amount, pin)
    ensures IsPaymentLink(SmsHref(MessageBody(recipient, amount, pin)))
  {
    HrefDecodesToBody(MessageBody(recipient, amount, pin));
    ParseMessageBody(recipient, amount, pin);
  }

  class SmsPage {
    const originalPin: string

    var recipient: string
    var amount: string
    var pin: string
    var pinError: string
    var calls: seq<HostCall>

    /** The fields are digit strings within their lengths, and every link opened was a payment link. */
    ghost predicate Valid()
      reads this
    {
      && IsDigits(recipient) && |recipient| <= Forms.PhoneLength
      && IsDigits(amount)
      && IsDigits(pin) && |pin| <= Forms.PinLength
      && (forall i :: 0 <= i < |calls| ==> calls[i].OpenedLink? ==> IsPaymentLink(calls[i].href))
    }

    constructor(originalPin: string)
      ensures Valid()
      ensures this.originalPin == originalPin
      ensures recipient == "" && amount == "" && pin == "" && pinError == "" && calls == []
    {
      this.originalPin := originalPin;
      recipient, amount, pin, pinError, calls := "", "", "", "", [];
    }

    /** The recipient field's `onChange`; the field holds at most its `maxLength` of 10. */
    method ChangeRecipient(raw: string)
      requires Valid() && |raw| <= Forms.PhoneLength
      modifies this
      ensures Valid()
      ensures recipient == KeepDigits(raw)
      ensures unchanged(this`amount, this`pin, this`pinError, this`calls)
    {
      recipient := KeepDigits(raw);
    }

    /** `handleAmountChange`: keep the digits; the field has no length limit. */
    method ChangeAmount(raw: string)
      requires Valid()
      modifies this
      ensures Valid()
      ensures amount == KeepDigits(raw)
      ensures unchanged(this`recipient, this`pin, this`pinError, this`calls)
    {
      amount := KeepDigits(raw);
    }

    /** `handlePinChange`: keep the digits and clear the error; the field holds at most 6 characters. */
    method ChangePin(raw: string)
      requires Valid() && |raw| <= Forms.PinLength
      modifies this
      ensures Valid()
      ensures pin == KeepDigits(raw) && pinError == ""
      ensures unchanged(this`recipient, this`amount, this`calls)
    {
      pin := KeepDigits(raw);
      if pinError != "" {
        pinError := "";
      }
    }

    predicate FormValid()
      reads this
      requires IsDigits(amount)
    {
      Forms.RecipientFormValid(recipient, amount, pin)
    }

    /**
     * `handleProceed`: nothing on an invalid form, an error on a wrong PIN,
     * else the link is opened and `onCancel` is called once.
     */
    method Proceed()
      requires Valid()
      modifies this
      ensures Valid()
      ensures !FormValid() ==> unchanged(this`pinError, this`calls)
      ensures FormValid() && pin != originalPin ==> pinError == Forms.IncorrectPin && calls == old(calls)
      ensures FormValid() && pin == originalPin ==>
        calls == old(calls) + [OpenedLink(SmsHref(MessageBody(recipient, amount, pin))), Cancelled]
        && unchanged(this`pinError)
      ensures unchanged(this`recipient, this`amount, this`pin)
    {
      if !FormValid() {
        return;
      }
      if pin != originalPin {
        pinError := Forms.IncorrectPin;
        return;
      }
      var href := SmsHref(MessageBody(recipient, amount, pin));
      ValidFormGivesPaymentLink(recipient, amount, pin);
      calls := calls + [OpenedLink(href), Cancelled];
    }

    /** The header's back button. */
    method Cancel()
      requires Valid()
      modifies this
      ensures Valid()
      ensures calls == old(calls) + [Cancelled]
      ensures unchanged(this`recipient, this`amount, this`pin, this`pinError)
    {
      calls := calls + [Cancelled];
    }
  }
}
