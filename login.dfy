/**
 * The sign-in screen: a name and a digit-only phone number, and a submit
 * guard that hands both to the parent only when the name has content and
 * the number is long enough.
 */
module Login {
  import opened Wrappers
  import opened Text
  import Forms

  /** What `handleSubmit` hands to `onLoginSuccess`, if anything: the phone number and the trimmed name. */
  function Submission(name: string, phoneNumber: string): (r: Option<(string, string)>)
    ensures r.Some? <==> Trim(name) != "" && |phoneNumber| >= Forms.PhoneLength
    ensures r.Some? ==> r.value.0 == phoneNumber
    ensures r.Some? ==> r.value.1 != [] && !IsWhiteSpace(r.value.1[0]) && !IsWhiteSpace(r.value.1[|r.value.1| - 1])
  {
    if Trim(name) != "" && |phoneNumber| >= Forms.PhoneLength then Some((phoneNumber, Trim(name))) else None
  }

  /** A number that signs in through the ten-character field was typed as ten digits and nothing else. */
  lemma SignedInNumberWasTypedAsDigits(name: string, raw: string)
    requires |raw| <= Forms.PhoneLength && Submission(name, KeepDigits(raw)).Some?
    ensures IsDigits(raw) && |raw| == Forms.PhoneLength && KeepDigits(raw) == raw
  {
    KeepDigitsKeepsLengthIff(raw);
    KeepDigitsOfDigits(raw);
  }

  /** A name made only of white space never signs in. */
  lemma BlankNameRejected(name: string, phoneNumber: string)
    requires AllWhiteSpace(name)
    ensures Submission(name, phoneNumber).None?
  {
    TrimAllWhiteSpace(name);
  }

  /** Padding the name with white space does not change what is handed over. */
  lemma PaddingDoesNotMatter(w1: string, name: string, w2: string, phoneNumber: string)
    requires AllWhiteSpace(w1) && AllWhiteSpace(w2)
    ensures Submission(w1 + name + w2, phoneNumber) == Submission(name, phoneNumber)
  {
    TrimIgnoresSurroundingWhiteSpace(w1, name, w2);
  }

  /** The parent callback `onLoginSuccess(phoneNumber, name)`. */
  datatype HostCall = LoginSucceeded(phoneNumber: string, name: string)

  class LoginPage {
    var name: string
    var phoneNumber: string
    var calls: seq<HostCall>

    /** The number is digits only, at most the field's `maxLength` of 10, and every sign-in carried ten digits. */
    ghost predicate Valid()
      reads this
    {
      && IsDigits(phoneNumber) && |phoneNumber| <= Forms.PhoneLength
      && (forall i :: 0 <= i < |calls| ==>
            IsDigits(calls[i].phoneNumber) && |calls[i].phoneNumber| == Forms.PhoneLength && calls[i].name != [])
    }

    constructor()
      ensures Valid()
      ensures name == "" && phoneNumber == "" && calls == []
    {
      name, phoneNumber, calls := "", "", [];
    }

    /** The name field's `onChange`: the text is kept as typed. */
    method ChangeName(raw: string)
      requires Valid()
      modifies this
      ensures Valid()
      ensures name == raw
      ensures unchanged(this`phoneNumber, this`calls)
    {
      name := raw;
    }

    /** The phone field's `onChange`: only digits are kept; the field holds at most 10 characters. */
    method ChangePhoneNumber(raw: string)
      requires Valid() && |raw| <= Forms.PhoneLength
      modifies this
      ensures Valid()
      ensures phoneNumber == KeepDigits(raw)
      ensures unchanged(this`name, this`calls)
    {
      phoneNumber := KeepDigits(raw);
    }

    /** `disabled={!name.trim() || phoneNumber.length < 10}`: disabled exactly when submitting would do nothing. */
    predicate ContinueDisabled()
      reads this
      ensures ContinueDisabled() <==> Submission(name, phoneNumber).None?
    {
      Trim(name) == "" || |phoneNumber| < Forms.PhoneLength
    }

    /** `handleSubmit`: call `onLoginSuccess` with the submission, if there is one; the fields are not touched. */
    method Submit()
      requires Valid()
      modifies this
      ensures Valid()
      ensures Submission(name, phoneNumber).None? ==> calls == old(calls)
      ensures Submission(name, phoneNumber).Some? ==>
        calls == old(calls) + [LoginSucceeded(phoneNumber, Trim(name))]
      ensures unchanged(this`name, this`phoneNumber)
    {
      var submission := Submission(name, phoneNumber);
      if submission.Some? {
        var call := LoginSucceeded(submission.value.0, submission.value.1);
        assert IsDigits(call.phoneNumber) && |call.phoneNumber| == Forms.PhoneLength && call.name != [];
        calls := calls + [call];
      }
    }
  }

  /** Whatever the name, a number typed in fewer than ten characters is too short to sign in. */
  method ShortNumberDoesNotSignIn(name: string, raw: string) returns (before: seq<HostCall>)
    requires |raw| < Forms.PhoneLength
    ensures before == []
  {
    var page := new LoginPage();
    page.ChangeName(name);
    page.ChangePhoneNumber(raw);
    page.Submit();
    before := page.calls;
  }
}
