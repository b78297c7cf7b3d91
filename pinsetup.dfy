/**
 * The PIN keypad used twice during sign-up: once to create a six-digit PIN
 * and once to confirm it. Digits are appended up to six; at six the page
 * either hands the PIN to its parent (setup) or compares it with the PIN
 * chosen before (confirm), deferring the consequences by a timer.
 */
module PinSetup {
  import opened Wrappers
  import opened Text
  import Forms

  datatype Mode = Setup | Confirm

  /** The parent callbacks: `onPinSet(pin)` and `onPinConfirm()`. */
  datatype HostCall = PinSet(pin: string) | PinConfirmed

  /** The keypad's keys in their grid order; the empty one is drawn disabled. */
  const Keys: seq<string> := ["1", "2", "3", "4", "5", "6", "7", "8", "9", "", "0"]

  /** A key the user can press: a keypad key with a label (`disabled={!key}`). */
  predicate IsEnabledKey(key: string) {
    key in Keys && key != ""
  }

  /** The enabled keys are exactly the ten one-digit strings. */
  lemma EnabledKeysAreDigits(key: string)
    ensures IsEnabledKey(key) <==> |key| == 1 && IsDigit(key[0])
  {
    if |key| == 1 && IsDigit(key[0]) {
      var d := key[0];
      assert key == [d];
      if d == '0' { assert Keys[10] == key; }
      else if d == '1' { assert Keys[0] == key; }
      else if d == '2' { assert Keys[1] == key; }
      else if d == '3' { assert Keys[2] == key; }
      else if d == '4' { assert Keys[3] == key; }
      else if d == '5' { assert Keys[4] == key; }
      else if d == '6' { assert Keys[5] == key; }
      else if d == '7' { assert Keys[6] == key; }
      else if d == '8' { assert Keys[7] == key; }
      else { assert Keys[8] == key; }
    }
  }

  const MismatchMessage := "PINs don't match. Try again."
  const SuccessMessage := "PIN set successfully!"

  /** The line under the PIN dots: the mismatch text wins over the success text. */
  function StatusMessage(error: bool, confirmed: bool): (m: string)
    ensures m == MismatchMessage <==> error
    ensures m == SuccessMessage <==> !error && confirmed
    ensures m == "" <==> !error && !confirmed
  {
    if error then MismatchMessage else if confirmed then SuccessMessage else ""
  }

  class PinSetupPage {
    const mode: Mode
    /** The PIN entered on the setup screen; the prop may be absent. */
    const originalPin: Option<string>
    /** Whether the parent passed `onPinSet`, respectively `onPinConfirm`. */
    const hasOnPinSet: bool
    const hasOnPinConfirm: bool

    var pin: string
    var error: bool
    var confirmed: bool
    /** Queued `setTimeout(() => onPinConfirm(), 1000)` callbacks. */
    var pendingConfirms: nat
    /** Queued `setTimeout(() => setPin(''), 1000)` callbacks. */
    var pendingResets: nat
    /** The parent callbacks invoked so far, in order. */
    var calls: seq<HostCall>

    /**
     * The PIN is at most six digits; the flags and timers belong to the
     * confirm screen, and every `onPinSet` carried six digits.
     */
    ghost predicate Valid()
      reads this
    {
      && IsDigits(pin) && |pin| <= Forms.PinLength
      && (error || pendingResets > 0 ==> mode == Confirm)
      && (pendingConfirms > 0 ==> confirmed)
      && (confirmed ==> mode == Confirm && hasOnPinConfirm && originalPin.Some?)
      && (forall i :: 0 <= i < |calls| ==>
            if calls[i].PinSet? then mode == Setup && IsDigits(calls[i].pin) && |calls[i].pin| == Forms.PinLength
            else confirmed)
    }

    constructor(mode: Mode, originalPin: Option<string>, hasOnPinSet: bool, hasOnPinConfirm: bool)
      ensures Valid()
      ensures this.mode == mode && this.originalPin == originalPin
      ensures this.hasOnPinSet == hasOnPinSet && this.hasOnPinConfirm == hasOnPinConfirm
      ensures pin == "" && !error && !confirmed && pendingConfirms == 0 && pendingResets == 0 && calls == []
    {
      this.mode := mode;
      this.originalPin := originalPin;
      this.hasOnPinSet := hasOnPinSet;
      this.hasOnPinConfirm := hasOnPinConfirm;
      pin, error, confirmed := "", false, false;
      pendingConfirms, pendingResets, calls := 0, 0, [];
    }

    /** Whether the confirm screen accepts six digits `p`. */
    predicate Matches(p: string)
      reads this
    {
      originalPin == Some(p)
    }

    /**
     * `handleKeyPress` followed by the effect that watches `pin`: the key
     * is appended only below six digits, and the sixth digit triggers the
     * mode's action.
     */
    method KeyPress(key: string)
      requires Valid() && IsEnabledKey(key)
      modifies this
      ensures Valid()
      ensures |old(pin)| < Forms.PinLength ==> pin == old(pin) + key
      ensures |old(pin)| >= Forms.PinLength ==>
        unchanged(this`pin, this`error, this`confirmed, this`pendingConfirms, this`pendingResets, this`calls)
      ensures |old(pin)| < |pin| == Forms.PinLength && mode == Setup && hasOnPinSet ==>
        calls == old(calls) + [PinSet(pin)] && unchanged(this`error, this`confirmed, this`pendingConfirms, this`pendingResets)
      ensures |old(pin)| < |pin| == Forms.PinLength && mode == Confirm && hasOnPinConfirm && Matches(pin) ==>
        confirmed && pendingConfirms == old(pendingConfirms) + 1 && unchanged(this`error, this`pendingResets, this`calls)
      ensures |old(pin)| < |pin| == Forms.PinLength && mode == Confirm && hasOnPinConfirm && !Matches(pin) ==>
        error && pendingResets == old(pendingResets) + 1 && unchanged(this`confirmed, this`pendingConfirms, this`calls)
      ensures (|pin| < Forms.PinLength || (mode == Setup && !hasOnPinSet) || (mode == Confirm && !hasOnPinConfirm)) ==>
        unchanged(this`error, this`confirmed, this`pendingConfirms, this`pendingResets, this`calls)
    {
      EnabledKeysAreDigits(key);
      if |pin| < Forms.PinLength {
        pin := pin + key;
        if |pin| == Forms.PinLength {
          if mode == Setup && hasOnPinSet {
            calls := calls + [PinSet(pin)];
          } else if mode == Confirm && hasOnPinConfirm {
            if originalPin == Some(pin) {
              confirmed := true;
              pendingConfirms := pendingConfirms + 1;
            } else {
              error := true;
              pendingResets := pendingResets + 1;
            }
          }
        }
      }
    }

    /** `handleDelete`: clear the error and drop the last digit, if any. */
    method Delete()
      requires Valid()
      modifies this
      ensures Valid()
      ensures !error
      ensures old(pin) == [] ==> pin == []
      ensures old(pin) != [] ==> pin == old(pin)[..|old(pin)| - 1]
      ensures unchanged(this`confirmed, this`pendingConfirms, this`pendingResets, this`calls)
    {
      error := false;
      if pin != [] {
        pin := pin[..|pin| - 1];
      }
    }

    /** One queued `onPinConfirm()` runs. */
    method FireConfirm()
      requires Valid() && pendingConfirms > 0
      modifies this
      ensures Valid()
      ensures calls == old(calls) + [PinConfirmed] && pendingConfirms == old(pendingConfirms) - 1
      ensures unchanged(this`pin, this`error, this`confirmed, this`pendingResets)
    {
      calls := calls + [PinConfirmed];
      pendingConfirms := pendingConfirms - 1;
    }

    /** One queued `setPin('')` runs; the effect it triggers sees an empty PIN and does nothing. */
    method FireReset()
      requires Valid() && pendingResets > 0
      modifies this
      ensures Valid()
      ensures pin == "" && pendingResets == old(pendingResets) - 1
      ensures unchanged(this`error, this`confirmed, this`pendingConfirms, this`calls)
    {
      pin := "";
      pendingResets := pendingResets - 1;
    }
  }

  /**
   * Typing any six digits, key by key, on the setup screen hands exactly
   * those six digits to the parent, once; a further key is ignored.
   */
  method SetupHandsOverPin(digits: string, extra: string) returns (handed: seq<HostCall>)
    requires IsDigits(digits) && |digits| == Forms.PinLength
    requires IsEnabledKey(extra)
    ensures handed == [PinSet(digits)]
  {
    var page := new PinSetupPage(Setup, None, true, false);
    var i := 0;
    while i < |digits|
      invariant 0 <= i <= |digits|
      invariant page.mode == Setup && page.hasOnPinSet
      invariant page.Valid() && page.pin == digits[..i]
      invariant page.calls == if i == |digits| then [PinSet(digits)] else []
    {
      EnabledKeysAreDigits([digits[i]]);
      assert digits[..i + 1] == digits[..i] + [digits[i]];
      page.KeyPress([digits[i]]);
      if i + 1 == |digits| {
        assert digits[..i + 1] == digits;
      }
      i := i + 1;
    }
    page.KeyPress(extra);
    handed := page.calls;
  }

  /** A confirm screen for `111111` after a mismatched entry and the reset that follows it. */
  method MismatchThenReset() returns (page: PinSetupPage)
    ensures fresh(page) && page.Valid()
    ensures page.mode == Confirm && page.originalPin == Some("111111") && page.hasOnPinConfirm
    ensures page.pin == "" && page.error && !page.confirmed
  {
    page := new PinSetupPage(Confirm, Some("111111"), false, true);
    page.KeyPress("1");
    page.KeyPress("1");
    page.KeyPress("1");
    page.KeyPress("1");
    page.KeyPress("1");
    page.KeyPress("2");
    assert page.pin == "111112";
    page.FireReset();
  }

  /**
   * The timer that empties the PIN after a mismatch leaves `error` set,
   * so typing the right PIN next confirms it while the mismatch text is
   * still the one shown.
   */
  method MismatchTextOutlivesReset() returns (status: string, confirmedPin: bool)
    ensures status == MismatchMessage && confirmedPin
  {
    var page := MismatchThenReset();
    page.KeyPress("1");
    page.KeyPress("1");
    page.KeyPress("1");
    page.KeyPress("1");
    page.KeyPress("1");
    page.KeyPress("1");
    assert page.pin == "111111";
    status := StatusMessage(page.error, page.confirmed);
    confirmedPin := page.confirmed;
  }

  /**
   * Deleting the last digit after a match and typing it again queues a
   * second `onPinConfirm`: the parent is called twice.
   */
  method RetypeConfirmsTwice() returns (handed: seq<HostCall>)
    ensures handed == [PinConfirmed, PinConfirmed]
  {
    var page := new PinSetupPage(Confirm, Some("000000"), false, true);
    page.KeyPress("0");
    page.KeyPress("0");
    page.KeyPress("0");
    page.KeyPress("0");
    page.KeyPress("0");
    page.KeyPress("0");
    assert page.pin == "000000";
    page.Delete();
    assert page.pin == "00000";
    page.KeyPress("0");
    assert page.pin == "000000";
    page.FireConfirm();
    page.FireConfirm();
    handed := page.calls;
  }
}
