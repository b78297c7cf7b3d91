/**
 * The dashboard's voice commands and its PIN gate in front of the balance:
 * a speech recognizer delivers a transcript or an error code, the transcript
 * is classified by substring, and the balance is shown only after the PIN
 * modal accepted the user's PIN.
 */
module Dashboard {
  import opened Text
  import Forms

  /** The host callbacks a voice command invokes: `onSendMoney()` (with no data) and `onPayQr()`. */
  datatype HostCall = SendMoney | PayQr

  /** The branch of `processCommand` a command takes. */
  datatype Command = CheckBalance | SendMoneyCommand | PayQrCommand | Unrecognized

  /** The transcript as the recognizer's result handler passes it on: lower-cased, then trimmed. */
  function Normalize(transcript: string): string {
    Trim(ToLower(transcript))
  }

  /** The `if`/`else if` chain of `processCommand`, with `includes` tests in their order. */
  function Classify(command: string): Command {
    if Contains(command, "check balance") || Contains(command, "show balance") then CheckBalance
    else if Contains(command, "send money") then SendMoneyCommand
    else if Contains(command, "hey qr") || Contains(command, "pay qr") then PayQrCommand
    else Unrecognized
  }

  /** `phrase` occurs somewhere in `command`. */
  predicate Mentions(command: string, phrase: string) {
    exists k :: 0 <= k <= |command| && StartsWith(command[k..], phrase)
  }

  /**
   * The balance phrases win over "send money", which wins over the QR
   * phrases; a command that mentions none of them is unrecognized.
   */
  lemma ClassifyByMentions(command: string)
    ensures Classify(command) == CheckBalance <==>
      Mentions(command, "check balance") || Mentions(command, "show balance")
    ensures Classify(command) == SendMoneyCommand <==>
      !Mentions(command, "check balance") && !Mentions(command, "show balance") && Mentions(command, "send money")
    ensures Classify(command) == PayQrCommand <==>
      !Mentions(command, "check balance") && !Mentions(command, "show balance") && !Mentions(command, "send money")
      && (Mentions(command, "hey qr") || Mentions(command, "pay qr"))
    ensures Classify(command) == Unrecognized <==>
      !Mentions(command, "check balance") && !Mentions(command, "show balance") && !Mentions(command, "send money")
      && !Mentions(command, "hey qr") && !Mentions(command, "pay qr")
  {
    ContainsIffOccurs(command, "check balance");
    ContainsIffOccurs(command, "show balance");
    ContainsIffOccurs(command, "send money");
    ContainsIffOccurs(command, "hey qr");
    ContainsIffOccurs(command, "pay qr");
  }

  /** Lower-casing a string without upper-case ASCII letters changes nothing. */
  lemma {:induction false} ToLowerOfLower(s: string)
    requires forall i :: 0 <= i < |s| ==> !IsUpperAscii(s[i])
    ensures ToLower(s) == s
  {
    if s != [] {
      ToLowerOfLower(s[1..]);
    }
  }

  /** Lower-casing distributes over concatenation. */
  lemma ToLowerAppend(a: string, b: string)
    ensures ToLower(a + b) == ToLower(a) + ToLower(b)
  {
    assert forall i :: 0 <= i < |a + b| ==> ToLower(a + b)[i] == (ToLower(a) + ToLower(b))[i];
  }

  /** Trimming a string without upper-case ASCII letters leaves none. */
  lemma NoUpperAfterTrim(s: string)
    requires forall i :: 0 <= i < |s| ==> !IsUpperAscii(s[i])
    ensures forall i :: 0 <= i < |Trim(s)| ==> !IsUpperAscii(Trim(s)[i])
  {
    var t := TrimStart(s);
    assert forall i :: 0 <= i < |t| ==> !IsUpperAscii(t[i]) by {
      assert t == s[|s| - |t|..];
    }
    var r := TrimEnd(t);
    assert forall i :: 0 <= i < |r| ==> !IsUpperAscii(r[i]) by {
      assert r == t[..|r|];
    }
    assert Trim(s) == r;
  }

  /** Normalizing a normalized transcript changes nothing. */
  lemma NormalizeIdempotent(transcript: string)
    ensures Normalize(Normalize(transcript)) == Normalize(transcript)
  {
    var u := ToLower(transcript);
    ToLowerIdempotent(transcript);
    NoUpperAfterTrim(u);
    ToLowerOfLower(Trim(u));
    TrimIdempotent(u);
  }

  /** White space around a transcript and the case of its ASCII letters do not change the command. */
  lemma NormalizeIgnoresPaddingAndCase(w1: string, transcript: string, w2: string)
    requires AllWhiteSpace(w1) && AllWhiteSpace(w2)
    ensures Normalize(w1 + transcript + w2) == Normalize(transcript)
    ensures Normalize(ToLower(transcript)) == Normalize(transcript)
  {
    ToLowerAppend(w1 + transcript, w2);
    ToLowerAppend(w1, transcript);
    assert ToLower(w1) == w1 by {
      WhiteSpaceIsNotUpper(w1);
      ToLowerOfLower(w1);
    }
    assert ToLower(w2) == w2 by {
      WhiteSpaceIsNotUpper(w2);
      ToLowerOfLower(w2);
    }
    TrimIgnoresSurroundingWhiteSpace(w1, ToLower(transcript), w2);
    ToLowerIdempotent(transcript);
  }

  /** The messages `onerror` shows. */
  const DidNotHear := "I didn't hear anything. Please try again."
  const MicrophoneDenied := "Microphone access was denied."
  const GenericError := "An error occurred. Please try again."

  /** The message shown when `start()` throws. */
  const AlreadyActive := "Voice recognition is already active."

  /** The message shown for a transcript that matches no command. */
  function NotUnderstood(command: string): string {
    "Sorry, I didn't understand \"" + command + "\"."
  }

  /** The message for a recognition error code. */
  function RecognitionErrorMessage(code: string): (m: string)
    ensures m == DidNotHear <==> code == "no-speech" || code == "audio-capture"
    ensures m == MicrophoneDenied <==> code == "not-allowed"
    ensures m == GenericError <==> code != "no-speech" && code != "audio-capture" && code != "not-allowed"
  {
    if code == "no-speech" || code == "audio-capture" then DidNotHear
    else if code == "not-allowed" then MicrophoneDenied
    else GenericError
  }

  /** The hint the voice modal shows while it listens. */
  const ListeningHint := "Try 'Send Money' or 'Check Balance'."

  /**
   * The heading and text of the voice modal for a given `voiceError`: the
   * heading is "Oops!" exactly when there is an error, the text is the error
   * itself or else the hint, and the modal never shows an empty text.
   */
  function VoiceModal(error: string): (r: (string, string))
    ensures r.0 == "Oops!" <==> error != ""
    ensures r.0 == "Listening..." <==> error == ""
    ensures error != "" ==> r.1 == error
    ensures error == "" ==> r.1 == ListeningHint
    ensures r.1 != ""
  {
    if error != "" then ("Oops!", error) else ("Listening...", ListeningHint)
  }

  /** Whatever the error code, the voice modal shows "Oops!" and a non-empty message. */
  lemma ErrorAlwaysShown(code: string)
    ensures VoiceModal(RecognitionErrorMessage(code)).0 == "Oops!"
    ensures VoiceModal(RecognitionErrorMessage(code)).1 != ""
  {
  }

  class DashboardPage {
    const originalPin: string
    /** Whether the browser offers a speech recognizer (`recognitionRef.current` is set). */
    const hasRecognizer: bool

    var showPinModal: bool
    var showBalanceModal: bool
    var pinInput: string
    var pinError: string
    var isListening: bool
    var voiceError: string
    /** Queued `setTimeout(() => setIsListening(false), 2500)` callbacks. */
    var pendingStops: nat

    /** The host callbacks invoked so far, in order. */
    var calls: seq<HostCall>
    /** Whether the PIN modal has ever accepted the user's PIN. */
    ghost var pinAccepted: bool

    /** The PIN field holds at most six digits, and the balance is shown only after the PIN was accepted. */
    ghost predicate Valid()
      reads this
    {
      IsDigits(pinInput) && |pinInput| <= Forms.PinLength && (showBalanceModal ==> pinAccepted)
    }

    constructor(originalPin: string, hasRecognizer: bool)
      ensures Valid()
      ensures this.originalPin == originalPin && this.hasRecognizer == hasRecognizer
      ensures !showPinModal && !showBalanceModal && pinInput == "" && pinError == ""
      ensures !isListening && voiceError == "" && pendingStops == 0
      ensures calls == [] && !pinAccepted
    {
      this.originalPin := originalPin;
      this.hasRecognizer := hasRecognizer;
      showPinModal, showBalanceModal := false, false;
      pinInput, pinError := "", "";
      isListening, voiceError, pendingStops := false, "", 0;
      calls, pinAccepted := [], false;
    }

    /** `handleRequestBalance`: open the PIN modal with an empty field and no error. */
    method RequestBalance()
      requires Valid()
      modifies this
      ensures Valid()
      ensures showPinModal && pinInput == "" && pinError == ""
      ensures unchanged(this`showBalanceModal, this`isListening, this`voiceError, this`pendingStops)
      ensures unchanged(this`calls, this`pinAccepted)
    {
      pinInput := "";
      pinError := "";
      showPinModal := true;
    }

    /** `processCommand`: at most one action per command; only an unrecognized one leaves the modal open for a while. */
    method ProcessCommand(command: string)
      requires Valid()
      modifies this
      ensures Valid()
      ensures Classify(command) == CheckBalance ==>
        showPinModal && pinInput == "" && pinError == "" && calls == old(calls)
      ensures Classify(command) == SendMoneyCommand ==>
        calls == old(calls) + [SendMoney] && unchanged(this`showPinModal, this`pinInput, this`pinError)
      ensures Classify(command) == PayQrCommand ==>
        calls == old(calls) + [PayQr] && unchanged(this`showPinModal, this`pinInput, this`pinError)
      ensures Classify(command) != Unrecognized ==>
        !isListening && unchanged(this`voiceError, this`pendingStops)
      ensures Classify(command) == Unrecognized ==>
        && voiceError == NotUnderstood(command) && pendingStops == old(pendingStops) + 1
        && unchanged(this`isListening, this`showPinModal, this`pinInput, this`pinError, this`calls)
      ensures unchanged(this`showBalanceModal, this`pinAccepted)
    {
      var c := Classify(command);
      if c == CheckBalance {
        RequestBalance();
      } else if c == SendMoneyCommand {
        calls := calls + [SendMoney];
      } else if c == PayQrCommand {
        calls := calls + [PayQr];
      }
      if c == Unrecognized {
        voiceError := NotUnderstood(command);
        pendingStops := pendingStops + 1;
      } else {
        isListening := false;
      }
    }

    /** `recognition.onresult`: classify the lower-cased, trimmed transcript. */
    method OnResult(transcript: string)
      requires Valid()
      modifies this
      ensures Valid()
      ensures Classify(Normalize(transcript)) == CheckBalance ==>
        showPinModal && pinInput == "" && pinError == "" && calls == old(calls)
      ensures Classify(Normalize(transcript)) == SendMoneyCommand ==>
        calls == old(calls) + [SendMoney] && unchanged(this`showPinModal, this`pinInput, this`pinError)
      ensures Classify(Normalize(transcript)) == PayQrCommand ==>
        calls == old(calls) + [PayQr] && unchanged(this`showPinModal, this`pinInput, this`pinError)
      ensures Classify(Normalize(transcript)) != Unrecognized ==>
        !isListening && unchanged(this`voiceError, this`pendingStops)
      ensures Classify(Normalize(transcript)) == Unrecognized ==>
        && voiceError == NotUnderstood(Normalize(transcript)) && pendingStops == old(pendingStops) + 1
        && unchanged(this`isListening, this`showPinModal, this`pinInput, this`pinError, this`calls)
      ensures unchanged(this`showBalanceModal, this`pinAccepted)
    {
      ProcessCommand(Normalize(transcript));
    }

    /** `recognition.onerror`: show the message for the code and queue closing the modal. */
    method OnError(code: string)
      requires Valid()
      modifies this
      ensures Valid()
      ensures voiceError == RecognitionErrorMessage(code) && pendingStops == old(pendingStops) + 1
      ensures unchanged(this`isListening, this`showPinModal, this`showBalanceModal, this`pinInput, this`pinError)
      ensures unchanged(this`calls, this`pinAccepted)
    {
      voiceError := RecognitionErrorMessage(code);
      pendingStops := pendingStops + 1;
    }

    /**
     * `handleStartListening`; `startThrows` says whether the recognizer's
     * `start()` throws. Without a recognizer only an alert is shown.
     */
    method StartListening(startThrows: bool)
      requires Valid()
      modifies this
      ensures Valid()
      ensures hasRecognizer ==> isListening
      ensures hasRecognizer && !startThrows ==> voiceError == "" && pendingStops == old(pendingStops)
      ensures hasRecognizer && startThrows ==> voiceError == AlreadyActive && pendingStops == old(pendingStops) + 1
      ensures !hasRecognizer ==> unchanged(this`isListening, this`voiceError, this`pendingStops)
      ensures unchanged(this`showPinModal, this`showBalanceModal, this`pinInput, this`pinError)
      ensures unchanged(this`calls, this`pinAccepted)
    {
      if hasRecognizer {
        voiceError := "";
        isListening := true;
        if startThrows {
          voiceError := AlreadyActive;
          pendingStops := pendingStops + 1;
        }
      }
    }

    /** One queued `setIsListening(false)` callback runs. */
    method FireStop()
      requires Valid() && pendingStops > 0
      modifies this
      ensures Valid()
      ensures !isListening && pendingStops == old(pendingStops) - 1
      ensures unchanged(this`voiceError, this`showPinModal, this`showBalanceModal, this`pinInput, this`pinError)
      ensures unchanged(this`calls, this`pinAccepted)
    {
      isListening := false;
      pendingStops := pendingStops - 1;
    }

    /** The voice modal's `onClose`: it hides the modal but does not stop the recognizer. */
    method CloseVoiceModal()
      requires Valid()
      modifies this
      ensures Valid()
      ensures !isListening
      ensures unchanged(this`voiceError, this`pendingStops, this`showPinModal, this`showBalanceModal)
      ensures unchanged(this`pinInput, this`pinError, this`calls, this`pinAccepted)
    {
      isListening := false;
    }

    /** The PIN field's `onChange`; `raw` is what the field holds, at most its `maxLength` of 6. */
    method ChangePinInput(raw: string)
      requires Valid() && |raw| <= Forms.PinLength
      modifies this
      ensures Valid()
      ensures pinInput == KeepDigits(raw) && pinError == ""
      ensures unchanged(this`showPinModal, this`showBalanceModal, this`isListening, this`voiceError)
      ensures unchanged(this`pendingStops, this`calls, this`pinAccepted)
    {
      pinInput := KeepDigits(raw);
      if pinError != "" {
        pinError := "";
      }
    }

    /** `disabled={pinInput.length !== 6}`: the Verify button is enabled only with exactly six digits entered. */
    predicate VerifyEnabled()
      reads this
    {
      |pinInput| == Forms.PinLength
    }

    /**
     * `handlePinVerify`, reachable only through the enabled Verify button:
     * the right PIN swaps the PIN modal for the balance; a wrong one shows
     * an error.
     */
    method VerifyPin()
      requires Valid() && VerifyEnabled()
      modifies this
      ensures Valid()
      ensures old(pinInput) == originalPin ==>
        !showPinModal && showBalanceModal && pinAccepted && pinError == old(pinError)
      ensures old(pinInput) != originalPin ==>
        pinError == Forms.IncorrectPin && unchanged(this`showPinModal, this`showBalanceModal, this`pinAccepted)
      ensures pinInput == ""
      ensures unchanged(this`isListening, this`voiceError, this`pendingStops, this`calls)
    {
      if pinInput == originalPin {
        showPinModal := false;
        showBalanceModal := true;
        pinAccepted := true;
      } else {
        pinError := Forms.IncorrectPin;
      }
      pinInput := "";
    }

    /** The PIN modal's close button. */
    method ClosePinModal()
      requires Valid()
      modifies this
      ensures Valid()
      ensures !showPinModal
      ensures unchanged(this`showBalanceModal, this`pinInput, this`pinError, this`isListening)
      ensures unchanged(this`voiceError, this`pendingStops, this`calls, this`pinAccepted)
    {
      showPinModal := false;
    }

    /** The balance modal's Done button. */
    method CloseBalanceModal()
      requires Valid()
      modifies this
      ensures Valid()
      ensures !showBalanceModal
      ensures unchanged(this`showPinModal, this`pinInput, this`pinError, this`isListening)
      ensures unchanged(this`voiceError, this`pendingStops, this`calls, this`pinAccepted)
    {
      showBalanceModal := false;
    }
  }

  /**
   * Closing the voice modal does not stop recognition: a result that
   * arrives afterwards still sends the user to the send-money screen.
   */
  method ResultAfterCloseStillActs(transcript: string) returns (sent: bool)
    requires Mentions(Normalize(transcript), "send money")
    requires !Mentions(Normalize(transcript), "check balance") && !Mentions(Normalize(transcript), "show balance")
    ensures sent
  {
    var page := new DashboardPage("123456", true);
    page.StartListening(false);
    page.CloseVoiceModal();
    ClassifyByMentions(Normalize(transcript));
    page.OnResult(transcript);
    sent := page.calls == [SendMoney];
  }

  /**
   * A stop queued by an earlier error still runs after the user closed the
   * modal and started a new session, and closes the new session's modal.
   */
  method StaleStopEndsNewSession() returns (listening: bool)
    ensures !listening
  {
    var page := new DashboardPage("123456", true);
    page.StartListening(false);
    page.OnError("no-speech");
    page.CloseVoiceModal();
    page.StartListening(false);
    assert page.isListening && page.voiceError == "";
    page.FireStop();
    listening := page.isListening;
  }
}
