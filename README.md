# offPay screens and session shell, modelled in Dafny

offPay is a React payment app for phones. This project models its
screen logic:

- the sign-in guard;
- the six-digit PIN keypad used to create and then confirm a PIN;
- the dashboard's voice commands and the PIN gate in front of the balance;
- the four payment screens: send money, a USSD dial pad with its form, a
  prepared SMS, and a UPI request shown as a QR code;
- the application shell. It decides which screen is mounted and keeps the
  session: phone number, name, PIN, the success notification and the data
  a send-money screen was opened with.

Each screen is a `class`. Its fields are the component's state variables,
and each event handler is one method. The callbacks a screen hands to its
parent (`onSend`, `onPay`, `onPinSet`, `onLoginSuccess`, …) are appended to a
`calls` log, so "called exactly once" and "never called" are statements
about that log. Each `setTimeout` is a counter of queued callbacks, and a
`Fire…` method runs one of them.

The pure parts are functions and lemmas:

- the JavaScript string operations the screens use:
  - `replace(/[^0-9]/g, '')`
  - `trim()`, with the ECMAScript white-space set
  - `toLowerCase()` on ASCII
  - `includes`
  - `parseFloat(x) > 0` on digit strings
  - `encodeURIComponent`, with its UTF-8 percent-encoding and upper-case hex,
    partnered by a percent-decoder (section 2.1 of RFC 3986);
- the voice-command classifier;
- the SMS message and link builders;
- the UPI/QR URL builder;
- the view-to-screen switch of the shell.

Modules, one per source file plus shared pieces:

- `Wrappers` (Option)
- `Text` (digits, amounts, trim, case, substrings)
- `Uri` (encodeURIComponent and its decoder)
- `Forms` (the validity test shared by the send-money, USSD and SMS forms)
- `Dashboard`, `PinSetup`, `Ussd`, `SendMoney`, `Sms`, `PayQr`, `Login`, `App`

The dashboard lower-cases and trims the transcript and tests it for fixed
phrases with `includes`; `Dashboard.Classify` models that.

Two reference definitions have no counterpart in the code:
`Sms.SplitAtSpace` and `Sms.ParseBody`. They are the inverse of the message
template at `components/SmsPage.tsx:34`. `Sms.ParseMessageBody` and
`Sms.IsPaymentLink` use them to state what a prepared message determines.

Scenario methods (for example `PinSetup.MismatchTextOutlivesReset`,
`PinSetup.RetypeConfirmsTwice` and `Dashboard.StaleStopEndsNewSession`)
drive a page through a sequence of events and state the outcome. Each one
records a behaviour of the code as written that a user may find surprising:

- After a mismatch on the confirm screen, the timed reset empties the PIN
  but leaves `error` set. A correct second attempt is then confirmed while
  the mismatch text is still shown.
- Deleting the last digit after a match and typing it again calls
  `onPinConfirm` twice.
- A close queued by an earlier recognition error also closes a session
  the user starts after closing the modal.

## Model

| member | source | states |
|---|---|---|
| Text.KeepDigits | components/SendMoneyPage.tsx:38-41 | what `replace(/[^0-9]/g, '')` leaves is digits only and no longer than the input |
| Text.KeepDigitsFixpoint | components/SendMoneyPage.tsx:72 | the digit filter leaves a string unchanged exactly when it is already all digits |
| Text.KeepDigitsKeepsLengthIff | components/LoginPage.tsx:58 | the filter keeps the length exactly when every character is a digit |
| Text.KeepDigitsIdempotent | components/PayQrPage.tsx:54-57 | filtering twice is filtering once |
| Text.KeepDigitsAppend | components/UssdPage.tsx:85-88 | the filter distributes over concatenation |
| Text.IsPositiveAmount | components/SendMoneyPage.tsx:24 | `parseFloat(amount) > 0` on a digit string as a positive decimal value (the definition; `Text.PositiveIffNonzeroDigit` states its meaning) |
| Text.PositiveIffNonzeroDigit | components/SendMoneyPage.tsx:24 | `parseFloat(amount) > 0` on a digit string holds exactly when some digit is not '0' (so it fails on the empty string) |
| Text.Trim | components/LoginPage.tsx:14 | the result of `trim()` neither starts nor ends with white space |
| Text.TrimIsSlice | components/LoginPage.tsx:14 | `trim()` is a slice of its input with only white space cut off at either end |
| Text.TrimAllWhiteSpace | components/LoginPage.tsx:14 | a string made only of white space trims to the empty string |
| Text.TrimIdempotent | components/LoginPage.tsx:14-15 | trimming a trimmed string changes nothing |
| Text.TrimIgnoresSurroundingWhiteSpace | components/LoginPage.tsx:14 | white space added at either end does not change the trimmed string |
| Text.ToLower | components/DashboardPage.tsx:265 | `toLowerCase()` keeps the length and maps each character by the ASCII case mapping |
| Text.ToLowerIdempotent | components/DashboardPage.tsx:265 | the lower-cased string has no upper-case letter, and lower-casing it again changes nothing |
| Text.Contains | components/DashboardPage.tsx:285-291 | `includes` as a scan over the start positions (the definition; `Text.ContainsIffOccurs` states its meaning) |
| Text.ContainsIffOccurs | components/DashboardPage.tsx:285-294 | `includes` holds exactly when the phrase starts at some position of the string |
| Text.ContainsExtend | components/DashboardPage.tsx:285 | a phrase contained in a string is contained in any extension of it |
| Uri.EncodeURIComponent | components/SmsPage.tsx:38 | every character of the encoding is an unreserved character or '%', and it is at least as long as the input |
| Uri.EncodeAppend | components/PayQrPage.tsx:28-32 | encoding distributes over concatenation |
| Uri.EncodeUnreserved | components/SmsPage.tsx:38 | letters, digits and `-_.!~*'()` are left as they are |
| Uri.EncodeSpace | components/SmsPage.tsx:38 | a space encodes as `%20` |
| Uri.DecodeFirstEncodeChar | components/SmsPage.tsx:38 | the escapes of one character, whatever follows them, decode to that character and are consumed whole |
| Uri.DecodeEncode | components/PayQrPage.tsx:33-36 | percent-decoding the encoding of any string gives that string back |
| Uri.EncodeInjective | components/PayQrPage.tsx:31 | two different strings never encode alike |
| Forms.RecipientFormValid | components/UssdPage.tsx:73 | the shared `isFormValid` test (the definition; `Forms.RecipientFormValidIff` states it field by field) |
| Forms.RecipientFormValidIff | components/UssdPage.tsx:73 | `isFormValid` holds exactly for a 10-character recipient, a 6-character PIN and an amount with a nonzero digit |
| Forms.ZeroAmountInvalid | components/SendMoneyPage.tsx:24 | an empty or all-zero amount never makes the form valid |
| Dashboard.Normalize | components/DashboardPage.tsx:265 | `toLowerCase().trim()` on the transcript (the definition; `Dashboard.NormalizeIdempotent` and `Dashboard.NormalizeIgnoresPaddingAndCase` state its properties) |
| Dashboard.Classify | components/DashboardPage.tsx:283-302 | the `if`/`else if` chain of `processCommand` (the definition; `Dashboard.ClassifyByMentions` states each branch as an iff) |
| Dashboard.ClassifyByMentions | components/DashboardPage.tsx:283-302 | a balance phrase wins over "send money", which wins over the QR phrases, and a command with none of them is unrecognized; each branch holds exactly when its phrases occur |
| Dashboard.NormalizeIdempotent | components/DashboardPage.tsx:265 | lower-casing and trimming an already normalized transcript changes nothing |
| Dashboard.NormalizeIgnoresPaddingAndCase | components/DashboardPage.tsx:265 | white space around the transcript and the case of its ASCII letters do not change the command |
| Dashboard.RecognitionErrorMessage | components/DashboardPage.tsx:269-278 | 'no-speech' and 'audio-capture' give the did-not-hear text, 'not-allowed' gives the microphone text, every other code the generic text, each in both directions |
| Dashboard.VoiceModal | components/DashboardPage.tsx:218-226 | the heading is "Oops!" exactly when there is an error and "Listening..." exactly when there is none; the text is the error, or else the hint "Try 'Send Money' or 'Check Balance'.", and is never empty |
| Dashboard.ErrorAlwaysShown | components/DashboardPage.tsx:270-278 | every recognition error code leads to "Oops!" and a non-empty message |
| Dashboard.DashboardPage.constructor | components/DashboardPage.tsx:234-239 | both modals closed, empty PIN field and error, not listening, no voice error, nothing queued and no host call |
| Dashboard.DashboardPage.RequestBalance | components/DashboardPage.tsx:245-249 | the PIN modal opens with an empty field and no error; nothing else changes |
| Dashboard.DashboardPage.ProcessCommand | components/DashboardPage.tsx:283-302 | a balance command opens the PIN modal; "send money" and the QR phrases each append their one host call; a recognized command clears `isListening` at once; an unrecognized one sets the not-understood text and queues one close |
| Dashboard.DashboardPage.OnResult | components/DashboardPage.tsx:264-267 | the normalized transcript is processed with every outcome of `processCommand`: a balance command opens the PIN modal with an empty field and no error; "send money" and the QR phrases each append their one host call and leave the PIN modal alone; a recognized command clears `isListening` and leaves the voice error and the queue alone; an unrecognized one sets the not-understood text and queues one close; the balance modal never changes |
| Dashboard.DashboardPage.OnError | components/DashboardPage.tsx:269-278 | the mapped message is shown and exactly one close is queued, whatever the code |
| Dashboard.DashboardPage.StartListening | components/DashboardPage.tsx:304-317 | with a recognizer the error is cleared and listening starts, and a throwing `start()` shows the already-active text and queues a close; without one nothing changes |
| Dashboard.DashboardPage.FireStop | components/DashboardPage.tsx:277 | a queued close clears `isListening` and nothing else |
| Dashboard.DashboardPage.CloseVoiceModal | components/DashboardPage.tsx:356 | closing the voice modal only clears `isListening` |
| Dashboard.DashboardPage.ChangePinInput | components/DashboardPage.tsx:373-376 | the PIN field keeps only digits and any error is cleared |
| Dashboard.DashboardPage.VerifyEnabled | components/DashboardPage.tsx:387 | the Verify button is enabled exactly with six characters in the field (required by `Dashboard.DashboardPage.VerifyPin`) |
| Dashboard.DashboardPage.VerifyPin | components/DashboardPage.tsx:320-328 | reachable only with the Verify button enabled; the right PIN swaps the PIN modal for the balance modal; a wrong one sets the error and leaves both modals; the field is empty afterwards; the balance is never shown without an accepted PIN |
| Dashboard.DashboardPage.ClosePinModal | components/DashboardPage.tsx:334-336 | only the PIN modal is closed |
| Dashboard.DashboardPage.CloseBalanceModal | components/DashboardPage.tsx:330-332 | only the balance modal is closed |
| Dashboard.ResultAfterCloseStillActs | components/DashboardPage.tsx:356 | a "send money" result that arrives after the modal was closed still calls `onSendMoney` |
| Dashboard.StaleStopEndsNewSession | components/DashboardPage.tsx:304-311 | a close queued by an error ends a session the user starts after closing the modal |
| PinSetup.EnabledKeysAreDigits | components/PinSetupPage.tsx:27 | the keys the user can press are exactly the ten one-digit strings |
| PinSetup.StatusMessage | components/PinSetupPage.tsx:86-91 | the mismatch text exactly when `error`, the success text exactly when `confirmed` without error, else empty |
| PinSetup.PinSetupPage.constructor | components/PinSetupPage.tsx:52-54 | an empty PIN, no error, not confirmed, no queued callback and no host call |
| PinSetup.PinSetupPage.KeyPress | components/PinSetupPage.tsx:59-84 | a digit is appended only below six; the sixth digit calls `onPinSet` with exactly the PIN in setup mode, confirms and queues `onPinConfirm` on a match, and sets `error` and queues a reset on a mismatch; the PIN stays at most six digits |
| PinSetup.PinSetupPage.Delete | components/PinSetupPage.tsx:65-68 | the error is cleared and the last digit dropped; an empty PIN stays empty |
| PinSetup.PinSetupPage.FireConfirm | components/PinSetupPage.tsx:77 | a queued confirmation calls `onPinConfirm` once |
| PinSetup.PinSetupPage.FireReset | components/PinSetupPage.tsx:80 | a queued reset empties the PIN and leaves `error` as it was |
| PinSetup.SetupHandsOverPin | components/PinSetupPage.tsx:59-73 | for any six digits typed key by key in setup mode, `onPinSet` is called once with exactly those digits, and any further key is ignored |
| PinSetup.MismatchTextOutlivesReset | components/PinSetupPage.tsx:77-91 | after a mismatch and its reset, the right PIN confirms while the mismatch text is shown |
| PinSetup.RetypeConfirmsTwice | components/PinSetupPage.tsx:65-77 | deleting and retyping the last digit after a match calls `onPinConfirm` twice |
| Ussd.DialKeysAreDialChars | components/UssdPage.tsx:11 | the dial keys are exactly the one-character strings over `0-9 * #`, so the buffer holds nothing else |
| Ussd.UssdPage.constructor | components/UssdPage.tsx:45-53 | the dial pad with an empty buffer and no spinner, empty form fields and error, nothing queued and no host call |
| Ussd.UssdPage.KeyPress | components/UssdPage.tsx:55-57 | the key is appended to the buffer and nothing else changes |
| Ussd.UssdPage.Delete | components/UssdPage.tsx:59-61 | the last character is dropped; an empty buffer stays empty |
| Ussd.UssdPage.DialEnabled | components/UssdPage.tsx:117 | the Call button is enabled exactly when the buffer is `*99#` |
| Ussd.UssdPage.Dial | components/UssdPage.tsx:63-71 | exactly when the Call button is enabled (the buffer is `*99#`) the spinner starts and the switch to the form is queued; otherwise nothing changes |
| Ussd.UssdPage.FireDial | components/UssdPage.tsx:66-69 | the queued callback stops the spinner and shows the form; the step never goes back |
| Ussd.UssdPage.ChangeRecipient | components/UssdPage.tsx:160 | the recipient keeps only the digits |
| Ussd.UssdPage.ChangeAmount | components/UssdPage.tsx:85-88 | the amount keeps only the digits |
| Ussd.UssdPage.ChangePin | components/UssdPage.tsx:90-95 | the PIN keeps only the digits and any error is cleared |
| Ussd.UssdPage.Send | components/UssdPage.tsx:75-83 | nothing on an invalid form, the error text on a wrong PIN, otherwise `onSuccess` exactly once; `onSuccess` is only ever reached from the form |
| Ussd.UssdPage.Cancel | components/UssdPage.tsx:100 | the back button calls `onCancel` |
| Ussd.DialCodeOpensForm | components/UssdPage.tsx:63-71 | dialling `*99#` and letting the timer run shows the form without a spinner |
| Ussd.OtherCodeDoesNothing | components/UssdPage.tsx:63-71 | for any buffer other than `*99#` typed key by key, the Call button is disabled and dialling queues nothing |
| SendMoney.SendMoneyPage.constructor | components/SendMoneyPage.tsx:18-22 | all fields start empty; initial values from the parent are not read |
| SendMoney.SendMoneyPage.ChangeRecipient | components/SendMoneyPage.tsx:72 | the recipient keeps only the digits |
| SendMoney.SendMoneyPage.ChangeAmount | components/SendMoneyPage.tsx:38-41 | the amount keeps only the digits |
| SendMoney.SendMoneyPage.ChangePin | components/SendMoneyPage.tsx:43-48 | the PIN keeps only the digits and any error is cleared |
| SendMoney.SendMoneyPage.Send | components/SendMoneyPage.tsx:26-36 | nothing on an invalid form, the error text on a wrong PIN, otherwise `onSend` once with the raw digit strings; every transfer handed over has a ten-digit recipient and a positive amount |
| SendMoney.SendMoneyPage.Cancel | components/SendMoneyPage.tsx:53 | the back button calls `onCancel` |
| SendMoney.ZeroAmountSendsNothing | components/SendMoneyPage.tsx:24-27 | for any recipient and PIN, an empty or all-zero amount makes Send hand over nothing, even when the PIN typed is the stored one |
| SendMoney.RightPinSendsRawDigits | components/SendMoneyPage.tsx:26-35 | for any ten-digit recipient, amount with a nonzero digit and six-digit PIN equal to the stored one, Send calls `onSend` once with exactly the typed digit strings |
| Sms.MessageBody | components/SmsPage.tsx:34 | the template `PAY <recipient> <amount> <pin>` (the definition; `Sms.ParseMessageBody` is its inverse on digit fields) |
| Sms.SmsHref | components/SmsPage.tsx:38 | `sms:5551234?body=` and the encoded message (the definition; `Sms.HrefDecodesToBody` is its round trip) |
| Sms.HrefOfDigitFields | components/SmsPage.tsx:33-38 | for digit fields the link is `sms:5551234?body=PAY%20<recipient>%20<amount>%20<pin>` |
| Sms.HrefDecodesToBody | components/SmsPage.tsx:38 | the body parameter of every link the page builds decodes back to the message |
| Sms.ParseMessageBody | components/SmsPage.tsx:34 | digit fields come back out of the message unchanged, so the message determines recipient, amount and PIN |
| Sms.ValidFormGivesPaymentLink | components/SmsPage.tsx:22-38 | every link built from a valid form decodes to a message for a ten-digit recipient, a positive amount and six PIN digits |
| Sms.SmsPage.constructor | components/SmsPage.tsx:17-20 | empty fields, no error and no host call |
| Sms.SmsPage.ChangeRecipient | components/SmsPage.tsx:85 | the recipient keeps only the digits |
| Sms.SmsPage.ChangeAmount | components/SmsPage.tsx:47-50 | the amount keeps only the digits |
| Sms.SmsPage.ChangePin | components/SmsPage.tsx:52-57 | the PIN keeps only the digits and any error is cleared |
| Sms.SmsPage.Proceed | components/SmsPage.tsx:24-45 | nothing on an invalid form, the error text and no link on a wrong PIN, otherwise the prepared link is opened and `onCancel` is called exactly once; every link opened is a payment link |
| Sms.SmsPage.Cancel | components/SmsPage.tsx:62 | the back button calls `onCancel` |
| PayQr.AmountParam | components/PayQrPage.tsx:30 | the optional `&am=` parameter (the definition; `PayQr.AmountParamIff` states when it appears) |
| PayQr.UpiString | components/PayQrPage.tsx:28-32 | the UPI request for the user's number, encoded name and amount (the definition; `PayQr.QrDataRecoversUpi` states what the QR URL carries) |
| PayQr.QrCodeUrl | components/PayQrPage.tsx:33-36 | the QR image URL (the definition; `PayQr.QrDataRecoversUpi` states that its data parameter decodes to the request) |
| PayQr.AmountParamIff | components/PayQrPage.tsx:30 | `&am=<amount>` appears exactly when some digit is not '0', and nothing appears for an empty or all-zero amount |
| PayQr.QrDataRecoversUpi | components/PayQrPage.tsx:28-36 | the QR URL is the service prefix, the encoded UPI request and the size suffix; the encoded request holds no '&' and decodes back to the request |
| PayQr.NameCannotAddParameters | components/PayQrPage.tsx:31 | the encoded user name holds neither '&' nor '=' and decodes back to the name |
| PayQr.PayQrPage.constructor | components/PayQrPage.tsx:21-38 | the page opens empty with the URL for an empty amount |
| PayQr.PayQrPage.ChangeAmount | components/PayQrPage.tsx:26-38 | the amount keeps only the digits and the URL is rebuilt from amount, name and number alone |
| PayQr.PayQrPage.ChangePin | components/PayQrPage.tsx:59-64 | the PIN keeps only the digits and any error is cleared |
| PayQr.PayQrPage.Pay | components/PayQrPage.tsx:43-52 | nothing on an invalid form, the error text on a wrong PIN, otherwise `onPay` once with the raw amount; every amount paid is positive |
| PayQr.PayQrPage.Cancel | components/PayQrPage.tsx:69 | the back button calls `onCancel` |
| PayQr.ClearedAmountRestoresUrl | components/PayQrPage.tsx:26-38 | clearing the amount again gives back the URL the page opened with |
| Login.Submission | components/LoginPage.tsx:12-17 | there is a submission exactly when the trimmed name is non-empty and the number has at least 10 characters; it carries the number unchanged and a name with no white space at either end |
| Login.SignedInNumberWasTypedAsDigits | components/LoginPage.tsx:58-63 | with the 10-character field, a number that signs in was typed as exactly ten digits |
| Login.BlankNameRejected | components/LoginPage.tsx:14 | a name made only of white space never signs in |
| Login.PaddingDoesNotMatter | components/LoginPage.tsx:14-15 | white space around the name does not change what is handed over |
| Login.LoginPage.constructor | components/LoginPage.tsx:9-10 | empty name and number, and no host call |
| Login.LoginPage.ChangeName | components/LoginPage.tsx:38 | the name is kept as typed |
| Login.LoginPage.ChangePhoneNumber | components/LoginPage.tsx:58 | the number keeps only the digits |
| Login.LoginPage.ContinueDisabled | components/LoginPage.tsx:71 | the button is disabled exactly when submitting would do nothing |
| Login.LoginPage.Submit | components/LoginPage.tsx:12-17 | `onLoginSuccess` with the number and the trimmed name exactly when there is a submission, else nothing; every sign-in carries ten digits |
| Login.ShortNumberDoesNotSignIn | components/LoginPage.tsx:14 | whatever the name, a number typed in fewer than ten characters, digits or not, does not sign in |
| App.RenderView | App.tsx:119-146 | the login screen exactly for the login view and unknown views; the PIN-checking screens get the stored PIN; the send-money data, name and number are passed on |
| App.SuccessNotice | App.tsx:61-66 | a visible success notification with the given text |
| App.Hidden | App.tsx:114-116 | closing hides the notification and keeps its title, message and kind; no notification stays none |
| App.AppState.constructor | App.tsx:15-20 | the login view, an empty session, no notification and no send-money data |
| App.AppState.HandleLoginSuccess | App.tsx:22-26 | the number and name are stored and the PIN setup screen follows |
| App.AppState.HandlePinSet | App.tsx:28-31 | the PIN is stored and the confirm screen follows |
| App.AppState.HandlePinConfirmSuccess | App.tsx:33-36 | the dashboard follows; nothing else changes |
| App.AppState.HandleLogout | App.tsx:38-43 | number, PIN and name are emptied and the login view follows; notification and send-money data are untouched |
| App.AppState.HandleStartSendMoney | App.tsx:45-48 | the data given, or none, is stored and the send-money view follows |
| App.AppState.HandleStartPayQr | App.tsx:50-52 | only the view changes, to pay-by-QR |
| App.AppState.HandleStartUssdPay | App.tsx:54-56 | only the view changes, to USSD |
| App.AppState.HandleSendMoneyCompletion | App.tsx:58-70 | with details a visible success notification names the formatted amount and the recipient, without them the notification is unchanged; the dashboard follows and the send-money data is dropped |
| App.AppState.HandlePayQrCompletion | App.tsx:72-81 | a visible success notification with the formatted amount, and the dashboard |
| App.AppState.HandleUssdCompletion | App.tsx:83-91 | a visible "Payment Successful" notification, and the dashboard |
| App.AppState.HandleCancelSendMoney | App.tsx:93-96 | the dashboard follows and the send-money data is dropped |
| App.AppState.HandleCancelPayQr | App.tsx:98-100 | the dashboard follows; nothing else changes |
| App.AppState.HandleCancelOfflinePay | App.tsx:102-104 | the dashboard follows; nothing else changes |
| App.AppState.HandleShowGoalDetails | App.tsx:106-108 | only the view changes, to goal details |
| App.AppState.HandleBackFromGoalDetails | App.tsx:110-112 | the dashboard follows; nothing else changes |
| App.AppState.HandleCloseNotification | App.tsx:114-116 | the notification is hidden with its text kept, and nothing else changes |
| App.SignUpReachesDashboard | App.tsx:22-36 | sign-in, PIN set and PIN confirm lead to a dashboard that checks entries against the new PIN |
| App.LogoutKeepsNotification | App.tsx:38-43 | a transfer's notification, closed before logging out, is still in the state, hidden, after the logout, and the login screen shows |

## Left out

- The browser speech recognizer itself, including its `'en-US'` language setting. Its results and errors are events: `OnResult(transcript)` and `OnError(code)`. Whether `start()` throws is a parameter of `StartListening`. The alert shown when there is no recognizer is not modelled.
- Real time in the timers (2500 ms, 1500 ms, 1000 ms). A model timer is a count of queued callbacks and a method that runs one; the callbacks may run in any order the caller chooses.
- `toLocaleString('en-IN')` and `Number(...)` in the notification texts and in the pages' currency display. `App.AppState.fmt` is an uninterpreted function from the amount string to its display.
- `toLowerCase` on letters outside ASCII: `Text.ToLower` only maps `A`-`Z`. JavaScript also lower-cases, for example, U+212A KELVIN SIGN to `k`, so "chec\u212A balance" is a balance command in the code and `Unrecognized` in the model.
- Lone surrogates in JavaScript strings (on which `encodeURIComponent` throws): a Dafny `char` is always a Unicode scalar value.
- The inputs' `maxLength`. The browser enforces it, so the change handlers require the new field value to be within it.
- Dashboard.DashboardPage.ProcessCommand: the click event that the quick-action buttons pass to `onSendMoney` is not modelled, and the voice command's `onSendMoney()` carries no data.
- The dashboard's `onLogout`, `onUssdPay` and `onShowGoalDetails` buttons. They call the parent's handler directly; those handlers are the `App.AppState` methods.
- The money-management donut chart (floating-point geometry), the history and goal-details pages (static data, dates, float amounts), JSX layout and styles.
- Creating and clicking the `sms:` link element, and the alerts. `Sms.SmsPage.Proceed` records the opened link as a host call.
- Fetching the QR image from the external service.
- Whether the two `PinSetupPage` renders in `App.tsx:123-131` share component state. Each model page starts from fresh state.
- The render between a change of the QR amount and the effect that rebuilds the URL. `PayQr.PayQrPage.ChangeAmount` runs the handler and the effect as one step. The same holds at mount: the first render has an empty `qrCodeUrl` and no image (components/PayQrPage.tsx:24, :78), while `PayQr.PayQrPage.constructor` starts with the URL the mount effect builds.
- `SmsPage` is not mounted by the shell's `renderView`; it is modelled as a page on its own.
- The `AppView` enumeration is not part of this model. Any member besides the eight that `renderView` names is `App.View.Other`.
