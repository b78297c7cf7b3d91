/**
 * The application shell: which screen is shown, the signed-in user's
 * session (number, name, PIN), the success notification and the data a
 * send-money screen was opened with. Every screen reports back through one
 * of the shell's handlers, and each handler is one update of this state.
 */
module App {
  import opened Wrappers

  /** The views the shell switches on, and `Other` for any further member of the view enumeration. */
  datatype View = Login | PinSetup | PinConfirm | Dashboard | SendMoney | PayQr | UssdPay | GoalDetails | Other(name: string)

  datatype Kind = SuccessKind | InfoKind

  datatype Notification = Notification(title: string, message: string, show: bool, kind: Kind)

  datatype SendMoneyData = SendMoneyData(amount: string, recipient: string)

  /** The page `renderView` mounts, with the props that carry session state. */
  datatype Screen =
    | LoginScreen
    | PinSetupScreen
    | PinConfirmScreen(originalPin: string)
    | DashboardScreen(userName: string, phoneNumber: string, originalPin: string)
    | SendMoneyScreen(originalPin: string, initialRecipient: Option<string>, initialAmount: Option<string>)
    | PayQrScreen(originalPin: string, userName: string, phoneNumber: string)
    | UssdScreen(originalPin: string)
    | GoalDetailsScreen

  /** The PIN a screen checks entries against, if it checks any. */
  function ScreenPin(s: Screen): Option<string> {
    match s
    case PinConfirmScreen(p) => Some(p)
    case DashboardScreen(_, _, p) => Some(p)
    case SendMoneyScreen(p, _, _) => Some(p)
    case PayQrScreen(p, _, _) => Some(p)
    case UssdScreen(p) => Some(p)
    case _ => None
  }

  /**
   * `renderView`: the screen for a view. Unknown views fall back to the
   * login screen, and every screen that checks a PIN is given the stored one.
   */
  function RenderView(view: View, phoneNumber: string, userName: string, pin: string,
                      sendMoneyData: Option<SendMoneyData>): (s: Screen)
    ensures s == LoginScreen <==> view == Login || view.Other?
    ensures ScreenPin(s).Some? <==> view in {PinConfirm, Dashboard, SendMoney, PayQr, UssdPay}
    ensures ScreenPin(s).Some? ==> ScreenPin(s) == Some(pin)
    ensures s.SendMoneyScreen? ==>
      s.initialRecipient == (if sendMoneyData.Some? then Some(sendMoneyData.value.recipient) else None)
      && s.initialAmount == (if sendMoneyData.Some? then Some(sendMoneyData.value.amount) else None)
    ensures s.PayQrScreen? || s.DashboardScreen? ==> s.userName == userName && s.phoneNumber == phoneNumber
  {
    match view
    case Login => LoginScreen
    case PinSetup => PinSetupScreen
    case PinConfirm => PinConfirmScreen(pin)
    case Dashboard => DashboardScreen(userName, phoneNumber, pin)
    case SendMoney =>
      SendMoneyScreen(pin,
        if sendMoneyData.Some? then Some(sendMoneyData.value.recipient) else None,
        if sendMoneyData.Some? then Some(sendMoneyData.value.amount) else None)
    case PayQr => PayQrScreen(pin, userName, phoneNumber)
    case UssdPay => UssdScreen(pin)
    case GoalDetails => GoalDetailsScreen
    case Other(_) => LoginScreen
  }

  const SuccessTitle := "Success!"
  const UssdMessage := "Payment Successful"

  /** The notification text after a transfer; `fmt` is the `en-IN` number formatting. */
  function SentMessage(fmt: string -> string, details: SendMoneyData): string {
    "Successfully sent ₹" + fmt(details.amount) + " to " + details.recipient
  }

  function QrMessage(fmt: string -> string, amount: string): string {
    "Payment of ₹" + fmt(amount) + " was successful"
  }

  /** A visible success notification with the given text. */
  function SuccessNotice(message: string): (n: Notification)
    ensures n.show && n.kind == SuccessKind && n.title == SuccessTitle && n.message == message
  {
    Notification(SuccessTitle, message, true, SuccessKind)
  }

  /** `prev ? { ...prev, show: false } : null` */
  function Hidden(n: Option<Notification>): (r: Option<Notification>)
    ensures r.None? <==> n.None?
    ensures r.Some? ==> !r.value.show
    ensures r.Some? ==> r.value.title == n.value.title && r.value.message == n.value.message && r.value.kind == n.value.kind
  {
    if n.Some? then Some(n.value.(show := false)) else None
  }

  class AppState {
    /** `toLocaleString('en-IN')` on the number a digit string denotes. */
    const fmt: string -> string

    var view: View
    var phoneNumber: string
    var userName: string
    var pin: string
    var notification: Option<Notification>
    var sendMoneyData: Option<SendMoneyData>

    /** Every notification the shell posts is a success notification. */
    ghost predicate Valid()
      reads this
    {
      notification.Some? ==> notification.value.title == SuccessTitle && notification.value.kind == SuccessKind
    }

    constructor(fmt: string -> string)
      ensures Valid()
      ensures this.fmt == fmt
      ensures view == Login && phoneNumber == "" && userName == "" && pin == ""
      ensures notification == None && sendMoneyData == None
    {
      this.fmt := fmt;
      view, phoneNumber, userName, pin := Login, "", "", "";
      notification, sendMoneyData := None, None;
    }

    /** The screen on display. */
    function CurrentScreen(): Screen
      reads this
    {
      RenderView(view, phoneNumber, userName, pin, sendMoneyData)
    }

    method HandleLoginSuccess(phone: string, name: string)
      requires Valid()
      modifies this
      ensures Valid()
      ensures phoneNumber == phone && userName == name && view == PinSetup
      ensures unchanged(this`pin, this`notification, this`sendMoneyData)
    {
      phoneNumber := phone;
      userName := name;
      view := PinSetup;
    }

    method HandlePinSet(newPin: string)
      requires Valid()
      modifies this
      ensures Valid()
      ensures pin == newPin && view == PinConfirm
      ensures unchanged(this`phoneNumber, this`userName, this`notification, this`sendMoneyData)
    {
      pin := newPin;
      view := PinConfirm;
    }

    method HandlePinConfirmSuccess()
      requires Valid()
      modifies this
      ensures Valid()
      ensures view == Dashboard
      ensures unchanged(this`phoneNumber, this`userName, this`pin, this`notification, this`sendMoneyData)
    {
      view := Dashboard;
    }

    /** Logging out forgets the session but leaves the notification and the send-money data as they were. */
    method HandleLogout()
      requires Valid()
      modifies this
      ensures Valid()
      ensures phoneNumber == "" && pin == "" && userName == "" && view == Login
      ensures unchanged(this`notification, this`sendMoneyData)
    {
      phoneNumber := "";
      pin := "";
      userName := "";
      view := Login;
    }

    /** `setSendMoneyData(data || null)`: the data if given, else nothing. */
    method HandleStartSendMoney(data: Option<SendMoneyData>)
      requires Valid()
      modifies this
      ensures Valid()
      ensures sendMoneyData == data && view == SendMoney
      ensures unchanged(this`phoneNumber, this`userName, this`pin, this`notification)
    {
      sendMoneyData := data;
      view := SendMoney;
    }

    method HandleStartPayQr()
      requires Valid()
      modifies this
      ensures Valid()
      ensures view == PayQr
      ensures unchanged(this`phoneNumber, this`userName, this`pin, this`notification, this`sendMoneyData)
    {
      view := PayQr;
    }

    method HandleStartUssdPay()
      requires Valid()
      modifies this
      ensures Valid()
      ensures view == UssdPay
      ensures unchanged(this`phoneNumber, this`userName, this`pin, this`notification, this`sendMoneyData)
    {
      view := UssdPay;
    }

    /** A completed transfer is announced; either way the dashboard returns and the data is dropped. */
    method HandleSendMoneyCompletion(details: Option<SendMoneyData>)
      requires Valid()
      modifies this
      ensures Valid()
      ensures details.Some? ==> notification == Some(SuccessNotice(SentMessage(fmt, details.value)))
      ensures details.None? ==> notification == old(notification)
      ensures view == Dashboard && sendMoneyData == None
      ensures unchanged(this`phoneNumber, this`userName, this`pin)
    {
      if details.Some? {
        notification := Some(SuccessNotice(SentMessage(fmt, details.value)));
      }
      view := Dashboard;
      sendMoneyData := None;
    }

    method HandlePayQrCompletion(amount: string)
      requires Valid()
      modifies this
      ensures Valid()
      ensures notification == Some(SuccessNotice(QrMessage(fmt, amount))) && view == Dashboard
      ensures unchanged(this`phoneNumber, this`userName, this`pin, this`sendMoneyData)
    {
      notification := Some(SuccessNotice(QrMessage(fmt, amount)));
      view := Dashboard;
    }

    method HandleUssdCompletion()
      requires Valid()
      modifies this
      ensures Valid()
      ensures notification == Some(SuccessNotice(UssdMessage)) && view == Dashboard
      ensures unchanged(this`phoneNumber, this`userName, this`pin, this`sendMoneyData)
    {
      notification := Some(SuccessNotice(UssdMessage));
      view := Dashboard;
    }

    method HandleCancelSendMoney()
      requires Valid()
      modifies this
      ensures Valid()
      ensures view == Dashboard && sendMoneyData == None
      ensures unchanged(this`phoneNumber, this`userName, this`pin, this`notification)
    {
      view := Dashboard;
      sendMoneyData := None;
    }

    method HandleCancelPayQr()
      requires Valid()
      modifies this
      ensures Valid()
      ensures view == Dashboard
      ensures unchanged(this`phoneNumber, this`userName, this`pin, this`notification, this`sendMoneyData)
    {
      view := Dashboard;
    }

    /** The USSD screen's back button. */
    method HandleCancelOfflinePay()
      requires Valid()
      modifies this
      ensures Valid()
      ensures view == Dashboard
      ensures unchanged(this`phoneNumber, this`userName, this`pin, this`notification, this`sendMoneyData)
    {
      view := Dashboard;
    }

    method HandleShowGoalDetails()
      requires Valid()
      modifies this
      ensures Valid()
      ensures view == GoalDetails
      ensures unchanged(this`phoneNumber, this`userName, this`pin, this`notification, this`sendMoneyData)
    {
      view := GoalDetails;
    }

    method HandleBackFromGoalDetails()
      requires Valid()
      modifies this
      ensures Valid()
      ensures view == Dashboard
      ensures unchanged(this`phoneNumber, this`userName, this`pin, this`notification, this`sendMoneyData)
    {
      view := Dashboard;
    }

    /** The notification's Done button: hide it, keep its text. */
    method HandleCloseNotification()
      requires Valid()
      modifies this
      ensures Valid()
      ensures notification == Hidden(old(notification))
      ensures unchanged(this`view, this`phoneNumber, this`userName, this`pin, this`sendMoneyData)
    {
      if notification.Some? {
        notification := Some(notification.value.(show := false));
      }
    }
  }

  /**
   * Signing up stores the number, the name and the PIN, and the dashboard
   * then checks entries against that PIN.
   */
  method SignUpReachesDashboard(fmt: string -> string, phone: string, name: string, newPin: string)
    returns (screen: Screen)
    ensures screen == DashboardScreen(name, phone, newPin)
  {
    var app := new AppState(fmt);
    app.HandleLoginSuccess(phone, name);
    app.HandlePinSet(newPin);
    app.HandlePinConfirmSuccess();
    screen := app.CurrentScreen();
  }

  /**
   * The announcement of a transfer, closed before logging out, stays in the
   * shell's state, hidden, after the logout.
   */
  method LogoutKeepsNotification(fmt: string -> string, details: SendMoneyData) returns (n: Option<Notification>, screen: Screen)
    ensures n.Some? && !n.value.show && n.value.message == SentMessage(fmt, details)
    ensures screen == LoginScreen
  {
    var app := new AppState(fmt);
    app.HandleStartSendMoney(Some(details));
    app.HandleSendMoneyCompletion(Some(details));
    app.HandleCloseNotification();
    app.HandleLogout();
    n := app.notification;
    screen := app.CurrentScreen();
  }
}
