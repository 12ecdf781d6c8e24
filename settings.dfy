/** The settings modal (packages/electron-app/src/ui/components/toolbar/settingsModal.tsx):
    the form fields, the record saved from them, and the three-state
    "connect to cloud" status driven by the account info and the connect
    button. The login flow itself, storage and notifications are not part of
    this model; the notification a handler shows is returned as a value. */
module Settings {
  import opened Wrappers

  datatype ConnectStatus = NotConnected | Waiting | Connected

  /** The settings as the application stores them; any field may be missing. */
  datatype StoredSettings = StoredSettings(backendEndPoint: Option<string>, frontendEndPoint: Option<string>,
                                           autoDetectActions: Option<bool>, enableMouseTracker: Option<bool>)

  /** The settings record `saveAction` builds. */
  datatype AppSettings = AppSettings(backendEndPoint: string, frontendEndPoint: string,
                                     autoDetectActions: bool, enableMouseTracker: bool)

  /** The logged-in user's account info. */
  datatype AccountInfo = AccountInfo(name: string)

  /** What pressing the connect button does. */
  datatype ConnectOutcome = LoginStarted | AlreadyConnected(name: string) | StillWaiting

  /** The label shown for each status, before " to cloud". */
  function ConnectWord(status: ConnectStatus): (w: string)
    ensures w in {"Connected", "Connecting", "Connect"}
  {
    match status
    case Connected => "Connected"
    case Waiting => "Connecting"
    case NotConnected => "Connect"
  }

  /** The status a label stands for. */
  function StatusOfWord(w: string): Option<ConnectStatus> {
    if w == "Connected" then Some(Connected)
    else if w == "Connecting" then Some(Waiting)
    else if w == "Connect" then Some(NotConnected)
    else None
  }

  /** The labels tell the three states apart. */
  lemma ConnectWordDistinguishes(status: ConnectStatus)
    ensures StatusOfWord(ConnectWord(status)) == Some(status)
  {
  }

  /** The status the account info alone gives. */
  function StatusForAccount(account: Option<AccountInfo>): (s: ConnectStatus)
    ensures s == Connected <==> account.Some?
    ensures s != Waiting
  {
    if account.Some? then Connected else NotConnected
  }

  /** The form's starting values: each missing field becomes "" or false. */
  function InitialForm(stored: StoredSettings): (f: AppSettings)
    ensures stored.backendEndPoint.Some? ==> f.backendEndPoint == stored.backendEndPoint.value
    ensures stored.backendEndPoint.None? ==> f.backendEndPoint == ""
    ensures stored.frontendEndPoint.Some? ==> f.frontendEndPoint == stored.frontendEndPoint.value
    ensures stored.frontendEndPoint.None? ==> f.frontendEndPoint == ""
    ensures f.autoDetectActions <==> stored.autoDetectActions == Some(true)
    ensures f.enableMouseTracker <==> stored.enableMouseTracker == Some(true)
  {
    AppSettings(stored.backendEndPoint.GetOr(""), stored.frontendEndPoint.GetOr(""),
                stored.autoDetectActions.GetOr(false), stored.enableMouseTracker.GetOr(false))
  }

  class SettingsModal {
    var backendEndPoint: string
    var frontendEndPoint: string
    var autoDetectActions: bool
    var enableMouseTracker: bool
    var account: Option<AccountInfo>
    var status: ConnectStatus

    /** The status reads CONNECTED exactly when account info is present. */
    ghost predicate Valid()
      reads this
    {
      status == Connected <==> account.Some?
    }

    constructor (stored: StoredSettings, account: Option<AccountInfo>)
      ensures Valid()
      ensures AppSettings(backendEndPoint, frontendEndPoint, autoDetectActions, enableMouseTracker) == InitialForm(stored)
      ensures this.account == account && status == StatusForAccount(account)
    {
      var form := InitialForm(stored);
      backendEndPoint := form.backendEndPoint;
      frontendEndPoint := form.frontendEndPoint;
      autoDetectActions := form.autoDetectActions;
      enableMouseTracker := form.enableMouseTracker;
      this.account := account;
      status := StatusForAccount(account);
    }

    /** The effect on account info: the status is reset from the account
        info, overriding WAITING. */
    method AccountInfoChanged(info: Option<AccountInfo>)
      requires Valid()
      modifies this`account, this`status
      ensures Valid()
      ensures account == info && status == StatusForAccount(info)
      ensures status == StatusAfter(old(status), AccountSet(info))
    {
      account := info;
      status := StatusForAccount(info);
    }

    /** `handleConnectToCloud`: from NOT_CONNECTED it starts the login and
        moves to WAITING; from the other states it only reports. */
    method HandleConnectToCloud() returns (outcome: ConnectOutcome)
      requires Valid()
      modifies this`status
      ensures Valid()
      ensures old(status) == NotConnected ==> status == Waiting && outcome == LoginStarted
      ensures old(status) == Connected ==> status == Connected && outcome == AlreadyConnected(account.value.name)
      ensures old(status) == Waiting ==> status == Waiting && outcome == StillWaiting
      ensures status == StatusAfter(old(status), ConnectPressed)
    {
      if status == NotConnected {
        status := Waiting;
        outcome := LoginStarted;
      } else if status == Connected {
        outcome := AlreadyConnected(account.value.name);
      } else {
        outcome := StillWaiting;
      }
    }

    method SetBackendEndPoint(value: string)
      modifies this`backendEndPoint
      ensures backendEndPoint == value
    {
      backendEndPoint := value;
    }

    method SetFrontendEndPoint(value: string)
      modifies this`frontendEndPoint
      ensures frontendEndPoint == value
    {
      frontendEndPoint := value;
    }

    method SetAutoDetectActions(value: bool)
      modifies this`autoDetectActions
      ensures autoDetectActions == value
    {
      autoDetectActions := value;
    }

    method SetEnableMouseTracker(value: bool)
      modifies this`enableMouseTracker
      ensures enableMouseTracker == value
    {
      enableMouseTracker := value;
    }

    /** `saveAction`: the record saved holds exactly the four form fields. */
    method SaveAction() returns (saved: AppSettings)
      ensures saved.backendEndPoint == backendEndPoint && saved.frontendEndPoint == frontendEndPoint
      ensures saved.autoDetectActions == autoDetectActions && saved.enableMouseTracker == enableMouseTracker
    {
      saved := AppSettings(backendEndPoint, frontendEndPoint, autoDetectActions, enableMouseTracker);
    }
  }

  /** The status machine as a function of a sequence of events, for
      reasoning across several of them. */
  datatype StatusEvent = AccountSet(info: Option<AccountInfo>) | ConnectPressed

  /** The status after one event: a change of account info resets it from
      the info; a connect press only moves NOT_CONNECTED to WAITING. */
  function StatusAfter(status: ConnectStatus, e: StatusEvent): (r: ConnectStatus)
    ensures e.AccountSet? ==> (r == Connected <==> e.info.Some?) && r != Waiting
    ensures e.ConnectPressed? ==> (r.Waiting? <==> !status.Connected?)
    ensures e.ConnectPressed? && status != NotConnected ==> r == status
  {
    match e
    case AccountSet(info) => StatusForAccount(info)
    case ConnectPressed => if status == NotConnected then Waiting else status
  }

  function StatusAfterAll(status: ConnectStatus, events: seq<StatusEvent>): ConnectStatus
    decreases |events|
  {
    if events == [] then status else StatusAfterAll(StatusAfter(status, events[0]), events[1..])
  }

  /** The account present after a sequence of events. */
  function AccountAfterAll(account: Option<AccountInfo>, events: seq<StatusEvent>): Option<AccountInfo>
    decreases |events|
  {
    if events == [] then account
    else AccountAfterAll(if events[0].AccountSet? then events[0].info else account, events[1..])
  }

  /** Every sequence of events keeps the status CONNECTED exactly when
      account info is present. */
  lemma {:induction false} StatusTracksAccount(status: ConnectStatus, account: Option<AccountInfo>, events: seq<StatusEvent>)
    requires status == Connected <==> account.Some?
    ensures StatusAfterAll(status, events) == Connected <==> AccountAfterAll(account, events).Some?
    decreases |events|
  {
    if events != [] {
      StatusTracksAccount(StatusAfter(status, events[0]),
                          if events[0].AccountSet? then events[0].info else account, events[1..]);
    }
  }

  /** Pressing connect while not connected leads to WAITING, and pressing
      it again does not leave WAITING. */
  lemma {:induction false} ConnectLeadsToWaiting(events: seq<StatusEvent>)
    requires forall i :: 0 <= i < |events| ==> events[i] == ConnectPressed
    ensures StatusAfterAll(NotConnected, [ConnectPressed] + events) == Waiting
  {
    var s := [ConnectPressed] + events;
    assert s[1..] == events;
    WaitingIgnoresConnect(events);
  }

  lemma {:induction false} WaitingIgnoresConnect(events: seq<StatusEvent>)
    requires forall i :: 0 <= i < |events| ==> events[i] == ConnectPressed
    ensures StatusAfterAll(Waiting, events) == Waiting
    decreases |events|
  {
    if events != [] {
      WaitingIgnoresConnect(events[1..]);
    }
  }
}
