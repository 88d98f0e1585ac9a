/**
 * Google sign-in through a popup window: the trusted message origins, the
 * classification of the messages the popup posts back, the wait that settles at
 * most once and tears its timers and listener down, and the final result.
 */
module PopupOAuth {
  import opened Wrappers
  import opened Json

  /** Caller options; `None` is an omitted field. */
  datatype PopupOptions = PopupOptions(width: Option<real>, height: Option<real>, timeout: Option<real>)

  datatype PopupConfig = PopupConfig(width: real, height: real, timeout: real)

  const DefaultConfig: PopupConfig := PopupConfig(500.0, 600.0, 300000.0)

  /** `{...DEFAULT_OPTIONS, ...options}`: each given field overrides its default. */
  function Configure(options: PopupOptions): (c: PopupConfig)
    ensures c.width == (if options.width.Some? then options.width.value else DefaultConfig.width)
    ensures c.height == (if options.height.Some? then options.height.value else DefaultConfig.height)
    ensures c.timeout == (if options.timeout.Some? then options.timeout.value else DefaultConfig.timeout)
  {
    PopupConfig(
      options.width.GetOr(DefaultConfig.width),
      options.height.GetOr(DefaultConfig.height),
      options.timeout.GetOr(DefaultConfig.timeout))
  }

  /** The popup's left (or top) edge: centred on the opener window along that axis. */
  function PopupOffset(screenStart: real, outerSize: real, size: real): (r: real)
    ensures r + size / 2.0 == screenStart + outerSize / 2.0
  {
    screenStart + (outerSize - size) / 2.0
  }

  const TrustedOrigin: string := "https://gfazeresume.faze.pro"

  /** Messages are trusted only from the page's own origin and the production origin. */
  predicate IsValidOrigin(ownOrigin: string, origin: string): (b: bool)
    ensures b <==> origin == ownOrigin || origin == "https://gfazeresume.faze.pro"
  {
    origin in {ownOrigin, TrustedOrigin}
  }

  const CancelledMessage: string := "Authentication was cancelled by the user"
  const TwoFactorMessage: string :=
    "Two-factor authentication is required. Please complete authentication in the main window."
  const InvalidResponseMessage: string := "Authentication failed - invalid response"
  const FailedMessage: string := "Authentication failed"
  const TimeoutMessage: string := "Authentication timeout"
  const BlockedMessage: string := "Popup blocked. Please allow popups for this site and try again."

  /** The result handed back to the caller; a failure's `error` is whatever the popup or the service supplied. */
  datatype AuthResult = Succeeded(user: Json) | Failed(error: Json)

  /** What one message does to the wait: nothing, or settle it with a result. */
  datatype Reaction = Ignore | Settle(result: AuthResult)

  /** `handleMessage`'s decision for a message from `origin` carrying `data`. */
  function Classify(ownOrigin: string, origin: string, data: Json): (r: Reaction)
    ensures !IsValidOrigin(ownOrigin, origin) ==> r == Ignore
    ensures r.Settle? <==>
      IsValidOrigin(ownOrigin, origin) && Get(data, "type") in {JStr("OAUTH_SUCCESS"), JStr("OAUTH_ERROR")}
    ensures r.Settle? && r.result.Succeeded? <==>
      && IsValidOrigin(ownOrigin, origin)
      && Get(data, "type") == JStr("OAUTH_SUCCESS")
      && Get(Get(data, "data"), "status") == JStr("authenticated")
      && Truthy(Get(Get(data, "data"), "user"))
    ensures r.Settle? && r.result.Succeeded? ==> r.result.user == Get(Get(data, "data"), "user")
  {
    if !IsValidOrigin(ownOrigin, origin) then Ignore
    else if Get(data, "type") == JStr("OAUTH_SUCCESS") then
      var authData := Get(data, "data");
      if Get(authData, "status") == JStr("authenticated") && Truthy(Get(authData, "user")) then
        Settle(Succeeded(Get(authData, "user")))
      else if Get(authData, "status") == JStr("2fa_required") then Settle(Failed(JStr(TwoFactorMessage)))
      else Settle(Failed(JStr(InvalidResponseMessage)))
    else if Get(data, "type") == JStr("OAUTH_ERROR") then
      var error := Get(data, "error");
      Settle(Failed(if error.JUndefined? || error.JNull? then JStr(FailedMessage) else error))
    else Ignore
  }

  /** A success message without the authenticated status, or without a user, never signs anyone in. */
  lemma SuccessNeedsUser(ownOrigin: string, origin: string, data: Json)
    requires IsValidOrigin(ownOrigin, origin) && Get(data, "type") == JStr("OAUTH_SUCCESS")
    ensures Get(Get(data, "data"), "status") == JStr("2fa_required")
      ==> Classify(ownOrigin, origin, data) == Settle(Failed(JStr(TwoFactorMessage)))
    ensures Get(Get(data, "data"), "status") != JStr("2fa_required") && !Classify(ownOrigin, origin, data).result.Succeeded?
      ==> Classify(ownOrigin, origin, data) == Settle(Failed(JStr(InvalidResponseMessage)))
  {
  }

  /** An error message settles with its own `error`, whatever its type, unless that is null or undefined. */
  lemma ErrorKeepsProviderText(ownOrigin: string, origin: string, data: Json)
    requires IsValidOrigin(ownOrigin, origin) && Get(data, "type") == JStr("OAUTH_ERROR")
    ensures Get(data, "error").JUndefined? || Get(data, "error").JNull? ==>
      Classify(ownOrigin, origin, data) == Settle(Failed(JStr(FailedMessage)))
    ensures !(Get(data, "error").JUndefined? || Get(data, "error").JNull?) ==>
      Classify(ownOrigin, origin, data) == Settle(Failed(Get(data, "error")))
  {
  }

  /** How the wait ends: resolved with a result, or rejected by the timeout. */
  datatype WaitOutcome = Resolved(result: AuthResult) | Rejected(message: string)

  /**
   * `waitForAuthResult` for one popup. The timeout, the one-second close check and
   * the message listener are live until the first settlement; `cleanup` clears all
   * three and closes the popup if it is still open.
   */
  class AuthWait {
    const ownOrigin: string
    var outcome: Option<WaitOutcome>
    var timerActive: bool
    var intervalActive: bool
    var listening: bool
    var popupClosed: bool

    /** Pending means every handle is live; settled means every handle is gone and the popup is closed. */
    predicate Valid()
      reads this
    {
      && (outcome.None? ==> timerActive && intervalActive && listening)
      && (outcome.Some? ==> !timerActive && !intervalActive && !listening && popupClosed)
    }

    constructor (ownOrigin: string)
      ensures this.ownOrigin == ownOrigin
      ensures outcome == None && !popupClosed
      ensures Valid()
    {
      this.ownOrigin := ownOrigin;
      outcome := None;
      timerActive := true;
      intervalActive := true;
      listening := true;
      popupClosed := false;
    }

    /** `cleanup` followed by settling the promise. */
    method Finish(result: WaitOutcome)
      modifies this
      requires outcome.None?
      ensures outcome == Some(result)
      ensures !timerActive && !intervalActive && !listening && popupClosed
    {
      timerActive := false;
      intervalActive := false;
      listening := false;
      if !popupClosed {
        popupClosed := true;
      }
      outcome := Some(result);
    }

    /** A message event. Once settled, the listener is gone and nothing happens. */
    method OnMessage(origin: string, data: Json)
      modifies this
      requires Valid()
      ensures Valid()
      ensures old(outcome).Some? ==> outcome == old(outcome) && popupClosed == old(popupClosed)
      ensures old(outcome).None? && Classify(ownOrigin, origin, data).Ignore? ==>
        outcome == None && popupClosed == old(popupClosed)
      ensures old(outcome).None? && Classify(ownOrigin, origin, data).Settle? ==>
        outcome == Some(Resolved(Classify(ownOrigin, origin, data).result))
    {
      if !listening {
        return;
      }
      var reaction := Classify(ownOrigin, origin, data);
      if reaction.Settle? {
        Finish(Resolved(reaction.result));
      }
    }

    /** The user closes the popup; only the next close check notices. */
    method UserClosesPopup()
      modifies this
      requires Valid()
      ensures Valid()
      ensures popupClosed && outcome == old(outcome)
    {
      popupClosed := true;
    }

    /** The one-second close check: a closed popup cancels the sign-in. */
    method OnCloseCheck()
      modifies this
      requires Valid()
      ensures Valid()
      ensures old(outcome).Some? ==> outcome == old(outcome)
      ensures old(outcome).None? && old(popupClosed) ==> outcome == Some(Resolved(Failed(JStr(CancelledMessage))))
      ensures old(outcome).None? && !old(popupClosed) ==> outcome == None && !popupClosed
    {
      if !intervalActive {
        return;
      }
      if popupClosed {
        Finish(Resolved(Failed(JStr(CancelledMessage))));
      }
    }

    /** The timeout fires: the wait is rejected. */
    method OnTimeout()
      modifies this
      requires Valid()
      ensures Valid()
      ensures old(outcome).Some? ==> outcome == old(outcome)
      ensures old(outcome).None? ==> outcome == Some(Rejected(TimeoutMessage))
    {
      if !timerActive {
        return;
      }
      Finish(Rejected(TimeoutMessage));
    }
  }

  /**
   * `authenticateWithGoogle` once its wait is over: a popup that did not open fails
   * at once; a rejection becomes a failure carrying the rejection's message.
   */
  function Authenticate(popupOpened: bool, waited: WaitOutcome): (r: AuthResult)
    ensures !popupOpened ==> r == Failed(JStr(BlockedMessage))
    ensures popupOpened && waited.Resolved? ==> r == waited.result
    ensures popupOpened && waited.Rejected? ==> r == Failed(JStr(waited.message))
  {
    if !popupOpened then Failed(JStr(BlockedMessage))
    else match waited
      case Resolved(result) => result
      case Rejected(message) => Failed(JStr(message))
  }

  /** Only a trusted success message with a user signs in; the popup's failure paths never do. */
  lemma SignInNeedsTrustedSuccess(ownOrigin: string, origin: string, data: Json, popupOpened: bool)
    requires Classify(ownOrigin, origin, data).Settle?
    requires Authenticate(popupOpened, Resolved(Classify(ownOrigin, origin, data).result)).Succeeded?
    ensures popupOpened && IsValidOrigin(ownOrigin, origin)
    ensures Get(data, "type") == JStr("OAUTH_SUCCESS")
    ensures Authenticate(popupOpened, Resolved(Classify(ownOrigin, origin, data).result)).user
         == Get(Get(data, "data"), "user")
  {
  }

  /** A timeout never signs in: it becomes the timeout failure. */
  lemma TimeoutFails()
    ensures Authenticate(true, Rejected(TimeoutMessage)) == Failed(JStr(TimeoutMessage))
  {
  }

  /** Sign-in goes through the popup inside an iframe or on the production host. */
  predicate ShouldUsePopupMode(inIframe: bool, hostname: string) {
    inIframe || hostname == "gfazeresume.faze.pro"
  }
}
