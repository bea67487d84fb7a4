/**
 * The W3C error table of w3c/exceptions.kt: the 26 error codes of the
 * error-code table in section 6.6 of W3C WebDriver (Level 1), each with its
 * HTTP status and its wire string, in the enum's declaration order.
 */
module W3CTable {
  import opened Options

  datatype W3CError =
    | ElementClickIntercepted
    | ElementNotInteractable
    | InsecureCertificate
    | InvalidArgument
    | InvalidCookieDomain
    | InvalidElementState
    | InvalidSelector
    | InvalidSessionId
    | JavascriptError
    | MoveTargetOutOfBounds
    | NoSuchAlert
    | NoSuchCookie
    | NoSuchElement
    | NoSuchFrame
    | NoSuchWindow
    | ScriptTimeoutError
    | SessionNotCreated
    | StaleElementReference
    | Timeout
    | UnableToSetCookie
    | UnableToCaptureScreen
    | UnexpectedAlertOpen
    | UnknownCommand
    | UnknownError
    | UnknownMethod
    | UnsupportedOperation
  {
    /** The HTTP status the remote end sends with this error. */
    function HttpCode(): int {
      match this
      case ElementClickIntercepted => 400
      case ElementNotInteractable => 400
      case InsecureCertificate => 400
      case InvalidArgument => 400
      case InvalidCookieDomain => 400
      case InvalidElementState => 400
      case InvalidSelector => 400
      case InvalidSessionId => 404
      case JavascriptError => 500
      case MoveTargetOutOfBounds => 500
      case NoSuchAlert => 404
      case NoSuchCookie => 404
      case NoSuchElement => 404
      case NoSuchFrame => 404
      case NoSuchWindow => 404
      case ScriptTimeoutError => 500
      case SessionNotCreated => 500
      case StaleElementReference => 404
      case Timeout => 500
      case UnableToSetCookie => 500
      case UnableToCaptureScreen => 500
      case UnexpectedAlertOpen => 500
      case UnknownCommand => 404
      case UnknownError => 500
      case UnknownMethod => 405
      case UnsupportedOperation => 500
    }

    /** The JSON `error` string of this error. */
    function Wire(): string {
      match this
      case ElementClickIntercepted => "element click intercepted"
      case ElementNotInteractable => "element not interactable"
      case InsecureCertificate => "insecure certificate"
      case InvalidArgument => "invalid argument"
      case InvalidCookieDomain => "invalid cookie domain"
      case InvalidElementState => "invalid element state"
      case InvalidSelector => "invalid selector"
      case InvalidSessionId => "invalid session id"
      case JavascriptError => "javascript error"
      case MoveTargetOutOfBounds => "move target out of bounds"
      case NoSuchAlert => "no such alert"
      case NoSuchCookie => "no such cookie"
      case NoSuchElement => "no such element"
      case NoSuchFrame => "no such frame"
      case NoSuchWindow => "no such window"
      case ScriptTimeoutError => "script timeout"
      case SessionNotCreated => "session not created"
      case StaleElementReference => "stale element reference"
      case Timeout => "timeout"
      case UnableToSetCookie => "unable to set cookie"
      case UnableToCaptureScreen => "unable to capture screen"
      case UnexpectedAlertOpen => "unexpected alert open"
      case UnknownCommand => "unknown command"
      case UnknownError => "unknown error"
      case UnknownMethod => "unknown method"
      case UnsupportedOperation => "unsupported operation"
    }

    /** The enum constant's name, which is what its toString gives. */
    function Name(): string {
      match this
      case ElementClickIntercepted => "ELEMENT_CLICK_INTERCEPTED"
      case ElementNotInteractable => "ELEMENT_NOT_INTERACTABLE"
      case InsecureCertificate => "INSECURE_CERTIFICATE"
      case InvalidArgument => "INVALID_ARGUMENT"
      case InvalidCookieDomain => "INVALID_COOKIE_DOMAIN"
      case InvalidElementState => "INVALID_ELEMENT_STATE"
      case InvalidSelector => "INVALID_SELECTOR"
      case InvalidSessionId => "INVALID_SESSION_ID"
      case JavascriptError => "JAVASCRIPT_ERROR"
      case MoveTargetOutOfBounds => "MOVE_TARGET_OUT_OF_BOUNDS"
      case NoSuchAlert => "NO_SUCH_ALERT"
      case NoSuchCookie => "NO_SUCH_COOKIE"
      case NoSuchElement => "NO_SUCH_ELEMENT"
      case NoSuchFrame => "NO_SUCH_FRAME"
      case NoSuchWindow => "NO_SUCH_WINDOW"
      case ScriptTimeoutError => "SCRIPT_TIMEOUT_ERROR"
      case SessionNotCreated => "SESSION_NOT_CREATED"
      case StaleElementReference => "STALE_ELEMENT_REFERENCE"
      case Timeout => "TIMEOUT"
      case UnableToSetCookie => "UNABLE_TO_SET_COOKIE"
      case UnableToCaptureScreen => "UNABLE_TO_CAPTURE_SCREEN"
      case UnexpectedAlertOpen => "UNEXPECTED_ALERT_OPEN"
      case UnknownCommand => "UNKNOWN_COMMAND"
      case UnknownError => "UNKNOWN_ERROR"
      case UnknownMethod => "UNKNOWN_METHOD"
      case UnsupportedOperation => "UNSUPPORTED_OPERATION"
    }

    /** The constant's position in declaration order (Kotlin's `ordinal`). */
    function Ordinal(): nat {
      match this
      case ElementClickIntercepted => 0
      case ElementNotInteractable => 1
      case InsecureCertificate => 2
      case InvalidArgument => 3
      case InvalidCookieDomain => 4
      case InvalidElementState => 5
      case InvalidSelector => 6
      case InvalidSessionId => 7
      case JavascriptError => 8
      case MoveTargetOutOfBounds => 9
      case NoSuchAlert => 10
      case NoSuchCookie => 11
      case NoSuchElement => 12
      case NoSuchFrame => 13
      case NoSuchWindow => 14
      case ScriptTimeoutError => 15
      case SessionNotCreated => 16
      case StaleElementReference => 17
      case Timeout => 18
      case UnableToSetCookie => 19
      case UnableToCaptureScreen => 20
      case UnexpectedAlertOpen => 21
      case UnknownCommand => 22
      case UnknownError => 23
      case UnknownMethod => 24
      case UnsupportedOperation => 25
    }
  }

  /** `W3CError.values()`: every constant, in declaration order. */
  const Values: seq<W3CError> := [
      ElementClickIntercepted,
      ElementNotInteractable,
      InsecureCertificate,
      InvalidArgument,
      InvalidCookieDomain,
      InvalidElementState,
      InvalidSelector,
      InvalidSessionId,
      JavascriptError,
      MoveTargetOutOfBounds,
      NoSuchAlert,
      NoSuchCookie,
      NoSuchElement,
      NoSuchFrame,
      NoSuchWindow,
      ScriptTimeoutError,
      SessionNotCreated,
      StaleElementReference,
      Timeout,
      UnableToSetCookie,
      UnableToCaptureScreen,
      UnexpectedAlertOpen,
      UnknownCommand,
      UnknownError,
      UnknownMethod,
      UnsupportedOperation
    ]

  /** The entry whose wire string is `s`, if any (looked up by length first): the inverse of Wire. */
  function FromWire(s: string): (r: Option<W3CError>) {
    match |s|
    case 7 =>
      if s == "timeout" then Some(Timeout)
      else None
    case 13 =>
      if s == "no such alert" then Some(NoSuchAlert)
      else if s == "no such frame" then Some(NoSuchFrame)
      else if s == "unknown error" then Some(UnknownError)
      else None
    case 14 =>
      if s == "no such cookie" then Some(NoSuchCookie)
      else if s == "no such window" then Some(NoSuchWindow)
      else if s == "script timeout" then Some(ScriptTimeoutError)
      else if s == "unknown method" then Some(UnknownMethod)
      else None
    case 15 =>
      if s == "no such element" then Some(NoSuchElement)
      else if s == "unknown command" then Some(UnknownCommand)
      else None
    case 16 =>
      if s == "invalid argument" then Some(InvalidArgument)
      else if s == "invalid selector" then Some(InvalidSelector)
      else if s == "javascript error" then Some(JavascriptError)
      else None
    case 18 =>
      if s == "invalid session id" then Some(InvalidSessionId)
      else None
    case 19 =>
      if s == "session not created" then Some(SessionNotCreated)
      else None
    case 20 =>
      if s == "insecure certificate" then Some(InsecureCertificate)
      else if s == "unable to set cookie" then Some(UnableToSetCookie)
      else None
    case 21 =>
      if s == "invalid cookie domain" then Some(InvalidCookieDomain)
      else if s == "invalid element state" then Some(InvalidElementState)
      else if s == "unexpected alert open" then Some(UnexpectedAlertOpen)
      else if s == "unsupported operation" then Some(UnsupportedOperation)
      else None
    case 23 =>
      if s == "stale element reference" then Some(StaleElementReference)
      else None
    case 24 =>
      if s == "element not interactable" then Some(ElementNotInteractable)
      else if s == "unable to capture screen" then Some(UnableToCaptureScreen)
      else None
    case 25 =>
      if s == "element click intercepted" then Some(ElementClickIntercepted)
      else if s == "move target out of bounds" then Some(MoveTargetOutOfBounds)
      else None
    case _ => None
  }

  /** `values()` lists the 26 constants, each at its ordinal. */
  lemma ValuesAtOrdinal(e: W3CError)
    ensures |Values| == 26
    ensures e.Ordinal() < 26 && Values[e.Ordinal()] == e
  {
  }

  /** The constant found at position i has ordinal i. */
  lemma OrdinalAt(i: nat)
    requires i < |Values|
    ensures Values[i].Ordinal() == i
  {
  }

  /** Every constant occurs in `values()`. */
  lemma ValuesComplete(e: W3CError)
    ensures e in Values
  {
    ValuesAtOrdinal(e);
  }

  /** FromWire inverts Wire. */
  lemma FromWireRoundTrip(e: W3CError)
    ensures FromWire(e.Wire()) == Some(e)
  {
    if e.ElementClickIntercepted? || e.ElementNotInteractable? || e.InsecureCertificate? || e.InvalidArgument? || e.InvalidCookieDomain? || e.InvalidElementState? {
      FromWireElementToInvalid(e);
    } else if e.InvalidSelector? || e.InvalidSessionId? || e.JavascriptError? || e.MoveTargetOutOfBounds? || e.NoSuchAlert? {
      FromWireInvalidToNoSuch(e);
    } else if e.NoSuchCookie? || e.NoSuchElement? || e.NoSuchFrame? || e.NoSuchWindow? || e.ScriptTimeoutError? {
      FromWireNoSuchToScript(e);
    } else if e.SessionNotCreated? || e.StaleElementReference? || e.Timeout? || e.UnableToSetCookie? || e.UnableToCaptureScreen? {
      FromWireSessionToUnable(e);
    } else if e.UnexpectedAlertOpen? || e.UnsupportedOperation? {
      FromWireUnexpectedUnsupported(e);
    } else {
      FromWireUnknown(e);
    }
  }

  lemma FromWireElementToInvalid(e: W3CError)
    requires e.ElementClickIntercepted? || e.ElementNotInteractable? || e.InsecureCertificate? || e.InvalidArgument? || e.InvalidCookieDomain? || e.InvalidElementState?
    ensures FromWire(e.Wire()) == Some(e)
  {
    match e
    case ElementClickIntercepted => {}
    case ElementNotInteractable => {}
    case InsecureCertificate => {}
    case InvalidArgument => {}
    case InvalidCookieDomain => {}
    case InvalidElementState => assert "invalid element state"[8] != "invalid cookie domain"[8];
  }

  lemma FromWireInvalidToNoSuch(e: W3CError)
    requires e.InvalidSelector? || e.InvalidSessionId? || e.JavascriptError? || e.MoveTargetOutOfBounds? || e.NoSuchAlert?
    ensures FromWire(e.Wire()) == Some(e)
  {
    match e
    case InvalidSelector => assert "invalid selector"[8] != "invalid argument"[8];
    case InvalidSessionId => {}
    case JavascriptError => assert "javascript error"[0] != "invalid argument"[0] && "javascript error"[0] != "invalid selector"[0];
    case MoveTargetOutOfBounds => assert "move target out of bounds"[0] != "element click intercepted"[0];
    case NoSuchAlert => {}
  }

  lemma FromWireNoSuchToScript(e: W3CError)
    requires e.NoSuchCookie? || e.NoSuchElement? || e.NoSuchFrame? || e.NoSuchWindow? || e.ScriptTimeoutError?
    ensures FromWire(e.Wire()) == Some(e)
  {
    match e
    case NoSuchCookie => {}
    case NoSuchElement => {}
    case NoSuchFrame => assert "no such frame"[8] != "no such alert"[8];
    case NoSuchWindow => assert "no such window"[8] != "no such cookie"[8];
    case ScriptTimeoutError => assert "script timeout"[0] != "no such cookie"[0] && "script timeout"[0] != "no such window"[0];
  }

  lemma FromWireSessionToUnable(e: W3CError)
    requires e.SessionNotCreated? || e.StaleElementReference? || e.Timeout? || e.UnableToSetCookie? || e.UnableToCaptureScreen?
    ensures FromWire(e.Wire()) == Some(e)
  {
    match e
    case SessionNotCreated => {}
    case StaleElementReference => {}
    case Timeout => {}
    case UnableToSetCookie => assert "unable to set cookie"[0] != "insecure certificate"[0];
    case UnableToCaptureScreen => assert "unable to capture screen"[0] != "element not interactable"[0];
  }

  lemma FromWireUnexpectedUnsupported(e: W3CError)
    requires e.UnexpectedAlertOpen? || e.UnsupportedOperation?
    ensures FromWire(e.Wire()) == Some(e)
  {
    match e
    case UnexpectedAlertOpen => assert "unexpected alert open"[0] != "invalid cookie domain"[0] && "unexpected alert open"[0] != "invalid element state"[0];
    case UnsupportedOperation => assert "unsupported operation"[0] != "invalid cookie domain"[0] && "unsupported operation"[0] != "invalid element state"[0] && "unsupported operation"[2] != "unexpected alert open"[2];
  }

  lemma FromWireUnknown(e: W3CError)
    requires e.UnknownCommand? || e.UnknownError? || e.UnknownMethod?
    ensures FromWire(e.Wire()) == Some(e)
  {
    match e
    case UnknownCommand => assert "unknown command"[0] != "no such element"[0];
    case UnknownError => assert "unknown error"[0] != "no such alert"[0] && "unknown error"[0] != "no such frame"[0];
    case UnknownMethod => assert "unknown method"[0] != "no such cookie"[0] && "unknown method"[0] != "no such window"[0] && "unknown method"[0] != "script timeout"[0];
  }

  /** No two constants share a wire string. */
  lemma WireInjective(a: W3CError, b: W3CError)
    requires a.Wire() == b.Wire()
    ensures a == b
  {
    FromWireRoundTrip(a);
    FromWireRoundTrip(b);
  }

  /**
   * The table has 26 entries; the entries, their wire strings and their
   * (httpCode, error) pairs are pairwise distinct, so at most one entry can
   * match a given status and error string.
   */
  lemma TableDistinct(i: nat, j: nat)
    requires i < j < |Values|
    ensures |Values| == 26
    ensures Values[i] != Values[j]
    ensures Values[i].Wire() != Values[j].Wire()
    ensures (Values[i].HttpCode(), Values[i].Wire()) != (Values[j].HttpCode(), Values[j].Wire())
  {
    OrdinalAt(i);
    OrdinalAt(j);
    if Values[i].Wire() == Values[j].Wire() {
      WireInjective(Values[i], Values[j]);
    }
  }

  /** Every status in the table is 400, 404, 405 or 500. */
  lemma HttpCodes(e: W3CError)
    ensures e.HttpCode() in {400, 404, 405, 500}
  {
  }

  /** Only `unknown method` has status 405. */
  lemma Status405(e: W3CError)
    ensures e.HttpCode() == 405 <==> e == UnknownMethod
  {
  }
}
