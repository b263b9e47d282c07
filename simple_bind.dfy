/**
 * SimpleBind: handles a simple bind (username and password), section 4.2
 * of RFC 4511.  The version is validated first, then the credentials are
 * checked by the dispatcher, and only then is the success response sent.
 */
module SimpleBindHandler {
  import opened Wrappers
  import opened LdapProtocol
  import opened Queues

  const INVALID_CREDENTIALS_ERROR: Exception := OperationException(INVALID_CREDENTIALS, "Invalid credentials.")

  function NotSimpleBind(request: Request): Exception {
    RuntimeException("Expected a SimpleBindRequest, got: " + ClassName(request))
  }

  /** supports($request). */
  function Supports(m: LdapMessageRequest): (r: bool)
    ensures r <==> m.request.SimpleBindRequest?
  {
    m.request.SimpleBindRequest?
  }

  /** simpleBind: the dispatcher decides; success yields a BindToken for exactly these credentials. */
  function CheckCredentials(username: string, password: string, dispatcher: CredentialCheck): (r: Result<Token, Exception>)
    ensures r.Success? <==> dispatcher(username, password)
    ensures r.Success? ==> r.value == BindToken(username, password, DEFAULT_TOKEN_VERSION)
    ensures r.Failure? ==> r.error == INVALID_CREDENTIALS_ERROR
  {
    if !dispatcher(username, password) then Failure(INVALID_CREDENTIALS_ERROR)
    else Success(BindToken(username, password, DEFAULT_TOKEN_VERSION))
  }

  /** What bind($message) returns or throws. */
  function BindOutcome(m: LdapMessageRequest, dispatcher: CredentialCheck, validate: VersionValidator): (r: Result<Token, Exception>)
    ensures !m.request.SimpleBindRequest? ==> r == Failure(NotSimpleBind(m.request))
    ensures m.request.SimpleBindRequest? && validate(m.request.version).Some? ==>
      r == Failure(validate(m.request.version).value)
    ensures m.request.SimpleBindRequest? && validate(m.request.version).None? && !dispatcher(m.request.username, m.request.password) ==>
      r == Failure(INVALID_CREDENTIALS_ERROR)
    ensures r.Success? <==>
      m.request.SimpleBindRequest? && validate(m.request.version).None? && dispatcher(m.request.username, m.request.password)
    ensures r.Success? ==> r.value == BindToken(m.request.username, m.request.password, DEFAULT_TOKEN_VERSION)
  {
    if !m.request.SimpleBindRequest? then Failure(NotSimpleBind(m.request))
    else match validate(m.request.version)
      case Some(e) => Failure(e)
      case None => CheckCredentials(m.request.username, m.request.password, dispatcher)
  }

  /** The responses bind($message) sends: one standard SUCCESS response, and only on success. */
  function BindSends(m: LdapMessageRequest, outcome: Result<Token, Exception>): seq<seq<Response>> {
    if outcome.Success? then [[StandardResponse(m, SUCCESS, "")]] else []
  }

  /** A version failure is decided before the dispatcher is consulted. */
  lemma VersionCheckedBeforeCredentials(m: LdapMessageRequest, d1: CredentialCheck, d2: CredentialCheck, validate: VersionValidator)
    requires m.request.SimpleBindRequest? && validate(m.request.version).Some?
    ensures BindOutcome(m, d1, validate) == BindOutcome(m, d2, validate)
    ensures BindSends(m, BindOutcome(m, d1, validate)) == []
  {
  }

  /** bind($message). */
  method Bind(m: LdapMessageRequest, dispatcher: CredentialCheck, validate: VersionValidator, queue: ServerQueue)
    returns (r: Result<Token, Exception>)
    modifies queue`sent
    ensures r == BindOutcome(m, dispatcher, validate)
    ensures queue.sent == old(queue.sent) + BindSends(m, r)
  {
    if !m.request.SimpleBindRequest? {
      return Failure(NotSimpleBind(m.request));
    }
    var versionError := validate(m.request.version);
    if versionError.Some? {
      return Failure(versionError.value);
    }
    r := CheckCredentials(m.request.username, m.request.password, dispatcher);
    if r.Failure? {
      return;
    }
    queue.SendMessage([StandardResponse(m, SUCCESS, "")]);
  }
}
