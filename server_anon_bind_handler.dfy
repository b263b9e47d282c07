/**
 * ServerAnonBindHandler: handles an anonymous bind, section 4.2 of RFC
 * 4511.  Any anonymous bind with an accepted version succeeds; the
 * credential dispatcher is never consulted.
 */
module AnonBindHandler {
  import opened Wrappers
  import opened LdapProtocol
  import opened Queues

  function NotAnonBind(request: Request): Exception {
    RuntimeException("Expected an AnonBindRequest, got: " + ClassName(request))
  }

  /** What handleBind returns or throws. */
  function HandleBindOutcome(m: LdapMessageRequest, validate: VersionValidator): (r: Result<Token, Exception>)
    ensures !m.request.AnonBindRequest? ==> r == Failure(NotAnonBind(m.request))
    ensures m.request.AnonBindRequest? && validate(m.request.version).Some? ==>
      r == Failure(validate(m.request.version).value)
    ensures r.Success? <==> m.request.AnonBindRequest? && validate(m.request.version).None?
    ensures r.Success? ==> r.value == AnonToken(m.request.username, m.request.version)
  {
    if !m.request.AnonBindRequest? then Failure(NotAnonBind(m.request))
    else match validate(m.request.version)
      case Some(e) => Failure(e)
      case None => Success(AnonToken(m.request.username, m.request.version))
  }

  /** handleBind($message, $dispatcher, $queue); `dispatcher` is accepted and ignored, as in the source. */
  method HandleBind(m: LdapMessageRequest, dispatcher: CredentialCheck, validate: VersionValidator, queue: ServerQueue)
    returns (r: Result<Token, Exception>)
    modifies queue`sent
    ensures r == HandleBindOutcome(m, validate)
    ensures queue.sent == old(queue.sent) + (if r.Success? then [[StandardResponse(m, SUCCESS, "")]] else [])
  {
    if !m.request.AnonBindRequest? {
      return Failure(NotAnonBind(m.request));
    }
    var versionError := validate(m.request.version);
    if versionError.Some? {
      return Failure(versionError.value);
    }
    queue.SendMessage([StandardResponse(m, SUCCESS, "")]);
    r := Success(AnonToken(m.request.username, m.request.version));
  }
}
