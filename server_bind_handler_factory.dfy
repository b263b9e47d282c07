/** ServerBindHandlerFactory: picks the bind handler for a request variant. */
module BindHandlerFactory {
  import opened Wrappers
  import opened LdapProtocol

  /**
   * The handlers the factory can build.  Only the simple-bind handler is
   * given a credential dispatcher; the anonymous one has none to consult.
   */
  datatype BindHandler =
    | ServerBindHandler(dispatcher: CredentialCheck)
    | ServerAnonBindHandler

  const UNSUPPORTED_AUTH_TYPE: Exception :=
    OperationException(AUTH_METHOD_UNSUPPORTED, "The authentication type requested is not supported.")

  /** get($request); `makeRequestHandler` is what the handler factory's makeRequestHandler() yields. */
  function Get(request: Request, makeRequestHandler: CredentialCheck): (r: Result<BindHandler, Exception>)
    ensures request.SimpleBindRequest? <==> r.Success? && r.value.ServerBindHandler?
    ensures request.AnonBindRequest? <==> r.Success? && r.value.ServerAnonBindHandler?
    ensures r.Success? && r.value.ServerBindHandler? ==> r.value.dispatcher == makeRequestHandler
    ensures r.Failure? ==> r.error == UNSUPPORTED_AUTH_TYPE
  {
    if request.SimpleBindRequest? then
      Success(ServerBindHandler(makeRequestHandler))
    else if request.AnonBindRequest? then
      Success(ServerAnonBindHandler)
    else
      Failure(UNSUPPORTED_AUTH_TYPE)
  }
}
