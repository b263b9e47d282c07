/**
 * ServerProtocolHandler: the per-connection request router of the LDAP
 * server.  It keeps the message ids used so far and the authorization
 * token.  Each request read from the queue has its id checked (section
 * 4.1.1 of RFC 4511), binds go to the bind handler chosen by request
 * variant, and other requests reach their operation handler only when
 * the session is authenticated or the request needs no authentication.
 * Failures become a standard response for the message or a Notice of
 * Disconnection (section 4.4.1 of RFC 4511).
 *
 * The behaviour is first given as pure functions over a `Conn` value (the
 * router's fields plus the queue it observes) and then implemented by the
 * class `ServerProtocolHandler`, whose methods are proved to follow them.
 * The authorizer, the operation handlers and the handler factories whose
 * source is not part of this model are the oracles in `Env`.
 */
module ServerRouter {
  import opened Wrappers
  import opened LdapProtocol
  import opened Queues
  import opened BindHandlerFactory
  import opened SimpleBindHandler
  import opened AnonBindHandler

  const ID_ZERO: string := "The message ID 0 cannot be used in a client request."
  const AUTH_TYPE_UNSUPPORTED: Exception :=
    OperationException(AUTH_METHOD_UNSUPPORTED, "The requested authentication type is not supported.")
  const AUTH_REQUIRED: string := "Authentication required."
  const MALFORMED: string := "The message encoding is malformed."
  const SHUTTING_DOWN: string := "The server is shutting down."

  function ReusedId(id: int): string {
    "The message ID " + IntToString(id) + " is not valid."
  }

  /** ServerAuthorization as seen by the router; `isAuthenticated` is judged on the stored token. */
  datatype Authorizer = Authorizer(
    isAuthenticationRequest: Request -> bool,
    isAuthenticationTypeSupported: Request -> bool,
    isAuthenticationRequired: Request -> bool,
    isAuthenticated: Token -> bool)

  /** What an operation handler's handleRequest does: its sends, whether it closed the queue, what it threw. */
  datatype HandlerEffect = HandlerEffect(sends: seq<seq<Response>>, closes: bool, raised: Option<Exception>)

  /**
   * The collaborators: the authorizer, the credential dispatcher the handler
   * factory makes, the version validator of the bind handlers, the failure
   * (if any) of the protocol handler factory's get() for a request and its
   * controls, and the operation handler it returns.
   */
  datatype Env = Env(
    authorizer: Authorizer,
    dispatcher: CredentialCheck,
    validate: VersionValidator,
    route: (Request, seq<Control>) -> Option<Exception>,
    operation: (LdapMessageRequest, Token) -> HandlerEffect)

  /** One invocation of an operation handler, with the token it was given. */
  datatype Call = Call(message: LdapMessageRequest, token: Token)

  /** The router's fields and the queue they act on; `calls` logs operation-handler invocations. */
  datatype Conn = Conn(
    messageIds: seq<int>,
    token: Token,
    incoming: seq<Incoming>,
    sent: seq<seq<Response>>,
    connected: bool,
    calls: seq<Call>)

  /** The state after a dispatch, and the exception it threw, if any. */
  datatype Outcome = Outcome(conn: Conn, raised: Option<Exception>)

  function Send(c: Conn, responses: seq<Response>): Conn {
    c.(sent := c.sent + [responses])
  }

  /** sendNoticeOfDisconnect($message, $reasonCode). */
  function Notice(c: Conn, message: string, reasonCode: int): Conn {
    Send(c, [ExtendedError(message, reasonCode, Some(OID_NOTICE_OF_DISCONNECTION))])
  }

  /** isValidRequest: None for a usable id, else the protocol error it sends. */
  function IdError(messageIds: seq<int>, m: LdapMessageRequest): (r: Option<Response>)
    ensures r.None? <==> m.messageId != 0 && m.messageId !in messageIds
    ensures r.Some? ==> r.value.ExtendedError? && r.value.resultCode == PROTOCOL_ERROR && r.value.responseName.None?
    ensures m.messageId == 0 ==> r.Some? && r.value.diagnosticMessage == ID_ZERO
    ensures m.messageId != 0 && m.messageId in messageIds ==> r.Some? && r.value.diagnosticMessage == ReusedId(m.messageId)
  {
    if m.messageId == 0 then Some(ExtendedError(ID_ZERO, PROTOCOL_ERROR, None))
    else if m.messageId in messageIds then Some(ExtendedError(ReusedId(m.messageId), PROTOCOL_ERROR, None))
    else None
  }

  /** handleAuthRequest: the token the selected bind handler returns, or what is thrown on the way. */
  function AuthResult(env: Env, m: LdapMessageRequest): (r: Result<Token, Exception>)
    ensures !env.authorizer.isAuthenticationTypeSupported(m.request) ==> r == Failure(AUTH_TYPE_UNSUPPORTED)
    ensures env.authorizer.isAuthenticationTypeSupported(m.request) ==>
      && (m.request.SimpleBindRequest? ==> r == BindOutcome(m, env.dispatcher, env.validate))
      && (m.request.AnonBindRequest? ==> r == HandleBindOutcome(m, env.validate))
      && (!m.request.SimpleBindRequest? && !m.request.AnonBindRequest? ==> r == Failure(UNSUPPORTED_AUTH_TYPE))
  {
    if !env.authorizer.isAuthenticationTypeSupported(m.request) then Failure(AUTH_TYPE_UNSUPPORTED)
    else match Get(m.request, env.dispatcher)
      case Failure(e) => Failure(e)
      case Success(ServerBindHandler(d)) => BindOutcome(m, d, env.validate)
      case Success(ServerAnonBindHandler) => HandleBindOutcome(m, env.validate)
  }

  /** Both bind handlers send one SUCCESS response when, and only when, they return a token. */
  function AuthSends(m: LdapMessageRequest, r: Result<Token, Exception>): seq<seq<Response>> {
    if r.Success? then [[StandardResponse(m, SUCCESS, "")]] else []
  }

  /** The state after an operation handler ran with the current token. */
  function Invoke(c: Conn, m: LdapMessageRequest, effect: HandlerEffect): Conn {
    c.(sent := c.sent + effect.sends, connected := c.connected && !effect.closes, calls := c.calls + [Call(m, c.token)])
  }

  /** dispatchRequest($message). */
  function Dispatch(env: Env, c: Conn, m: LdapMessageRequest): (r: Outcome)
    // a rejected id: one protocol error, nothing recorded, nothing run, nothing thrown
    ensures IdError(c.messageIds, m).Some? ==> r == Outcome(Send(c, [IdError(c.messageIds, m).value]), None)
    // an accepted id is recorded before routing, whatever follows
    ensures IdError(c.messageIds, m).None? ==> r.conn.messageIds == c.messageIds + [m.messageId]
    // an authentication request never reaches an operation handler; only a returned token replaces the old one
    ensures IdError(c.messageIds, m).None? && env.authorizer.isAuthenticationRequest(m.request) ==>
      && r.conn.calls == c.calls
      && r.conn.connected == c.connected
      && (AuthResult(env, m).Success? ==> r.raised.None? && r.conn.token == AuthResult(env, m).value)
      && (AuthResult(env, m).Failure? ==> r.raised == Some(AuthResult(env, m).error) && r.conn.token == c.token)
    // any other request: the handler runs, with the current token, iff authenticated or not required
    ensures (IdError(c.messageIds, m).None? && !env.authorizer.isAuthenticationRequest(m.request)
             && env.route(m.request, m.controls).None?) ==>
      && r.conn.token == c.token
      && (r.conn.calls == c.calls + [Call(m, c.token)] <==>
          env.authorizer.isAuthenticated(c.token) || !env.authorizer.isAuthenticationRequired(m.request))
      && (r.conn.calls == c.calls <==>
          !env.authorizer.isAuthenticated(c.token) && env.authorizer.isAuthenticationRequired(m.request))
      && (r.conn.calls == c.calls ==>
          r.conn.sent == c.sent + [[StandardResponse(m, INSUFFICIENT_ACCESS_RIGHTS, AUTH_REQUIRED)]] && r.raised.None?)
    ensures r.conn.incoming == c.incoming
    ensures r.conn.token == c.token || (AuthResult(env, m).Success? && r.conn.token == AuthResult(env, m).value)
  {
    match IdError(c.messageIds, m)
    case Some(e) => Outcome(Send(c, [e]), None)
    case None =>
      var c1 := c.(messageIds := c.messageIds + [m.messageId]);
      if env.authorizer.isAuthenticationRequest(m.request) then
        var t := AuthResult(env, m);
        var c2 := c1.(sent := c1.sent + AuthSends(m, t));
        if t.Success? then Outcome(c2.(token := t.value), None) else Outcome(c2, Some(t.error))
      else
        match env.route(m.request, m.controls)
        case Some(e) => Outcome(c1, Some(e))
        case None =>
          if env.authorizer.isAuthenticated(c1.token) || !env.authorizer.isAuthenticationRequired(m.request) then
            var effect := env.operation(m, c1.token);
            assert Invoke(c1, m, effect).calls == c.calls + [Call(m, c.token)];
            Outcome(Invoke(c1, m, effect), effect.raised)
          else
            Outcome(Send(c1, [StandardResponse(m, INSUFFICIENT_ACCESS_RIGHTS, AUTH_REQUIRED)]), None)
  }

  /**
   * The catch blocks of handle().  `last` is the value of $message: the
   * request being dispatched, or the last one read when getMessage threw.
   * An OperationException is answered with a standard response for that
   * message; with no message read yet, getStandardResponse(null) fails and
   * nothing is sent.  A lost socket is only logged; a malformed PDU gets a
   * notice of disconnection; anything else gets an empty notice if the
   * connection is still up.
   */
  function Caught(c: Conn, e: Exception, last: Option<LdapMessageRequest>): (r: Conn)
    ensures r.messageIds == c.messageIds && r.token == c.token && r.calls == c.calls
    ensures r.incoming == c.incoming && r.connected == c.connected
    ensures |c.sent| <= |r.sent| <= |c.sent| + 1 && r.sent[..|c.sent|] == c.sent
  {
    match e
    case OperationException(code, message) =>
      if last.Some? then Send(c, [StandardResponse(last.value, code, message)]) else c
    case SocketConnectionException(_) => c
    case EncoderException(_) => Notice(c, MALFORMED, PROTOCOL_ERROR)
    case ProtocolException(_) => Notice(c, MALFORMED, PROTOCOL_ERROR)
    case _ => if c.connected then Notice(c, "", PROTOCOL_ERROR) else c
  }

  /** The while loop of handle(), with the catch blocks; it stops at the end of input, an exception or a closed queue. */
  function Loop(env: Env, c: Conn, last: Option<LdapMessageRequest>): Conn
    decreases |c.incoming|
  {
    if c.incoming == [] then c
    else
      var c1 := c.(incoming := c.incoming[1..]);
      match c.incoming[0]
      case ReadFailed(e) => Caught(c1, e, last)
      case Received(m) =>
        var o := Dispatch(env, c1, m);
        if o.raised.Some? then Caught(o.conn, o.raised.value, Some(m))
        else if !o.conn.connected then o.conn
        else Loop(env, o.conn, Some(m))
  }

  /** handle(): the loop, then the finally block, which leaves the queue closed. */
  function Handled(env: Env, c: Conn): Conn {
    Loop(env, c, None).(connected := false)
  }

  /** shutdown(): a notice of disconnection with UNAVAILABLE, then close. */
  function AfterShutdown(c: Conn): Conn {
    Notice(c, SHUTTING_DOWN, UNAVAILABLE).(connected := false)
  }

  predicate NoZeroId(ids: seq<int>) {
    forall i :: 0 <= i < |ids| ==> ids[i] != 0
  }

  predicate DistinctIds(ids: seq<int>) {
    forall i, j :: 0 <= i < j < |ids| ==> ids[i] != ids[j]
  }

  /** Appending an id that passed the check keeps the recorded ids non-zero and distinct. */
  lemma {:induction false} RecordKeepsIdsUnique(ids: seq<int>, m: LdapMessageRequest)
    requires NoZeroId(ids) && DistinctIds(ids)
    requires IdError(ids, m).None?
    ensures NoZeroId(ids + [m.messageId]) && DistinctIds(ids + [m.messageId])
  {
    var ids' := ids + [m.messageId];
    forall i, j | 0 <= i < j < |ids'|
      ensures ids'[i] != ids'[j]
    {
      if j == |ids| {
        assert ids'[i] == ids[i] && ids[i] in ids;
      } else {
        assert ids'[i] == ids[i] && ids'[j] == ids[j];
      }
    }
  }

  /**
   * Over a whole session the recorded ids only grow, and stay non-zero and
   * pairwise distinct: no id is ever accepted twice.
   */
  lemma {:induction false} LoopKeepsIdsUnique(env: Env, c: Conn, last: Option<LdapMessageRequest>)
    requires NoZeroId(c.messageIds) && DistinctIds(c.messageIds)
    ensures NoZeroId(Loop(env, c, last).messageIds) && DistinctIds(Loop(env, c, last).messageIds)
    ensures |c.messageIds| <= |Loop(env, c, last).messageIds|
    ensures Loop(env, c, last).messageIds[..|c.messageIds|] == c.messageIds
    decreases |c.incoming|
  {
    if c.incoming != [] && c.incoming[0].Received? {
      var c1 := c.(incoming := c.incoming[1..]);
      var m := c.incoming[0].message;
      var o := Dispatch(env, c1, m);
      if IdError(c1.messageIds, m).None? {
        RecordKeepsIdsUnique(c1.messageIds, m);
      }
      assert NoZeroId(o.conn.messageIds) && DistinctIds(o.conn.messageIds);
      if o.raised.None? && o.conn.connected {
        LoopKeepsIdsUnique(env, o.conn, Some(m));
        var ids := Loop(env, o.conn, Some(m)).messageIds;
        assert ids[..|c.messageIds|] == ids[..|o.conn.messageIds|][..|c.messageIds|];
      }
    }
  }

  /** The same holds for handle() from a fresh router. */
  lemma HandleKeepsIdsUnique(env: Env, c: Conn)
    requires c.messageIds == []
    ensures NoZeroId(Handled(env, c).messageIds) && DistinctIds(Handled(env, c).messageIds)
  {
    LoopKeepsIdsUnique(env, c, None);
  }

  /** Requests that are not authentication requests never change the token. */
  predicate NoAuthRequests(env: Env, incoming: seq<Incoming>) {
    forall i :: 0 <= i < |incoming| && incoming[i].Received? ==>
      !env.authorizer.isAuthenticationRequest(incoming[i].message.request)
  }

  /** Without a bind, the session keeps the token it started with to the end, and every handler is given it. */
  lemma {:induction false} TokenChangesOnlyByBind(env: Env, c: Conn, last: Option<LdapMessageRequest>)
    requires NoAuthRequests(env, c.incoming)
    ensures Loop(env, c, last).token == c.token
    ensures |c.calls| <= |Loop(env, c, last).calls| && Loop(env, c, last).calls[..|c.calls|] == c.calls
    ensures forall i :: |c.calls| <= i < |Loop(env, c, last).calls| ==> Loop(env, c, last).calls[i].token == c.token
    decreases |c.incoming|
  {
    if c.incoming != [] && c.incoming[0].Received? {
      var c1 := c.(incoming := c.incoming[1..]);
      var m := c.incoming[0].message;
      assert !env.authorizer.isAuthenticationRequest(m.request);
      var o := Dispatch(env, c1, m);
      assert o.conn.token == c.token;
      assert |c.calls| <= |o.conn.calls| <= |c.calls| + 1;
      assert |o.conn.calls| == |c.calls| + 1 ==> o.conn.calls == c.calls + [Call(m, c.token)];
      if o.raised.None? && o.conn.connected {
        assert NoAuthRequests(env, o.conn.incoming) by {
          forall i | 0 <= i < |o.conn.incoming| && o.conn.incoming[i].Received?
            ensures !env.authorizer.isAuthenticationRequest(o.conn.incoming[i].message.request)
          {
            assert o.conn.incoming[i] == c.incoming[i + 1];
          }
        }
        TokenChangesOnlyByBind(env, o.conn, Some(m));
      }
    }
  }

  /** A rejected id leaves the loop reading the next message. */
  lemma RejectedIdContinues(env: Env, c: Conn, last: Option<LdapMessageRequest>, m: LdapMessageRequest)
    requires c.incoming != [] && c.incoming[0] == Received(m) && c.connected
    requires m.messageId == 0 || m.messageId in c.messageIds
    ensures Loop(env, c, last) ==
      Loop(env, Send(c.(incoming := c.incoming[1..]), [IdError(c.messageIds, m).value]), Some(m))
  {
  }

  /** An OperationException from a dispatch is answered for that message and ends the loop, leaving the rest unread. */
  lemma OperationExceptionEndsLoop(env: Env, c: Conn, last: Option<LdapMessageRequest>, m: LdapMessageRequest, code: int, message: string)
    requires c.incoming != [] && c.incoming[0] == Received(m)
    requires Dispatch(env, c.(incoming := c.incoming[1..]), m).raised == Some(OperationException(code, message))
    ensures Loop(env, c, last) ==
      Send(Dispatch(env, c.(incoming := c.incoming[1..]), m).conn, [StandardResponse(m, code, message)])
    ensures Loop(env, c, last).incoming == c.incoming[1..]
    ensures !Handled(env, c).connected
  {
  }

  /** A malformed PDU gets one notice of disconnection with PROTOCOL_ERROR, and the connection is closed. */
  lemma MalformedPduDisconnects(env: Env, c: Conn, e: Exception)
    requires c.incoming != [] && c.incoming[0] == ReadFailed(e)
    requires e.EncoderException? || e.ProtocolException?
    ensures Handled(env, c).sent ==
      c.sent + [[ExtendedError(MALFORMED, PROTOCOL_ERROR, Some(OID_NOTICE_OF_DISCONNECTION))]]
    ensures !Handled(env, c).connected
  {
  }

  /** The exceptions that reach the last catch block: anything not caught by the three before it. */
  predicate Unexpected(e: Exception) {
    !e.OperationException? && !e.SocketConnectionException? && !e.EncoderException? && !e.ProtocolException?
  }

  /**
   * A lost socket is only logged: nothing is sent.  Any other unexpected
   * exception gets an empty PROTOCOL_ERROR notice of disconnection exactly
   * when the queue is still connected.  Either way the connection ends closed.
   */
  lemma LostOrUnexpectedFailureEnds(env: Env, c: Conn, e: Exception, last: Option<LdapMessageRequest>)
    ensures e.SocketConnectionException? ==> Caught(c, e, last) == c
    ensures Unexpected(e) ==>
      Caught(c, e, last) == c.(sent := c.sent + (if c.connected then [[ExtendedError("", PROTOCOL_ERROR, Some(OID_NOTICE_OF_DISCONNECTION))]] else []))
    ensures c.incoming != [] && c.incoming[0] == ReadFailed(e) && e.SocketConnectionException? ==>
      Handled(env, c).sent == c.sent && !Handled(env, c).connected
    ensures c.incoming != [] && c.incoming[0] == ReadFailed(e) && Unexpected(e) ==>
      && Handled(env, c).sent ==
           c.sent + (if c.connected then [[ExtendedError("", PROTOCOL_ERROR, Some(OID_NOTICE_OF_DISCONNECTION))]] else [])
      && !Handled(env, c).connected
  {
  }

  class ServerProtocolHandler {
    const queue: ServerQueue
    const env: Env
    var messageIds: seq<int>
    var token: Token
    ghost var calls: seq<Call>

    ghost function State(): Conn
      reads this, queue
    {
      Conn(messageIds, token, queue.incoming, queue.sent, queue.connected, calls)
    }

    /** A router for one connection, starting from the authorizer's initial token. */
    constructor(queue: ServerQueue, env: Env, token: Token)
      ensures this.queue == queue && this.env == env
      ensures messageIds == [] && this.token == token && calls == []
    {
      this.queue := queue;
      this.env := env;
      messageIds := [];
      this.token := token;
      calls := [];
    }

    /** handle(). */
    method Handle()
      modifies this, queue
      ensures State() == Handled(env, old(State()))
    {
      ghost var result := Loop(env, State(), None);
      var last: Option<LdapMessageRequest> := None;
      while true
        invariant Loop(env, State(), last) == result
        decreases |queue.incoming|
      {
        var next := queue.GetMessage();
        if next.None? {
          break;
        }
        match next.value
        case ReadFailed(e) =>
          CatchException(e, last);
          break;
        case Received(m) =>
          last := Some(m);
          var raised := DispatchRequest(m);
          if raised.Some? {
            CatchException(raised.value, last);
            break;
          }
          if !queue.connected {
            break;
          }
      }
      if queue.connected {
        queue.Close();
      }
    }

    /** The catch blocks of handle(). */
    method CatchException(e: Exception, last: Option<LdapMessageRequest>)
      modifies queue`sent
      ensures State() == Caught(old(State()), e, last)
    {
      match e
      case OperationException(code, message) =>
        if last.Some? {
          queue.SendMessage([StandardResponse(last.value, code, message)]);
        }
      case SocketConnectionException(_) =>
      case EncoderException(_) =>
        SendNoticeOfDisconnect(MALFORMED);
      case ProtocolException(_) =>
        SendNoticeOfDisconnect(MALFORMED);
      case _ =>
        if queue.connected {
          SendNoticeOfDisconnect();
        }
    }

    /** shutdown(). */
    method Shutdown()
      modifies queue`sent, queue`connected
      ensures State() == AfterShutdown(old(State()))
    {
      SendNoticeOfDisconnect(SHUTTING_DOWN, UNAVAILABLE);
      queue.Close();
    }

    /** dispatchRequest($message); the exception it throws is returned. */
    method DispatchRequest(m: LdapMessageRequest) returns (raised: Option<Exception>)
      modifies this, queue`sent, queue`connected
      ensures Outcome(State(), raised) == Dispatch(env, old(State()), m)
    {
      var valid := IsValidRequest(m);
      if !valid {
        return None;
      }
      messageIds := messageIds + [m.messageId];
      if env.authorizer.isAuthenticationRequest(m.request) {
        var t := HandleAuthRequest(m);
        if t.Failure? {
          return Some(t.error);
        }
        token := t.value;
        return None;
      }
      var routeError := env.route(m.request, m.controls);
      if routeError.Some? {
        return routeError;
      }
      if env.authorizer.isAuthenticated(token) || !env.authorizer.isAuthenticationRequired(m.request) {
        raised := HandleRequest(m);
      } else {
        queue.SendMessage([StandardResponse(m, INSUFFICIENT_ACCESS_RIGHTS, AUTH_REQUIRED)]);
        raised := None;
      }
    }

    /** The operation handler's handleRequest with the current token. */
    method HandleRequest(m: LdapMessageRequest) returns (raised: Option<Exception>)
      modifies this`calls, queue`sent, queue`connected
      ensures State() == Invoke(old(State()), m, env.operation(m, token))
      ensures raised == env.operation(m, token).raised
    {
      var effect := env.operation(m, token);
      var i := 0;
      while i < |effect.sends|
        invariant 0 <= i <= |effect.sends|
        invariant queue.sent == old(queue.sent) + effect.sends[..i]
        invariant queue.connected == old(queue.connected) && calls == old(calls)
      {
        queue.SendMessage(effect.sends[i]);
        assert effect.sends[..i + 1] == effect.sends[..i] + [effect.sends[i]];
        i := i + 1;
      }
      assert effect.sends[..i] == effect.sends;
      if effect.closes {
        queue.Close();
      }
      calls := calls + [Call(m, token)];
      raised := effect.raised;
    }

    /** isValidRequest($message). */
    method IsValidRequest(m: LdapMessageRequest) returns (valid: bool)
      modifies queue`sent
      ensures valid <==> IdError(messageIds, m).None?
      ensures queue.sent == old(queue.sent) + (if valid then [] else [[IdError(messageIds, m).value]])
    {
      if m.messageId == 0 {
        queue.SendMessage([ExtendedError(ID_ZERO, PROTOCOL_ERROR, None)]);
        return false;
      }
      if m.messageId in messageIds {
        queue.SendMessage([ExtendedError(ReusedId(m.messageId), PROTOCOL_ERROR, None)]);
        return false;
      }
      return true;
    }

    /** handleAuthRequest($message): the token, or the exception thrown. */
    method HandleAuthRequest(m: LdapMessageRequest) returns (r: Result<Token, Exception>)
      modifies queue`sent
      ensures r == AuthResult(env, m)
      ensures queue.sent == old(queue.sent) + AuthSends(m, r)
    {
      if !env.authorizer.isAuthenticationTypeSupported(m.request) {
        return Failure(AUTH_TYPE_UNSUPPORTED);
      }
      var handler := Get(m.request, env.dispatcher);
      if handler.Failure? {
        return Failure(handler.error);
      }
      match handler.value
      case ServerBindHandler(d) =>
        r := Bind(m, d, env.validate, queue);
      case ServerAnonBindHandler =>
        r := HandleBind(m, env.dispatcher, env.validate, queue);
    }

    /** sendNoticeOfDisconnect($message = '', $reasonCode = PROTOCOL_ERROR). */
    method SendNoticeOfDisconnect(message: string := "", reasonCode: int := PROTOCOL_ERROR)
      modifies queue`sent
      ensures queue.sent == old(queue.sent) + [[ExtendedError(message, reasonCode, Some(OID_NOTICE_OF_DISCONNECTION))]]
    {
      queue.SendMessage([ExtendedError(message, reasonCode, Some(OID_NOTICE_OF_DISCONNECTION))]);
    }
  }
}
