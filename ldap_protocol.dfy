/**
 * Protocol vocabulary shared by the server and client handlers: result
 * codes and OIDs, requests, responses, authorization tokens, exceptions,
 * server options and the collaborator callbacks.  The PHP classes that
 * define these (ResultCode, ExtendedRequest, Control, the request and
 * response classes, the token classes, ServerOptions, ResponseFactory)
 * are not part of this model; their values follow the standards named.
 */
module LdapProtocol {
  import opened Wrappers
  import opened Asn1
  import opened Entries

  // Result codes, appendix A of RFC 4511.
  const SUCCESS: int := 0
  const PROTOCOL_ERROR: int := 2
  const AUTH_METHOD_UNSUPPORTED: int := 7
  const UNAVAILABLE_CRITICAL_EXTENSION: int := 12
  const INVALID_CREDENTIALS: int := 49
  const INSUFFICIENT_ACCESS_RIGHTS: int := 50
  const UNAVAILABLE: int := 52

  /** Notice of Disconnection, section 4.4.1 of RFC 4511. */
  const OID_NOTICE_OF_DISCONNECTION: string := "1.3.6.1.4.1.1466.20036"
  /** StartTLS, section 4.14.1 of RFC 4511. */
  const OID_START_TLS: string := "1.3.6.1.4.1.1466.20037"
  /** "Who am I?", RFC 4532. */
  const OID_WHOAMI: string := "1.3.6.1.4.1.4203.1.11.3"
  /** Simple paged results control, RFC 2696. */
  const OID_PAGING: string := "1.2.840.113556.1.4.319"
  /** Active Directory policy hints control (LDAP_SERVER_POLICY_HINTS_OID). */
  const OID_POLICY_HINTS: string := "1.2.840.113556.1.4.2239"

  /** The exception classes thrown and caught by the core. */
  datatype Exception =
    | OperationException(code: int, message: string)
    | ProtocolException(message: string)
    | EncoderException(message: string)
    | RuntimeException(message: string)
    | InvalidArgumentException(message: string)
    /** FreeDSx\Ldap\Exception\ConnectionException (client side) */
    | ConnectionException(message: string)
    /** FreeDSx\Socket\Exception\ConnectionException (transport) */
    | SocketConnectionException(message: string)
    /** any other Exception or Throwable */
    | UnexpectedException(message: string)

  /** A control in its generic envelope: oid, criticality and the decoded value. */
  datatype Control = Control(oid: string, criticality: bool, value: Option<Tlv>)

  datatype SearchRequest = SearchRequest(baseDn: string, attributes: seq<Attribute>, attributesOnly: bool)

  datatype Request =
    | SimpleBindRequest(username: string, password: string, version: int)
    | AnonBindRequest(username: string, version: int)
    | SaslBindRequest(mechanism: string, version: int)
    | Search(search: SearchRequest)
    | OtherRequest(operation: string)

  /** The PHP class name that get_class() reports for a request. */
  function ClassName(r: Request): string {
    match r
    case SimpleBindRequest(_, _, _) => "FreeDSx\\Ldap\\Operation\\Request\\SimpleBindRequest"
    case AnonBindRequest(_, _) => "FreeDSx\\Ldap\\Operation\\Request\\AnonBindRequest"
    case SaslBindRequest(_, _) => "FreeDSx\\Ldap\\Operation\\Request\\SaslBindRequest"
    case Search(_) => "FreeDSx\\Ldap\\Operation\\Request\\SearchRequest"
    case OtherRequest(op) => op
  }

  datatype LdapMessageRequest = LdapMessageRequest(messageId: int, request: Request, controls: seq<Control>)

  /** One server-to-client message. */
  datatype Response =
    /** ResponseFactory::getStandardResponse: the response type that matches the request */
    | StandardResponse(to: LdapMessageRequest, resultCode: int, diagnosticMessage: string)
    /** ResponseFactory::getExtendedError: an extended response with message id 0 */
    | ExtendedError(diagnosticMessage: string, resultCode: int, responseName: Option<string>)
    | SearchResultEntry(messageId: int, entry: EntryValue)
    | SearchResultDone(messageId: int, resultCode: int)
    /** whatever an operation handler outside this model sends */
    | HandlerResponse(messageId: int, body: string)

  /** Authorization tokens. */
  datatype Token =
    | AnonToken(username: string, version: int)
    | BindToken(username: string, password: string, version: int)
    | OtherToken(kind: string)

  /** The version a BindToken gets when none is given. */
  const DEFAULT_TOKEN_VERSION: int := 3

  /** The dispatcher's `bind(username, password)` credential check. */
  type CredentialCheck = (string, string) -> bool

  /** VersionValidatorTrait::validateVersion: None when the version is accepted, else what it throws. */
  type VersionValidator = int -> Option<Exception>

  /** The RootDSE-relevant part of ServerOptions. */
  datatype ServerOptions = ServerOptions(
    dseNamingContexts: seq<string>,
    dseVendorName: string,
    dseVendorVersion: Option<string>,
    dseAltServer: Option<string>,
    sslCert: Option<string>,
    hasPagingHandler: bool)

  /** PHP truthiness of a ?string: null, '' and '0' are false. */
  predicate Truthy(s: Option<string>) {
    s.Some? && s.value != "" && s.value != "0"
  }

  function DigitChar(d: nat): char
    requires d < 10
  {
    "0123456789"[d]
  }

  function NatToString(n: nat): (s: string)
    ensures |s| > 0
    decreases n
  {
    if n < 10 then [DigitChar(n)] else NatToString(n / 10) + [DigitChar(n % 10)]
  }

  /** sprintf('%s', $int). */
  function IntToString(i: int): string {
    if i < 0 then "-" + NatToString(-i) else NatToString(i)
  }
}
