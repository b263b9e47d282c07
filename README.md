# FreeDSx LDAP core, modelled in Dafny

This project models the protocol-session core of the FreeDSx LDAP library
(RFC 4511) and proves properties of the model. It covers five pieces:

- **Server request router** (`server_protocol_handler.dfy`, module
  `ServerRouter`). Each connection keeps the message ids it has used and
  the current authorization token. Its loop reads requests, rejects
  message id 0 and reused ids (section 4.1.1 of RFC 4511), sends binds to
  the bind handler chosen by request variant, and gates every other
  request on authentication. Failures become a standard response or a
  Notice of Disconnection (section 4.4.1 of RFC 4511).
- **The router's helpers**:
  - bind-handler selection (`server_bind_handler_factory.dfy`);
  - the simple-bind handler (`simple_bind.dfy`);
  - the anonymous-bind handler (`server_anon_bind_handler.dfy`);
  - the RootDSE builder and attribute filter, section 5.1 of RFC 4512
    (`server_root_dse_handler.dfy`);
  - the value objects `SearchResult` and `PagingResponse`
    (`search_result.dfy`, `paging_response.dfy`).
- **Substring filter codec** (`substring_filter.dfy`), section 4.5.1.7.2
  of RFC 4511. It covers the encoder, the strict decoder and the text
  form, over an abstract ASN.1 node type (`asn1.dfy`).
- **Client paging cursor** (`paging.dfy`), for the RFC 2696 paged-results
  control.
- **Two small client pieces**: the StartTLS response handler
  (`client_start_tls_handler.dfy`, section 4.14 of RFC 4511) and the
  Active Directory PolicyHints control codec (`policy_hints_control.dfy`).

## How the model is built

Each PHP class that changes state in place is a Dafny `class` with the
same fields. Its methods say, in their `ensures`, what the new state is.
That new state is given by a pure function of the old state and the
inputs, and the properties the source promises are proved as lemmas
about those functions:

- `ServerProtocolHandler.Handle` follows `Handled`, built from `Loop`,
  `Dispatch` and `Caught`.
- `Paging.Send` follows `SendStep`.
- `ServerRootDseHandler.HandleRequest` follows `RootDseReply`, built from
  `DseEntry` and `Filtered`.
- `SubstringFilter.ToAsn1` follows `Encode`, and `ParseSubstrings`
  follows `DecodeParts`.

Pure PHP code is modelled as functions directly, for example
`BindHandlerFactory.Get`, `SearchResults.MakeErrorResult` and
`PolicyHints.DecodeValue`.

The server queue has three parts:

- a list of pending reads, each a received request or a read that threw;
- a log of `sendMessage` calls, where each call is one list of responses;
- a connected flag.

The client queue is modelled as a counter of `encrypt()` calls. Thrown
exceptions are `Failure` values of a `Result`, or an `Option<Exception>`
that a method returns.

### Collaborators passed in as parameters

The code calls collaborators whose source is not part of this model.
Each one is passed in as a function:

- the authorizer (`ServerRouter.Authorizer`);
- the credential dispatcher (`CredentialCheck`);
- the version validator (`VersionValidator`);
- the protocol handler factory and the operation handlers it returns
  (`Env.route`, `Env.operation`);
- `Attribute::equals` (`AttributeEquals`) and `Attribute::escape`;
- the RootDSE handler hook (`RootDseHook`);
- the server's reply to each page request (`reply`).

### Behaviour worth noting

- **An OperationException ends the connection.** The `try` wraps the
  whole `while` (`ServerProtocolHandler.php:98-145`). An
  OperationException from a dispatch therefore sends the standard
  response for that message and ends the loop, and the `finally` block
  closes the queue. `ServerRouter.OperationExceptionEndsLoop` states this.
- **The anonymous-bind handler has no anonymous-allowed check.**
  `ServerAnonBindHandler.php:40-60` accepts any anonymous bind with a
  valid version. Whether anonymous binds are allowed is the authorizer's
  decision: it is built with `isAnonymousAllowed` at
  `ServerProtocolHandler.php:78` and consulted through
  `isAuthenticationTypeSupported` at `ServerProtocolHandler.php:250-255`,
  before any bind handler runs. The model routes the check the same way
  (`ServerRouter.AuthResult`).

## Model

| member | source | states |
|---|---|---|
| ServerRouter.IdError | src/FreeDSx/Ldap/Protocol/ServerProtocolHandler.php:220-240 | an id is usable iff it is non-zero and not used before; otherwise the error is a PROTOCOL_ERROR extended response with no name, with the id-0 text for 0 and the "not valid" text for a reused id |
| ServerRouter.AuthResult | src/FreeDSx/Ldap/Protocol/ServerProtocolHandler.php:248-262 | an authentication type the authorizer does not support fails with AUTH_METHOD_UNSUPPORTED before any bind handler runs; otherwise the result is the simple-bind or anonymous-bind outcome, or the factory's error for any other variant |
| ServerRouter.Dispatch | src/FreeDSx/Ldap/Protocol/ServerProtocolHandler.php:175-212 | a rejected id gets exactly one protocol error, and nothing is recorded, run or thrown; an accepted id is appended before routing; an authentication request never reaches an operation handler, and the token is replaced only by a returned token; any other request reaches its handler with the current token iff the session is authenticated or the request needs no authentication, and otherwise gets exactly one INSUFFICIENT_ACCESS_RIGHTS response |
| ServerRouter.Caught | src/FreeDSx/Ldap/Protocol/ServerProtocolHandler.php:106-140 | the catch blocks change nothing but the send log, and add at most one message to it |
| ServerRouter.LoopKeepsIdsUnique | src/FreeDSx/Ldap/Protocol/ServerProtocolHandler.php:99-105 | over a whole session the recorded ids only grow and stay non-zero and pairwise distinct |
| ServerRouter.HandleKeepsIdsUnique | src/FreeDSx/Ldap/Protocol/ServerProtocolHandler.php:94-146 | a fresh router never accepts the same id twice and never accepts 0 |
| ServerRouter.RecordKeepsIdsUnique | src/FreeDSx/Ldap/Protocol/ServerProtocolHandler.php:177-181 | appending an id that passed the check keeps the recorded ids non-zero and distinct |
| ServerRouter.TokenChangesOnlyByBind | src/FreeDSx/Ldap/Protocol/ServerProtocolHandler.php:184-211 | a session with no authentication requests ends with the token it started with, and every operation handler is given that token |
| ServerRouter.RejectedIdContinues | src/FreeDSx/Ldap/Protocol/ServerProtocolHandler.php:99-105 | after a rejected id the loop goes on to the next message, with only the protocol error added |
| ServerRouter.OperationExceptionEndsLoop | src/FreeDSx/Ldap/Protocol/ServerProtocolHandler.php:106-113 | an OperationException from a dispatch sends one standard response with its code and message for that request, leaves the remaining input unread, and the connection ends closed |
| ServerRouter.MalformedPduDisconnects | src/FreeDSx/Ldap/Protocol/ServerProtocolHandler.php:122-129 | a malformed PDU adds exactly one notice of disconnection with PROTOCOL_ERROR and the notice OID, and the connection is closed |
| ServerRouter.LostOrUnexpectedFailureEnds | src/FreeDSx/Ldap/Protocol/ServerProtocolHandler.php:114-145 | a lost socket sends nothing; any other unexpected exception sends an empty PROTOCOL_ERROR notice of disconnection iff the queue is still connected; either way the connection ends closed |
| ServerRouter.ServerProtocolHandler.constructor | src/FreeDSx/Ldap/Protocol/ServerProtocolHandler.php:64-88 | a new router has no recorded ids and the authorizer's initial token |
| ServerRouter.ServerProtocolHandler.Handle | src/FreeDSx/Ldap/Protocol/ServerProtocolHandler.php:94-146 | the read loop with its catch blocks and the closing finally block: the new state is `Handled` of the old |
| ServerRouter.ServerProtocolHandler.CatchException | src/FreeDSx/Ldap/Protocol/ServerProtocolHandler.php:106-140 | the catch blocks: the new state is `Caught` of the old |
| ServerRouter.ServerProtocolHandler.Shutdown | src/FreeDSx/Ldap/Protocol/ServerProtocolHandler.php:153-164 | one notice of disconnection with UNAVAILABLE and the shutdown text, then the connection is closed |
| ServerRouter.ServerProtocolHandler.DispatchRequest | src/FreeDSx/Ldap/Protocol/ServerProtocolHandler.php:175-212 | the new state and the exception thrown are exactly `Dispatch` of the old state |
| ServerRouter.ServerProtocolHandler.HandleRequest | src/FreeDSx/Ldap/Protocol/ServerProtocolHandler.php:197-203 | the operation handler is logged with the current token, its sends are appended in order, and the connection is closed iff the handler closed it |
| ServerRouter.ServerProtocolHandler.IsValidRequest | src/FreeDSx/Ldap/Protocol/ServerProtocolHandler.php:220-240 | returns true iff the id is usable; otherwise exactly one protocol error is sent |
| ServerRouter.ServerProtocolHandler.HandleAuthRequest | src/FreeDSx/Ldap/Protocol/ServerProtocolHandler.php:248-262 | returns `AuthResult`; one SUCCESS response is sent iff a token is returned |
| ServerRouter.ServerProtocolHandler.SendNoticeOfDisconnect | src/FreeDSx/Ldap/Protocol/ServerProtocolHandler.php:267-276 | sends one extended response with the notice-of-disconnection OID; the message defaults to '' and the code to PROTOCOL_ERROR |
| BindHandlerFactory.Get | src/FreeDSx/Ldap/Protocol/Factory/ServerBindHandlerFactory.php:46-61 | a simple bind yields the bind handler, given the handler factory's dispatcher; an anonymous bind yields the anonymous handler; any other request, a SASL bind included, fails with AUTH_METHOD_UNSUPPORTED and gets no handler |
| SimpleBindHandler.Supports | src/FreeDSx/Ldap/Protocol/Bind/SimpleBind.php:86-89 | holds iff the request is a simple bind |
| SimpleBindHandler.CheckCredentials | src/FreeDSx/Ldap/Protocol/Bind/SimpleBind.php:68-81 | succeeds iff the dispatcher accepts the credentials, with a BindToken for exactly those credentials; otherwise fails with INVALID_CREDENTIALS |
| SimpleBindHandler.BindOutcome | src/FreeDSx/Ldap/Protocol/Bind/SimpleBind.php:47-63 | a non-simple-bind fails with RuntimeException; a version failure comes first; then an INVALID_CREDENTIALS failure; success iff the version is accepted and the dispatcher accepts |
| SimpleBindHandler.VersionCheckedBeforeCredentials | src/FreeDSx/Ldap/Protocol/Bind/SimpleBind.php:58-59 | with a rejected version the outcome does not depend on the dispatcher, and nothing is sent |
| SimpleBindHandler.Bind | src/FreeDSx/Ldap/Protocol/Bind/SimpleBind.php:47-63 | returns `BindOutcome`; exactly one SUCCESS standard response is sent on success, and nothing otherwise |
| AnonBindHandler.HandleBindOutcome | src/FreeDSx/Ldap/Protocol/ServerProtocolHandler/ServerAnonBindHandler.php:40-60 | a non-anonymous bind fails with RuntimeException; a version failure is raised; success iff it is an anonymous bind with an accepted version, giving AnonToken(username, version) |
| AnonBindHandler.HandleBind | src/FreeDSx/Ldap/Protocol/ServerProtocolHandler/ServerAnonBindHandler.php:40-60 | returns `HandleBindOutcome` without consulting the dispatcher; exactly one SUCCESS response is sent on success |
| RootDse.DseHasMandatoryAttributes | src/FreeDSx/Ldap/Protocol/ServerProtocolHandler/ServerRootDseHandler.php:59-66 | the entry's DN is '' and it holds namingContexts, supportedExtension containing WHOAMI, supportedLDAPVersion ['3'] and vendorName |
| RootDse.StartTlsAdvertisedIffCert | src/FreeDSx/Ldap/Protocol/ServerProtocolHandler/ServerRootDseHandler.php:67-72 | the StartTLS OID is a supportedExtension iff an SSL certificate is configured |
| RootDse.PagingAdvertisedIffHandler | src/FreeDSx/Ldap/Protocol/ServerProtocolHandler/ServerRootDseHandler.php:73-78 | supportedControl is present, holding exactly the paging OID, iff a paging handler is configured |
| RootDse.VendorVersionIffConfigured | src/FreeDSx/Ldap/Protocol/ServerProtocolHandler/ServerRootDseHandler.php:79-81 | vendorVersion is present iff one is configured (PHP truthiness), with that value |
| RootDse.AltServerIffConfigured | src/FreeDSx/Ldap/Protocol/ServerProtocolHandler/ServerRootDseHandler.php:82-84 | altServer is present iff one is configured (PHP truthiness), with that value |
| RootDse.MandatoryLookup | src/FreeDSx/Ldap/Protocol/ServerProtocolHandler/ServerRootDseHandler.php:59-84 | a mandatory attribute's values are found at its position, whatever optional attributes follow |
| RootDse.PastMandatory | src/FreeDSx/Ldap/Protocol/ServerProtocolHandler/ServerRootDseHandler.php:67-84 | a name that is not mandatory is looked up among the optional attributes alone |
| RootDse.SurvivorsExactlyRequested | src/FreeDSx/Ldap/Protocol/ServerProtocolHandler/ServerRootDseHandler.php:117-133 | an attribute survives iff it was in the entry and some requested attribute `equals` it |
| RootDse.SurvivorsAreSubsequence | src/FreeDSx/Ldap/Protocol/ServerProtocolHandler/ServerRootDseHandler.php:118-133 | the survivors are never more than the attributes; there are as many iff every attribute was requested, and then they are the attributes unchanged |
| RootDse.FilterSelectsRequested | src/FreeDSx/Ldap/Protocol/ServerProtocolHandler/ServerRootDseHandler.php:117-133 | with a non-empty request list, the filtered entry keeps its DN and holds exactly the requested attributes; the change log is cleared iff some attribute was removed |
| RootDse.AttributesOnlyDropsValues | src/FreeDSx/Ldap/Protocol/ServerProtocolHandler/ServerRootDseHandler.php:126-139 | with attributesOnly every kept attribute keeps its name and has no values |
| RootDse.EmptyListKeepsAll | src/FreeDSx/Ldap/Protocol/ServerProtocolHandler/ServerRootDseHandler.php:117-139 | an empty request list without attributesOnly leaves the entry as built |
| RootDse.HandlerReplacesEntry | src/FreeDSx/Ldap/Protocol/ServerProtocolHandler/ServerRootDseHandler.php:88-96 | without a RootDSE handler the filtered entry is sent; with one, the entry it returns for the filtered entry replaces it |
| RootDse.NamesOnlyIdempotent | src/FreeDSx/Ldap/Protocol/ServerProtocolHandler/ServerRootDseHandler.php:126-139 | resetting the values of attributes that were already reset changes nothing |
| RootDse.ServerRootDseHandler.constructor | src/FreeDSx/Ldap/Protocol/ServerProtocolHandler/ServerRootDseHandler.php:43-46 | the RootDSE handler is optional and none by default |
| RootDse.ServerRootDseHandler.BuildEntry | src/FreeDSx/Ldap/Protocol/ServerProtocolHandler/ServerRootDseHandler.php:59-84 | the entry built by fromArray, add and set is `DseEntry` of the options |
| RootDse.ServerRootDseHandler.AddNew | src/FreeDSx/Ldap/Protocol/ServerProtocolHandler/ServerRootDseHandler.php:67-84 | a conditional add or set of an attribute not yet present appends it and logs one change exactly when the condition holds |
| RootDse.ServerRootDseHandler.IsRequested | src/FreeDSx/Ldap/Protocol/ServerProtocolHandler/ServerRootDseHandler.php:119-125 | the inner loop finds a match iff some requested attribute `equals` this one |
| RootDse.ServerRootDseHandler.FilterEntryAttributes | src/FreeDSx/Ldap/Protocol/ServerProtocolHandler/ServerRootDseHandler.php:113-140 | the entry afterwards is `Filtered` of the entry before |
| RootDse.ServerRootDseHandler.KeepRequested | src/FreeDSx/Ldap/Protocol/ServerProtocolHandler/ServerRootDseHandler.php:117-134 | afterwards the entry holds exactly the survivors, with values reset under attributesOnly; the changes are kept iff nothing was removed |
| RootDse.ServerRootDseHandler.FilterOne | src/FreeDSx/Ldap/Protocol/ServerProtocolHandler/ServerRootDseHandler.php:118-132 | one outer iteration: the attribute is kept, with values reset under attributesOnly, iff requested; otherwise it is removed and the change log emptied |
| RootDse.ServerRootDseHandler.DropValues | src/FreeDSx/Ldap/Protocol/ServerProtocolHandler/ServerRootDseHandler.php:135-139 | every attribute keeps its name and loses its values; DN and changes are untouched |
| RootDse.ServerRootDseHandler.HandleRequest | src/FreeDSx/Ldap/Protocol/ServerProtocolHandler/ServerRootDseHandler.php:52-108 | exactly one sendMessage call carries the entry and then SearchResultDone(SUCCESS), both with the request's message id |
| SearchResults.MakeSuccessResult | src/FreeDSx/Ldap/Protocol/ServerProtocolHandler/SearchResult.php:39-50 | the result code is always SUCCESS and the getters return the arguments, with baseDn and diagnosticMessage defaulting to '' |
| SearchResults.MakeErrorResult | src/FreeDSx/Ldap/Protocol/ServerProtocolHandler/SearchResult.php:58-74 | fails with InvalidArgumentException iff the code is SUCCESS, so an error result never carries SUCCESS; missing entries become the empty set |
| PagingResponses.New | src/FreeDSx/Ldap/Server/Paging/PagingResponse.php:29-52 | the getters return the constructor arguments; isComplete defaults to false and remaining to 0 |
| PagingResponses.Make | src/FreeDSx/Ldap/Server/Paging/PagingResponse.php:60-69 | a page that is not complete, with the given remaining count |
| PagingResponses.MakeFinal | src/FreeDSx/Ldap/Server/Paging/PagingResponse.php:76-82 | a complete page with nothing remaining |
| SubstringFilters.Encode | src/FreeDSx/Ldap/Search/Filter/SubstringFilter.php:125-160 | fails with RuntimeException iff the filter has no parts; otherwise a node with context tag 4 |
| SubstringFilters.EncodedPartsLayout | src/FreeDSx/Ldap/Search/Filter/SubstringFilter.php:130-151 | an optional [0] comes first, then one [1] per contains value in order, then an optional [2] last |
| SubstringFilters.Decode | src/FreeDSx/Ldap/Search/Filter/SubstringFilter.php:192-213 | succeeds iff the node is a 2-child sequence of an octet string and a non-empty sequence whose parts parse; the attribute is the first child's value |
| SubstringFilters.ParseStepCases | src/FreeDSx/Ldap/Search/Filter/SubstringFilter.php:229-253 | one iteration accepts a context-specific [0], [1] or [2] part that does not repeat [0] or [2], and records it; anything else is the malformed error |
| SubstringFilters.ParseFromAccepts | src/FreeDSx/Ldap/Search/Filter/SubstringFilter.php:228-254 | the loop completes iff every part is known and [0] and [2] each occur at most once; otherwise it fails with the malformed error |
| SubstringFilters.ParseFromValues | src/FreeDSx/Ldap/Search/Filter/SubstringFilter.php:228-254 | a completed loop keeps the first [0] and [2] and appends the [1] values in wire order |
| SubstringFilters.DecodePartsCharacterized | src/FreeDSx/Ldap/Search/Filter/SubstringFilter.php:219-264 | parseSubstrings succeeds exactly on acceptable part lists, giving the [0] value, the [2] value and the [1] values in wire order |
| SubstringFilters.DuplicateInitialOrFinalRejected | src/FreeDSx/Ldap/Search/Filter/SubstringFilter.php:233-250 | a second [0] or a second [2] is rejected |
| SubstringFilters.ForeignPartRejected | src/FreeDSx/Ldap/Search/Filter/SubstringFilter.php:229-231 | a part that is not context-specific, or whose tag is not 0, 1 or 2, is rejected |
| SubstringFilters.OrderNotChecked | src/FreeDSx/Ldap/Search/Filter/SubstringFilter.php:228-254 | [2], [1], [0], [1] decodes: the order of [0] and [2] is not checked and a repeated [1] value is kept twice |
| SubstringFilters.ParseAnyParts | src/FreeDSx/Ldap/Search/Filter/SubstringFilter.php:239-244 | a run of [1] parts appends its values in order |
| SubstringFilters.RoundTrip | src/FreeDSx/Ldap/Search/Filter/SubstringFilter.php:125-213 | for every filter with at least one part, decoding the encoding gives back the same attribute, startsWith, endsWith and contains |
| SubstringFilters.RenderedShapes | src/FreeDSx/Ldap/Search/Filter/SubstringFilter.php:165-186 | start only renders `(a=S*)`, end only `(a=*E)`, contains only `(a=*c1*...*cn*)`, with values escaped |
| SubstringFilters.SubstringFilter.constructor | src/FreeDSx/Ldap/Search/Filter/SubstringFilter.php:54-64 | the getters return the constructor arguments |
| SubstringFilters.SubstringFilter.SetStartsWith | src/FreeDSx/Ldap/Search/Filter/SubstringFilter.php:77-82 | only startsWith changes |
| SubstringFilters.SubstringFilter.SetEndsWith | src/FreeDSx/Ldap/Search/Filter/SubstringFilter.php:95-100 | only endsWith changes |
| SubstringFilters.SubstringFilter.SetContains | src/FreeDSx/Ldap/Search/Filter/SubstringFilter.php:115-120 | only contains changes |
| SubstringFilters.SubstringFilter.ToAsn1 | src/FreeDSx/Ldap/Search/Filter/SubstringFilter.php:125-160 | the node built child by child is `Encode` of the filter |
| SubstringFilters.SubstringFilter.ToString | src/FreeDSx/Ldap/Search/Filter/SubstringFilter.php:165-186 | the string accumulated is `Rendered` of the filter |
| SubstringFilters.SubstringFilter.ParseSubstrings | src/FreeDSx/Ldap/Search/Filter/SubstringFilter.php:219-264 | the loop's result is `DecodeParts` of the parts |
| SubstringFilters.SubstringFilter.FromAsn1 | src/FreeDSx/Ldap/Search/Filter/SubstringFilter.php:192-213 | fails with `Decode`'s error, or returns a fresh filter whose value is `Decode`'s |
| SearchPaging.SendStep | src/FreeDSx/Ldap/Search/Paging.php:119-153 | every send logs one request with the stored cookie (or '') and the given or stored size; a failure changes nothing else; success iff the reply has no control or a paging control, and is not a critical non-zero-size request without one; the reply's control replaces the stored one; paging ends on a non-zero-size reply without a control |
| SearchPaging.NoEntriesAfterEnd | src/FreeDSx/Ldap/Search/Paging.php:76-100 | after a successful end() hasEntries is false |
| SearchPaging.EndAcceptsMissingControl | src/FreeDSx/Ldap/Search/Paging.php:78-147 | end() sends size 0, so a reply without a control is accepted even when critical and does not take the non-critical branch |
| SearchPaging.MissingControlEndsNonCritical | src/FreeDSx/Ldap/Search/Paging.php:145-147 | a non-critical non-zero-size page without a control returns its entries and leaves nothing to fetch |
| SearchPaging.MissingControlRaisesCritical | src/FreeDSx/Ldap/Search/Paging.php:140-142 | a critical non-zero-size page without a control raises ProtocolException |
| SearchPaging.ForeignControlRaises | src/FreeDSx/Ldap/Search/Paging.php:132-137 | a paging-OID control of the wrong class raises ProtocolException naming the class |
| SearchPaging.EntriesRemainFollowsCookie | src/FreeDSx/Ldap/Search/Paging.php:96-103 | before end(), hasEntries after a reply is true iff the reply's cookie is non-empty |
| SearchPaging.CookieSequence | src/FreeDSx/Ldap/Search/Paging.php:96-128 | cookies "c1", "c2", "" leave hasEntries true, true, false, and the three requests carry cookies '', c1, c2 with the default size |
| SearchPaging.RestartResets | src/FreeDSx/Ldap/Search/Paging.php:61-69 | start forgets the control and the end, takes the new search, and keeps the old size when none is given |
| SearchPaging.EstimateIsLastControlSize | src/FreeDSx/Ldap/Search/Paging.php:109-112 | sizeEstimate is the size of the last paging control received |
| SearchPaging.Paging.constructor | src/FreeDSx/Ldap/Search/Paging.php:34-45 | a new cursor has no control, is not ended, is not critical, and has the given size (default 1000) |
| SearchPaging.Paging.IsCritical | src/FreeDSx/Ldap/Search/Paging.php:51-56 | only the criticality changes, to true by default |
| SearchPaging.Paging.Start | src/FreeDSx/Ldap/Search/Paging.php:61-69 | the new state is `Restart` of the old |
| SearchPaging.Paging.End | src/FreeDSx/Ldap/Search/Paging.php:76-82 | the new state and the error are `EndStep`'s |
| SearchPaging.Paging.GetEntries | src/FreeDSx/Ldap/Search/Paging.php:91-94 | the entries and the new state are `SendStep`'s for the given size |
| SearchPaging.Paging.Send | src/FreeDSx/Ldap/Search/Paging.php:119-153 | the entries and the new state are `SendStep`'s |
| StartTls.StartTlsResult | src/FreeDSx/Ldap/Protocol/ClientProtocolHandler/ClientStartTlsHandler.php:39-55 | success iff the result code is SUCCESS, returning the response unchanged; otherwise ConnectionException "Unable to start TLS: " + the diagnostic message |
| StartTls.ClientStartTlsHandler.HandleResponse | src/FreeDSx/Ldap/Protocol/ClientProtocolHandler/ClientStartTlsHandler.php:39-55 | returns `StartTlsResult`, and encrypt is called exactly once on SUCCESS and never otherwise |
| PolicyHints.DecodeValue | src/FreeDSx/Ldap/Control/Ad/PolicyHintsControl.php:72-82 | succeeds iff the value is a sequence whose first child is an integer, giving true iff it is non-zero; a non-sequence and a bad first child get their own ProtocolException |
| PolicyHints.RoundTrip | src/FreeDSx/Ldap/Control/Ad/PolicyHintsControl.php:60-88 | decoding the value toAsn1 writes gives back the flag |
| PolicyHints.NonZeroIsEnabled | src/FreeDSx/Ldap/Control/Ad/PolicyHintsControl.php:78-82 | any non-zero first integer decodes to enabled, whatever follows it |
| PolicyHints.PolicyHintsControl.constructor | src/FreeDSx/Ldap/Control/Ad/PolicyHintsControl.php:37-43 | the control has the PolicyHints OID, is critical, and is enabled by default |
| PolicyHints.PolicyHintsControl.SetIsEnabled | src/FreeDSx/Ldap/Control/Ad/PolicyHintsControl.php:45-50 | sets exactly the flag |
| PolicyHints.PolicyHintsControl.ToAsn1 | src/FreeDSx/Ldap/Control/Ad/PolicyHintsControl.php:60-65 | stores SEQUENCE { INTEGER 1 } when enabled and SEQUENCE { INTEGER 0 } otherwise, and the envelope decodes back to the flag |
| PolicyHints.PolicyHintsControl.FromAsn1 | src/FreeDSx/Ldap/Control/Ad/PolicyHintsControl.php:72-88 | fails with `DecodeValue`'s error, or returns a fresh control with the decoded flag, the OID, and the envelope's criticality and value |
| Entries.Entry.FromArray | src/FreeDSx/Ldap/Protocol/ServerProtocolHandler/ServerRootDseHandler.php:59-66 | the entry has the given DN and attributes and no changes |
| Entries.Entry.Add | src/FreeDSx/Ldap/Protocol/ServerProtocolHandler/ServerRootDseHandler.php:67-78 | appends the value to the named attribute, or creates it at the end, and logs one add change |
| Entries.Entry.Set | src/FreeDSx/Ldap/Protocol/ServerProtocolHandler/ServerRootDseHandler.php:79-84 | replaces the named attribute's values, or creates it at the end, and logs one replace change |
| Entries.Entry.Reset | src/FreeDSx/Ldap/Protocol/ServerProtocolHandler/ServerRootDseHandler.php:130 | removes the attribute at its position and logs one reset change |
| Entries.Entry.ResetValues | src/FreeDSx/Ldap/Protocol/ServerProtocolHandler/ServerRootDseHandler.php:127 | empties one attribute's values in place, leaving the others and the changes alone |
| Entries.Entry.ResetChanges | src/FreeDSx/Ldap/Protocol/ServerProtocolHandler/ServerRootDseHandler.php:131 | empties the change log only |
| Queues.ServerQueue.GetMessage | src/FreeDSx/Ldap/Protocol/ServerProtocolHandler.php:99 | yields the next pending read, or none when input is exhausted |
| Queues.ServerQueue.SendMessage | src/FreeDSx/Ldap/Protocol/ServerProtocolHandler.php:107-111 | appends one call's responses to the send log |
| Queues.ServerQueue.Close | src/FreeDSx/Ldap/Protocol/ServerProtocolHandler.php:141-145 | leaves the queue disconnected |
| Queues.ClientQueue.Encrypt | src/FreeDSx/Ldap/Protocol/ClientProtocolHandler/ClientStartTlsHandler.php:52 | counts one encrypt() call |

## Left out

- Sockets, TLS and BER are not modelled. The socket and TLS transport
  inside ServerQueue and ClientQueue, the TLS handshake inside
  `encrypt()`, and the BER encoding of messages and control values are
  left out. A control envelope carries the value node itself.
- LoggerTrait calls in `handle` and `shutdown` are not modelled. They have
  no protocol effect.
- Only the sequential effect of `shutdown` is modelled. Its asynchronous
  use when the server process stops is left out.
- ServerAuthorization, the protocol handler factory and the operation
  handlers are oracles in `ServerRouter.Env`. ResponseFactory is reduced
  to the `StandardResponse` and `ExtendedError` values it builds. Their
  source is not part of this model.
- `ServerRouter.Env.operation`: an operation handler's effect is modelled
  as its sends, a close and an exception. It is a function of the request
  and the token only. The RootDSE handler is modelled separately, so
  `HandleRequest` is not wired in as one of these oracles.
- The ServerBindHandler class, which the factory returns for simple binds,
  is not part of this model. Its behaviour is taken from SimpleBind's
  logic: version check, credential check, then one SUCCESS response.
- The bind factory is built at `ServerProtocolHandler.php:70` without the
  queue and handler factory its constructor needs. The model passes the
  dispatcher to the factory explicitly.
- `ServerRouter.Caught`: when `getMessage` throws an OperationException
  before any message was read, `getStandardResponse(null)` fails. The
  model sends nothing and the connection is still closed. The error that
  then escapes `handle` is not modelled.
- The SocketConnectionException and the client ConnectionException are
  modelled as unrelated classes. If one extends the other in the
  library, the catch order in `handle` would change.
- Entry and Attribute are reduced to what RootDSE building and filtering
  use: `fromArray`, `add`, `set`, `reset`, `Attribute::reset` and the
  change log. Their source is not part of this model.
- `Attribute::escape` and `Attribute::equals` are parameters, with no
  contract.
- `Entries.Entry.ResetValues`: `Attribute::reset()` is assumed to empty
  the values without logging a change.
- `Entries.Entry.Reset`: `Entry::reset` is assumed to remove the attribute
  at its position and to log a reset change.
- The Control base class is not modelled. `decodeEncodedValue` is
  replaced by the value node itself. `mergeControlData` is assumed to copy
  the envelope's criticality and value (`PolicyHints.PolicyHintsControl.FromAsn1`).
- `SubstringFilters.Decode` does not model the completion of an
  IncompleteType by LdapEncoder (`SubstringFilter.php:194-195`). The node
  is taken as already typed.
- LdapClient is not modelled. Paging's `sendAndReceive` is replaced by the
  `reply` input of each step. The `sent` log in `SearchPaging.PagingState`
  records what would be sent, and is not a field of the PHP class.
- ClientSearchHandler is thin delegation to code that is not part of this
  model.
- BindInterface and RootDseAwareHandlerInterface have no behaviour.
- OrFilter holds only a tag constant.
- DateTime handling in paging requests is not modelled.
- Integers are unbounded. PHP's 64-bit integers never overflow in the
  code modelled, since only message ids and sizes are compared and copied.
