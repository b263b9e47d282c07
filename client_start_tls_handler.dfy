/**
 * ClientStartTlsHandler: the client's handling of the StartTLS extended
 * response (section 4.14 of RFC 4511).  On SUCCESS the client queue is
 * switched to TLS (one `encrypt()` call) and the response is handed back;
 * any other result code is a connection error and the queue is left alone.
 */
module StartTls {
  import opened Wrappers
  import opened LdapProtocol
  import opened Queues

  /** The ExtendedResponse inside the LdapMessageResponse the client received. */
  datatype ExtendedResponse = ExtendedResponse(resultCode: int, diagnosticMessage: string, responseName: Option<string>)

  datatype LdapMessageResponse = LdapMessageResponse(messageId: int, response: ExtendedResponse)

  /** The error raised when the server refuses StartTLS. */
  function StartTlsRefused(diagnosticMessage: string): Exception {
    ConnectionException("Unable to start TLS: " + diagnosticMessage)
  }

  /** What handleResponse returns or throws for a given response. */
  function StartTlsResult(messageFrom: LdapMessageResponse): (r: Result<LdapMessageResponse, Exception>)
    ensures r.Success? <==> messageFrom.response.resultCode == SUCCESS
    ensures r.Success? ==> r.value == messageFrom
    ensures r.Failure? ==> r.error == StartTlsRefused(messageFrom.response.diagnosticMessage)
  {
    if messageFrom.response.resultCode != SUCCESS then Failure(StartTlsRefused(messageFrom.response.diagnosticMessage))
    else Success(messageFrom)
  }

  class ClientStartTlsHandler {
    const queue: ClientQueue

    constructor(queue: ClientQueue)
      ensures this.queue == queue
    {
      this.queue := queue;
    }

    /** handleResponse: encrypt exactly once on SUCCESS, never otherwise. */
    method HandleResponse(messageTo: LdapMessageRequest, messageFrom: LdapMessageResponse)
      returns (r: Result<LdapMessageResponse, Exception>)
      modifies queue
      ensures r == StartTlsResult(messageFrom)
      ensures queue.encryptCalls == old(queue.encryptCalls) + (if r.Success? then 1 else 0)
    {
      if messageFrom.response.resultCode != SUCCESS {
        return Failure(StartTlsRefused(messageFrom.response.diagnosticMessage));
      }
      queue.Encrypt();
      return Success(messageFrom);
    }
  }
}
