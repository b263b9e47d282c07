/**
 * The server and client message queues, reduced to what the core observes.
 * A server queue is the list of incoming reads still to come, the log of
 * `sendMessage` calls (each call one list of messages, written together)
 * and a connected flag.  A client queue only counts `encrypt()` calls.
 * Sockets, BER encoding and the TLS handshake are not modelled.
 */
module Queues {
  import opened Wrappers
  import opened LdapProtocol

  /** What one ServerQueue::getMessage() call yields. */
  datatype Incoming =
    | Received(message: LdapMessageRequest)
    /** getMessage threw: a malformed PDU (EncoderException/ProtocolException) or a lost socket */
    | ReadFailed(error: Exception)

  class ServerQueue {
    var incoming: seq<Incoming>
    var sent: seq<seq<Response>>
    var connected: bool

    constructor(incoming: seq<Incoming>)
      ensures this.incoming == incoming && sent == [] && connected
    {
      this.incoming := incoming;
      sent := [];
      connected := true;
    }

    /** The next read, or None (PHP null) when the client has no more messages. */
    method GetMessage() returns (next: Option<Incoming>)
      modifies this`incoming
      ensures old(incoming) == [] ==> next.None? && incoming == []
      ensures old(incoming) != [] ==> next == Some(old(incoming)[0]) && incoming == old(incoming)[1..]
    {
      if incoming == [] {
        next := None;
      } else {
        next := Some(incoming[0]);
        incoming := incoming[1..];
      }
    }

    /** One sendMessage(...$responses) call. */
    method SendMessage(responses: seq<Response>)
      modifies this`sent
      ensures sent == old(sent) + [responses]
    {
      sent := sent + [responses];
    }

    method Close()
      modifies this`connected
      ensures !connected
    {
      connected := false;
    }
  }

  class ClientQueue {
    var encryptCalls: nat

    constructor()
      ensures encryptCalls == 0
    {
      encryptCalls := 0;
    }

    /** ClientQueue::encrypt(): switches the transport to TLS. */
    method Encrypt()
      modifies this
      ensures encryptCalls == old(encryptCalls) + 1
    {
      encryptCalls := encryptCalls + 1;
    }
  }
}
