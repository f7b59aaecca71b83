/** The part of the SIP stack the bot's handlers touch: client
    transactions, the event a handler receives, a record of one send, and
    the argument list of the digest computation. The stack's own
    behaviour (transport, retransmission, digest arithmetic, identifier
    generation) is not modelled; its results reach the bot as parameters. */
module SipStack {
  import opened SipMessage

  /** A client transaction: the request that opened it, which handlers
      rewrite in place, and the last message received on it. */
  class ClientTransaction {
    var origin: Request
    var lastMessage: Option<Response>

    /** Opening a transaction for a request; nothing has been received on
        it yet. */
    constructor (origin: Request)
      ensures this.origin == origin && lastMessage == None
    {
      this.origin := origin;
      lastMessage := None;
    }
  }

  /** What a response handler receives: the message that arrived and the
      transaction it belongs to. */
  datatype SipEvent = SipEvent(message: Response, transaction: ClientTransaction)

  /** One request handed to the transport, with its destination. */
  datatype Outbound = Outbound(request: Request, host: string, port: string)

  /** The arguments of the digest computation, in the order the library
      function takes them. */
  datatype DigestArgs = DigestArgs(
    username: string, realm: string, password: string, uri: string, nonce: string,
    cnonce: string, nc: string, qop: string, methodName: string)
}
