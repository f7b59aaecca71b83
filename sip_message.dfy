/** The SIP message values the bot builds and rewrites: a request with its
    request line and the nine headers the bot sets, the digest
    Authorization header, and the response whose status code and
    WWW-Authenticate parameters the bot reads. All of them are values: the
    bot rewrites a request by building an updated copy. */
module SipMessage {

  datatype Option<T> = None | Some(value: T)

  const Register: string := "REGISTER"
  const Invite: string := "INVITE"

  datatype RequestLine = RequestLine(methodName: string, scheme: string, user: string, host: string, port: string)

  datatype ViaHeader = ViaHeader(transport: string, host: string, port: string, branch: string)

  datatype FromHeader = FromHeader(user: string, scheme: string, host: string, port: string, tag: string)

  datatype ToHeader = ToHeader(user: string, scheme: string, host: string, port: string)

  datatype ContactHeader = ContactHeader(scheme: string, user: string, host: string, port: string)

  datatype CSeqHeader = CSeqHeader(id: string, methodName: string)

  /** The digest parameters of a WWW-Authenticate challenge or of an
      Authorization header. */
  datatype AuthHeader = AuthHeader(
    username: string, realm: string, nonce: string, uri: string,
    response: string, cnonce: string, nc: string, qop: string)

  /** A request: the request line, the headers in the order the message
      constructor takes them, and the Authorization header once one is set. */
  datatype Request = Request(
    line: RequestLine,
    via: ViaHeader,
    to: ToHeader,
    from: FromHeader,
    contact: ContactHeader,
    callId: string,
    cseq: CSeqHeader,
    maxForwards: string,
    contentLength: string,
    authorization: Option<AuthHeader>)

  /** A response as the bot sees it: the status code and the copy of the
      challenge parameters the message carries (all empty when the
      response has no challenge). */
  datatype Response = Response(statusCode: int, auth: AuthHeader)

  /** The message constructor: header values in positional order; a new
      request has no Authorization header. */
  function NewRequest(
    line: RequestLine, via: ViaHeader, to: ToHeader, from: FromHeader,
    contact: ContactHeader, callId: string, cseq: CSeqHeader,
    maxForwards: string, contentLength: string): (r: Request)
    ensures r == Request(line, via, to, from, contact, callId, cseq, maxForwards, contentLength, None)
  {
    Request(line, via, to, from, contact, callId, cseq, maxForwards, contentLength, None)
  }

  /** The two consistency rules a request the bot sends keeps: the CSeq
      names the request's own method, and To addresses the same user as
      From. */
  predicate Consistent(r: Request)
  {
    r.cseq.methodName == r.line.methodName
    && r.to.user == r.from.user && r.to.scheme == r.from.scheme
    && r.to.host == r.from.host && r.to.port == r.from.port
  }
}
