/** The SIP bot: its configuration, the initial REGISTER it builds, and
    the digest-authentication retry it performs when a transaction's last
    response is a 401 challenge.

    The retry follows the code as written: the client nonce and the nonce
    count are fixed literals, the Via branch and the CSeq are kept, only
    status 401 triggers it, and nothing counts or bounds retries. The
    digest computation and the identifier generators are library calls
    whose bodies are not part of this model; they are parameters here. */
module Bot {
  import opened SipMessage
  import opened SipStack

  /** The client nonce every retry sends. */
  const RetryCNonce: string := "nwqlcqw80wnf"
  /** The nonce count every retry sends. */
  const RetryNonceCount: string := "00000001"
  /** The From tag of the initial REGISTER. */
  const RegisterFromTag: string := "3234jhf23"
  /** The only status code the bot answers. */
  const Unauthorized: int := 401

  /** The bot's fixed configuration: where the registrar is, who the bot
      is, and where it listens. */
  datatype Config = Config(
    serverUrl: string, serverPort: string,
    username: string, password: string,
    localIp: string, localPort: string)

  /** What the response handler does with a transaction's last status. */
  datatype Action = Resend | Ignore

  /** The dispatch on the last status code: a retry exactly for 401. */
  function ResponseAction(statusCode: int): (a: Action)
    ensures a == Resend <==> statusCode == Unauthorized
  {
    if statusCode == Unauthorized then Resend else Ignore
  }

  /** The Authorization header of a retry: a copy of the challenge with the
      client nonce, the user name, the nonce count and the URI overwritten,
      and the digest computed over exactly those values and the method of
      the request being retried. */
  function RetriedAuth(challenge: AuthHeader, config: Config, methodName: string,
                       md5Challenge: DigestArgs -> string): (a: AuthHeader)
    ensures a.cnonce == RetryCNonce && a.nc == RetryNonceCount
    ensures a.username == config.username && a.uri == "sip:" + config.serverUrl
    ensures a.realm == challenge.realm && a.nonce == challenge.nonce && a.qop == challenge.qop
    ensures a.response == md5Challenge(DigestArgs(config.username, challenge.realm, config.password,
                                                  "sip:" + config.serverUrl, challenge.nonce,
                                                  RetryCNonce, RetryNonceCount, challenge.qop, methodName))
  {
    var rewritten := challenge.(cnonce := RetryCNonce, username := config.username,
                                nc := RetryNonceCount, uri := "sip:" + config.serverUrl);
    rewritten.(response := md5Challenge(DigestArgs(rewritten.username, rewritten.realm, config.password,
                                                   rewritten.uri, rewritten.nonce, rewritten.cnonce,
                                                   rewritten.nc, rewritten.qop, methodName)))
  }

  /** The request a retry sends: the original request with the
      Authorization header set and, unless the method is INVITE, a new
      Call-ID. Every other part of the request is kept. */
  function RetryRequest(origin: Request, challenge: AuthHeader, config: Config,
                        md5Challenge: DigestArgs -> string, newCallId: string): (r: Request)
    ensures r.authorization == Some(RetriedAuth(challenge, config, origin.line.methodName, md5Challenge))
    ensures origin.line.methodName != Invite ==> r.callId == newCallId
    ensures origin.line.methodName == Invite ==> r.callId == origin.callId
    ensures r.line == origin.line && r.via == origin.via && r.to == origin.to
    ensures r.from == origin.from && r.contact == origin.contact && r.cseq == origin.cseq
    ensures r.maxForwards == origin.maxForwards && r.contentLength == origin.contentLength
  {
    var signed := origin.(authorization := Some(RetriedAuth(challenge, config, origin.line.methodName, md5Challenge)));
    if origin.line.methodName != Invite then signed.(callId := newCallId) else signed
  }

  class SipBot {
    const config: Config
    /** The requests for which the bot opened a client transaction, oldest first. */
    var transactions: seq<Request>
    /** The requests the bot handed to the transport, oldest first. */
    var sent: seq<Outbound>

    constructor (config: Config)
      ensures this.config == config && transactions == [] && sent == []
    {
      this.config := config;
      transactions := [];
      sent := [];
    }

    /** The initial REGISTER, given the branch and Call-ID the library
        generates for it. */
    function GenerateRegister(branch: string, callId: string): (r: Request)
      ensures r.line == RequestLine(Register, "sip", config.username, config.serverUrl, config.serverPort)
      ensures r.via == ViaHeader("udp", config.localIp, config.localPort, branch)
      ensures r.from == FromHeader(config.username, "sip", config.serverUrl, config.serverPort, RegisterFromTag)
      ensures r.to == ToHeader(r.from.user, r.from.scheme, r.from.host, r.from.port)
      ensures r.contact == ContactHeader("sip", config.username, config.localIp, config.localPort)
      ensures r.callId == callId && r.cseq == CSeqHeader("1", Register)
      ensures r.maxForwards == "70" && r.contentLength == "0" && r.authorization == None
      ensures Consistent(r)
    {
      var requestLine := RequestLine(Register, "sip", config.username, config.serverUrl, config.serverPort);
      var requestVia := ViaHeader("udp", config.localIp, config.localPort, branch);
      var requestFrom := FromHeader(config.username, "sip", config.serverUrl, config.serverPort, RegisterFromTag);
      var requestTo := ToHeader(config.username, "sip", config.serverUrl, config.serverPort);
      var requestContact := ContactHeader("sip", config.username, config.localIp, config.localPort);
      NewRequest(requestLine, requestVia, requestTo, requestFrom, requestContact, callId,
                 CSeqHeader("1", Register), "70", "0")
    }

    /** The state after one retry for `event`: the transaction's request
        rewritten in place by RetryRequest, one client transaction opened
        for it and one send of it to the registrar. */
    twostate predicate Resent(event: SipEvent, md5Challenge: DigestArgs -> string, newCallId: string)
      reads this, event.transaction
    {
      var retried := RetryRequest(old(event.transaction.origin), event.message.auth, config,
                                  md5Challenge, newCallId);
      && event.transaction.origin == retried
      && event.transaction.lastMessage == old(event.transaction.lastMessage)
      && transactions == old(transactions) + [retried]
      && sent == old(sent) + [Outbound(retried, config.serverUrl, config.serverPort)]
    }

    /** Answers a challenge: rewrites the transaction's request with an
        Authorization header built from the challenge, regenerates the
        Call-ID unless the method is INVITE, and sends the request once
        more on a new client transaction. */
    method HandleUnAuth(event: SipEvent, md5Challenge: DigestArgs -> string, newCallId: string)
      modifies this, event.transaction
      ensures Resent(event, md5Challenge, newCallId)
    {
      var response := event.message;
      var tx := event.transaction;
      var authHeader := response.auth;
      authHeader := authHeader.(cnonce := RetryCNonce);
      authHeader := authHeader.(username := config.username);
      authHeader := authHeader.(nc := RetryNonceCount);
      authHeader := authHeader.(uri := "sip:" + config.serverUrl);
      authHeader := authHeader.(response := md5Challenge(DigestArgs(
        authHeader.username, authHeader.realm, config.password, authHeader.uri, authHeader.nonce,
        authHeader.cnonce, authHeader.nc, authHeader.qop, tx.origin.line.methodName)));
      tx.origin := tx.origin.(authorization := Some(authHeader));
      if tx.origin.line.methodName != Invite {
        tx.origin := tx.origin.(callId := newCallId);
      }
      transactions := transactions + [tx.origin];
      sent := sent + [Outbound(tx.origin, config.serverUrl, config.serverPort)];
    }

    /** Handles a response event by the status code of the transaction's
        last message: a 401 is answered by exactly one retry, every other
        status leaves everything as it was. */
    method HandleResponses(event: SipEvent, md5Challenge: DigestArgs -> string, newCallId: string)
      requires event.transaction.lastMessage.Some?
      modifies this, event.transaction
      ensures old(event.transaction.lastMessage.value.statusCode) == Unauthorized ==>
                Resent(event, md5Challenge, newCallId)
      ensures old(event.transaction.lastMessage.value.statusCode) != Unauthorized ==>
                unchanged(this, event.transaction)
    {
      var tx := event.transaction;
      match ResponseAction(tx.lastMessage.value.statusCode)
      case Resend =>
        HandleUnAuth(event, md5Challenge, newCallId);
      case Ignore =>
    }
  }

  /** A second retry of the same request with the same challenge and the
      same new Call-ID sends the same request again: the nonce count does
      not advance and the old Authorization header is simply replaced. */
  lemma RetryIdempotent(origin: Request, challenge: AuthHeader, config: Config,
                        md5Challenge: DigestArgs -> string, newCallId: string)
    ensures var once := RetryRequest(origin, challenge, config, md5Challenge, newCallId);
            RetryRequest(once, challenge, config, md5Challenge, newCallId) == once
  {
  }

  /** The retried request does not depend on any Authorization header the
      original request already carried. */
  lemma RetryIgnoresPreviousAuth(origin: Request, previous: Option<AuthHeader>, challenge: AuthHeader,
                                 config: Config, md5Challenge: DigestArgs -> string, newCallId: string)
    ensures RetryRequest(origin.(authorization := previous), challenge, config, md5Challenge, newCallId)
         == RetryRequest(origin, challenge, config, md5Challenge, newCallId)
  {
  }

  /** When the generator yields a Call-ID different from the original one,
      the retry carries a different Call-ID exactly when the method is not
      INVITE. */
  lemma CallIdChangesIffNotInvite(origin: Request, challenge: AuthHeader, config: Config,
                                  md5Challenge: DigestArgs -> string, newCallId: string)
    requires newCallId != origin.callId
    ensures RetryRequest(origin, challenge, config, md5Challenge, newCallId).callId != origin.callId
            <==> origin.line.methodName != Invite
  {
  }

  /** A retry keeps a request consistent: CSeq and request line still name
      the same method, To still addresses the From user. */
  lemma RetryPreservesConsistent(origin: Request, challenge: AuthHeader, config: Config,
                                 md5Challenge: DigestArgs -> string, newCallId: string)
    requires Consistent(origin)
    ensures Consistent(RetryRequest(origin, challenge, config, md5Challenge, newCallId))
  {
  }

  /** Registering and answering a challenge: the retried REGISTER carries
      the new Call-ID, keeps the branch, the From tag and CSeq 1, and its
      digest is computed over the bot's credentials, the challenge's realm,
      nonce and qop, the fixed client nonce and nonce count, the URI
      "sip:" + server and the method REGISTER. */
  lemma RegisterRetryScenario(bot: SipBot, branch: string, callId: string, challenge: AuthHeader,
                              md5Challenge: DigestArgs -> string, newCallId: string)
    ensures var r := RetryRequest(bot.GenerateRegister(branch, callId), challenge, bot.config,
                                  md5Challenge, newCallId);
            && r.callId == newCallId
            && r.via.branch == branch && r.from.tag == RegisterFromTag
            && r.cseq == CSeqHeader("1", Register)
            && Consistent(r)
            && r.authorization.Some?
            && r.authorization.value.response
               == md5Challenge(DigestArgs(bot.config.username, challenge.realm, bot.config.password,
                                          "sip:" + bot.config.serverUrl, challenge.nonce,
                                          RetryCNonce, RetryNonceCount, challenge.qop, Register))
  {
  }

  /** Nothing bounds the retries: a transaction whose last message stays a
      401 is answered on every delivery, and the second resend carries the
      same Authorization header and CSeq as the first. */
  method ChallengedTwice(bot: SipBot, tx: ClientTransaction, challenge: Response,
                         md5Challenge: DigestArgs -> string, firstCallId: string, secondCallId: string)
    requires challenge.statusCode == Unauthorized && tx.lastMessage == Some(challenge)
    modifies bot, tx
    ensures |bot.sent| == |old(bot.sent)| + 2 && |bot.transactions| == |old(bot.transactions)| + 2
    ensures var first, second := bot.sent[|bot.sent| - 2].request, bot.sent[|bot.sent| - 1].request;
            && second.authorization == first.authorization
            && second.authorization.Some? && second.authorization.value.nc == RetryNonceCount
            && second.cseq == first.cseq == old(tx.origin).cseq
            && second.via == first.via == old(tx.origin).via
  {
    var event := SipEvent(challenge, tx);
    bot.HandleResponses(event, md5Challenge, firstCallId);
    bot.HandleResponses(event, md5Challenge, secondCallId);
  }
}
