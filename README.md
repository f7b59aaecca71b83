# gosipbot: the digest-authentication retry, modelled in Dafny

gosipbot is a SIP user agent. It sends one REGISTER to a registrar. When
the registrar answers 401 Unauthorized, it answers the challenge by
resending the request with a digest Authorization header. While it runs,
it offers a small operator console. This project models the bot's own
logic in `main.go` and proves properties of that model:

- `sip_message.dfy` (module `SipMessage`): the request and response
  values. A request has a request line, Via, To, From, Contact, Call-ID,
  CSeq, Max-Forwards, Content-Length and an optional Authorization header.
  The module also has the positional message constructor and a
  consistency predicate: CSeq names the request's method, and To
  addresses the From user.
- `sip_stack.dfy` (module `SipStack`): the parts of the SIP library the
  handlers touch. A client transaction is a class, since a handler
  rewrites its origin request in place. The module also has the handler
  event, the record of one send, and the argument list of the library's
  MD5 digest function.
- `bot.dfy` (module `Bot`): the `SipBot` class. `HandleResponses`
  dispatches on the status code of the transaction's last message.
  `HandleUnAuth` rewrites the origin request and resends it.
  `GenerateRegister` builds the initial REGISTER. The pure functions
  `RetriedAuth` and `RetryRequest` specify the retry, and the lemmas
  state its properties.
- `console.dfy` (module `Console`): the `exit` / blank / other command
  loop, as a method over the commands read.

The model follows the code as written:

- The client nonce is the literal `nwqlcqw80wnf`, on every retry.
- The nonce count is the literal `00000001`, on every retry.
- The Via branch and the CSeq are kept on retry.
- Only status 401 triggers a retry. 407 and every other status are
  ignored.
- Nothing counts retries. Each 401 causes exactly one resend, and
  `ChallengedTwice` shows a second 401 being answered the same way.
- The From tag of the REGISTER is the literal `3234jhf23`.

Digest authentication (RFC 7616) expects a fresh client nonce and an
increasing nonce count. SIP (RFC 3261) expects a fresh Via branch per
transaction and answers 407 Proxy Authentication Required as well. The
code does none of this and bounds no retry, so the model does not either.

The library calls with hidden bodies are parameters:

- `authentication.MD5Challenge` is a total function `DigestArgs -> string`.
- `GenerateNewCallID` is a `newCallId` string parameter.
- `GenerateBranchID` is a `branch` string parameter.

So the model states that the digest response is exactly the library
function applied to the listed values. It makes no claim about the
digest arithmetic.

## Model

| member | source | states |
|---|---|---|
| `Bot.ResponseAction` | main.go:32-36 | A response is answered with a retry if and only if the status code is 401. Every other status, 407 and 2xx included, is ignored. |
| `Bot.SipBot.HandleResponses` | main.go:27-37 | If the transaction's last status is 401, the bot performs exactly one retry (`Resent`). Otherwise the bot and the transaction are unchanged. Requires that the transaction has a last message, as the code dereferences it. |
| `Bot.RetriedAuth` | main.go:48-55 | The retry's Authorization header has cnonce `nwqlcqw80wnf`, nc `00000001`, the bot's username and uri `"sip:" + serverUrl`. Its realm, nonce and qop are those of the challenge. Its response is the MD5Challenge function applied to (username, realm, password, uri, nonce, cnonce, nc, qop, the origin request's method). |
| `Bot.RetryRequest` | main.go:46-59 | The retried request carries that Authorization header. Its Call-ID is the new one when the method is not INVITE and the original one for INVITE. Request line, Via (branch included), To, From, Contact, CSeq, Max-Forwards and Content-Length are unchanged. |
| `Bot.SipBot.HandleUnAuth` | main.go:43-64 | The transaction's origin request is rewritten in place to `RetryRequest` of its old value and the challenge. The transaction's last message is kept. Exactly one client transaction is opened for the rewritten request, and exactly one send of it goes to (serverUrl, serverPort). |
| `Bot.SipBot.GenerateRegister` | main.go:82-96 | The REGISTER's request line has method REGISTER, scheme sip, the bot's username, serverUrl and serverPort. Via is udp to localIp:localPort with the generated branch. From carries tag `3234jhf23`. To has the same user, scheme, host and port as From. Contact is localIp:localPort. It has the generated Call-ID, CSeq `1 REGISTER`, Max-Forwards `70`, Content-Length `0` and no Authorization header, and it is consistent. The field equalities place each argument of the message constructor call at main.go:95 (request line, Via, To, From, Contact, Call-ID, CSeq, Max-Forwards, Content-Length). |
| `Bot.RetryIdempotent` | main.go:49-59 | Retrying an already retried request with the same challenge and Call-ID gives the same request. The Authorization header is replaced, and the nonce count never advances. |
| `Bot.RetryIgnoresPreviousAuth` | main.go:49-56 | The retried request does not depend on whatever Authorization header the original carried. The header is built from the challenge alone. |
| `Bot.CallIdChangesIffNotInvite` | main.go:57-59 | Given a new Call-ID different from the old one, the retry's Call-ID differs from the original if and only if the method is not INVITE. |
| `Bot.RetryPreservesConsistent` | main.go:56-59 | A retry keeps a consistent request consistent. |
| `Bot.RegisterRetryScenario` | main.go:82-97 | Retrying the initial REGISTER gives the new Call-ID. It keeps the branch, the From tag and CSeq `1 REGISTER`, and it stays consistent. Its digest is computed over the bot's credentials, the challenge's realm, nonce and qop, the fixed cnonce and nc, `"sip:" + serverUrl` and method REGISTER. |
| `Bot.ChallengedTwice` | main.go:32-63 | Two deliveries of a 401 on the same transaction give two sends and two new transactions. The two resent requests carry the same Authorization header (nc still `00000001`) and the original CSeq and Via. |
| `Bot.SipBot.constructor` | main.go:100-107 | A bot starts with its configuration, no opened transactions and nothing sent. |
| `Console.Reply` | main.go:142-150 | `exit` writes `Exiting...`. A blank command writes nothing. Any other command writes `Unknown command`. |
| `Console.CommandLoop` | main.go:134-151 | The loop stops with `alive` false right after the first `exit`, with no earlier `exit` read. If the input has no `exit`, it reads all of it and `alive` stays true. What it writes is the prompt plus the reply for each command read, in order. |
| `Console.UnknownNoticeIff` | main.go:148-149 | `Unknown command` is written if and only if some command read is neither `exit` nor blank. |
| `Console.PromptPerCommand` | main.go:138-140 | Exactly one prompt is written per command read. |

## Left out

- Transport and stack lifecycle (main.go:108-133): creating the listening
  point, starting and stopping the stack, and sending the first REGISTER
  through the listening point. This is I/O through a library not
  modelled here.
- The signal-handling goroutine and the two-second start-up sleep
  (main.go:118-128): concurrency and timing.
- The bodies of `MD5Challenge`, `GenerateBranchID` and `GenerateNewCallID`:
  foreign calls, taken as parameters. The model does not state that
  generated identifiers are fresh or unique.
- Message serialisation and parsing (`register.String()`, the raw source
  of an event): library code.
- The log-only handlers `HandleRequests`, `onInvite`, `onAck`, `onCancel`,
  `onBye`, and the diagnostic prints in `HandleResponses`: they only print
  and change no state.
- Bot.SipBot.HandleUnAuth: no new client transaction object is created.
  In Go the new transaction shares the origin request object with the
  old one; the model only appends the rewritten request value to
  `transactions`. It does not model the library's transaction table or
  its retransmission.
- Bot.SipBot.HandleResponses: requires that the transaction has a last
  message, and the event's transaction is never null. For a response
  event without either, the Go code would panic on a nil dereference
  (main.go:31-32); the model does not represent that panic.
- Challenge parameters other than the eight the code reads or sets
  (main.go:51-55) are not modelled. `authHeader := response.Auth`
  (main.go:49) copies whatever else the library's header carries, such
  as an algorithm or opaque parameter if it has them, into the retry.
- Console.CommandLoop: input is a finite sequence of commands, each the
  value `fmt.Scanln` stores. At end of input the model stops with `alive`
  still true. The Go loop would keep reading blank commands and prompting
  forever. How Scanln splits a line of several words is not modelled.
- A 401 response without a challenge: in Go, `response.Auth` is then a
  zero-valued header. The model represents that as an `AuthHeader`
  with empty strings, and the retry proceeds with empty realm, nonce
  and qop, as the code does.
