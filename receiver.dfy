/**
 * The GitHub webhook receiver: a chain of guards on the request, each ending the call
 * with its own error, and on success the request body unchanged. The signature
 * generator and the JSON decoder are parameters: `sign(body, secret)` is the
 * signature `GenerateSignature` computes, and `decode` is `json.Unmarshal` into a
 * push event, with the decoder's error text on failure.
 */
module Receiver {
  import opened Common
  import opened GitHubEvent

  /** The shared secret and the optional branch the receiver accepts pushes for. */
  datatype GitHubReceiver = GitHubReceiver(secret: string, ref: string)

  /** `NewGitHubReceiver`: both settings are the first values of their query parameters
      (`Get` and `GetFirst`); a missing one is "". */
  function NewGitHubReceiver(uri: Uri): (r: GitHubReceiver)
    ensures r.secret == Get(uri.query, "secret") && r.ref == Get(uri.query, "ref")
    ensures (forall i :: 0 <= i < |uri.query| ==> uri.query[i].0 != "ref") ==> r.ref == ""
    ensures (forall i :: 0 <= i < |uri.query| ==> uri.query[i].0 != "secret") ==> r.secret == ""
  {
    GitHubReceiver(Get(uri.query, "secret"), Get(uri.query, "ref"))
  }

  /** A request as the receiver sees it: the HTTP method, the values of the `X-GitHub-Event` and
      `X-Hub-Signature` headers ("" when absent) and what reading the body gives. */
  datatype Request = Request(httpMethod: string, eventType: string, signature: string, body: Result<Bytes, string>)

  const MethodNotAllowed := WebhookError(Status(405), "Method not allowed")
  const MissingEvent := WebhookError(Status(400), "Bad Request - Missing X-GitHub-Event Header")
  const MissingSignature := WebhookError(Status(403), "Missing X-Hub-Signature required for HMAC verification")
  const Ping := WebhookError(UnhandledEvent, "ping message is a no-op")
  const BadSignature := WebhookError(Status(403), "HMAC verification failed")
  const WrongRef := WebhookError(Status(666), "Invalid ref for commit")

  /** The request passes the header checks: a POST that names its event and carries a
      signature, and whose event is not a ping. */
  predicate WellFormed(req: Request)
  {
    req.httpMethod == "POST" && req.eventType != "" && req.signature != "" && req.eventType != "ping"
  }

  /** The body is signed with the shared secret. */
  predicate Signed(wh: GitHubReceiver, req: Request, sign: (Bytes, string) -> string)
  {
    req.body.Ok? && sign(req.body.value, wh.secret) == req.signature
  }

  /** The push is for the configured branch, or no branch is configured. */
  predicate OnBranch(wh: GitHubReceiver, body: Bytes, decode: Bytes -> Result<PushEvent, string>)
  {
    wh.ref == "" || (decode(body).Ok? && decode(body).value.ref == Ascii(wh.ref))
  }

  /** `Receive`. A cancelled context gives no body and no error. Otherwise the checks run
      in order: the method, the event header, the signature header, the ping event, the
      body read, the signature, and, when a branch is configured, the push's ref. */
  function Receive(wh: GitHubReceiver, cancelled: bool, req: Request,
                   sign: (Bytes, string) -> string, decode: Bytes -> Result<PushEvent, string>)
    : (r: Result<Bytes, WebhookError>)
    ensures cancelled ==> r == Ok([])
    ensures !cancelled ==>
              (r.Ok? <==> WellFormed(req) && Signed(wh, req, sign) && OnBranch(wh, req.body.value, decode))
    ensures !cancelled && r.Ok? ==> r.value == req.body.value
    ensures !cancelled && req.httpMethod != "POST" ==> r == Err(MethodNotAllowed)
    ensures !cancelled && req.httpMethod == "POST" && req.eventType == "" ==> r == Err(MissingEvent)
    ensures !cancelled && req.httpMethod == "POST" && req.eventType != "" && req.signature == "" ==>
              r == Err(MissingSignature)
    ensures !cancelled && req.httpMethod == "POST" && req.eventType == "ping" && req.signature != "" ==>
              r == Err(Ping)
    ensures !cancelled && WellFormed(req) && req.body.Err? ==>
              r == Err(WebhookError(Status(500), req.body.error))
    ensures !cancelled && WellFormed(req) && req.body.Ok? && !Signed(wh, req, sign) ==> r == Err(BadSignature)
  {
    if cancelled then Ok([])
    else if req.httpMethod != "POST" then Err(MethodNotAllowed)
    else if req.eventType == "" then Err(MissingEvent)
    else if req.signature == "" then Err(MissingSignature)
    else if req.eventType == "ping" then Err(Ping)
    else match req.body
      case Err(e) => Err(WebhookError(Status(500), e))
      case Ok(body) =>
        if sign(body, wh.secret) != req.signature then Err(BadSignature)
        else if wh.ref == "" then Ok(body)
        else match decode(body)
          case Err(e) => Err(WebhookError(Status(999), e))
          case Ok(ev) => if ev.ref != Ascii(wh.ref) then Err(WrongRef) else Ok(body)
  }

  /** With a branch configured, a signed body that does not decode is error 999 with the
      decoder's text, and a push for another branch is error 666. */
  lemma BranchChecks(wh: GitHubReceiver, req: Request, sign: (Bytes, string) -> string,
                     decode: Bytes -> Result<PushEvent, string>)
    requires wh.ref != "" && WellFormed(req) && Signed(wh, req, sign)
    ensures decode(req.body.value).Err? ==>
              Receive(wh, false, req, sign, decode) == Err(WebhookError(Status(999), decode(req.body.value).error))
    ensures decode(req.body.value).Ok? && decode(req.body.value).value.ref != Ascii(wh.ref) ==>
              Receive(wh, false, req, sign, decode) == Err(WrongRef)
  {
  }

  /** With no branch configured the body is never decoded: the result does not depend on
      the decoder. */
  lemma NoBranchNoDecode(wh: GitHubReceiver, cancelled: bool, req: Request, sign: (Bytes, string) -> string,
                         decode1: Bytes -> Result<PushEvent, string>, decode2: Bytes -> Result<PushEvent, string>)
    requires wh.ref == ""
    ensures Receive(wh, cancelled, req, sign, decode1) == Receive(wh, cancelled, req, sign, decode2)
  {
  }

  /** A ping is answered before the body is read or the signature checked: neither the
      body, nor the signature generator, nor the decoder can change the answer. */
  lemma PingIgnoresBody(wh: GitHubReceiver, req: Request, body: Result<Bytes, string>,
                        sign1: (Bytes, string) -> string, sign2: (Bytes, string) -> string,
                        decode1: Bytes -> Result<PushEvent, string>, decode2: Bytes -> Result<PushEvent, string>)
    requires req.httpMethod == "POST" && req.eventType == "ping" && req.signature != ""
    ensures Receive(wh, false, req, sign1, decode1) == Receive(wh, false, req.(body := body), sign2, decode2)
    ensures Receive(wh, false, req, sign1, decode1) == Err(Ping)
  {
  }
}
