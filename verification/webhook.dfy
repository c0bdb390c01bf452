/** Result delivery: inline, or by a POST to a caller-supplied callback URL
    that degrades to inline delivery with an error note when it fails. */
module Webhook {
  import opened Wrappers
  import opened Strings
  import opened Collaborators

  const ContentType: string := "Content-Type"
  const SignatureHeader: string := "X-Signature"
  const JsonMediaType: string := "application/json"

  /** At most this many characters of a delivery error are reported. */
  const ErrorNoteLimit: nat := 200

  /** How a signature is produced. `HmacSha256` holds the hex HMAC-SHA256 of a
      body under a secret; `Unavailable` stands for a module in which the HMAC
      library was never imported, so computing a signature raises. */
  datatype Signer = HmacSha256(hexDigest: (string, string) -> string) | Unavailable

  /** What `str(e)` gives for the `NameError` raised by using `hmac` unimported. */
  const HmacNotDefined: Failure := Failure("name 'hmac' is not defined")

  /** The webhook configuration and transport: the optional shared secret, the
      signer, and the HTTP POST (with `raise_for_status`), which yields `Pass`
      for a 2xx answer and the raised failure otherwise. */
  datatype WebhookEnv = WebhookEnv(
    secret: Option<string>,
    signer: Signer,
    post: (string, string, map<string, string>) -> Outcome)

  /** `_sign_payload`: `"sha256=" + hex`. */
  function SignPayload(hexDigest: (string, string) -> string, secret: string, body: string): (r: string)
    ensures StartsWith(r, "sha256=")
    ensures r[7..] == hexDigest(secret, body)
  {
    "sha256=" + hexDigest(secret, body)
  }

  /** The request headers: JSON content type always, the signature exactly
      when a secret is configured. */
  function Headers(secret: Option<string>, hexDigest: (string, string) -> string, body: string): (h: map<string, string>)
    ensures ContentType in h && h[ContentType] == JsonMediaType
    ensures SignatureHeader in h <==> Truthy(secret)
    ensures Truthy(secret) ==> h[SignatureHeader] == SignPayload(hexDigest, secret.value, body)
    ensures h.Keys <= {ContentType, SignatureHeader}
  {
    var base := map[ContentType := JsonMediaType];
    if Truthy(secret) then base[SignatureHeader := SignPayload(hexDigest, secret.value, body)] else base
  }

  /** The digest function a signer computes with; an unavailable signer is
      never asked for one, as signing fails before. */
  function DigestOf(signer: Signer): (string, string) -> string {
    if signer.HmacSha256? then signer.hexDigest else (k: string, b: string) => ""
  }

  /** The outcome of one `_post_webhook` and the POSTs it issued. */
  datatype Attempt = Attempt(outcome: Outcome, posts: seq<Call>)

  /** `_post_webhook`: build the headers, then POST once. With an unavailable
      signer and a secret set, the signing step raises before any POST. */
  function PostWebhook(url: string, body: string, env: WebhookEnv): (a: Attempt)
    ensures |a.posts| <= 1
    ensures a.posts == [] <==> Truthy(env.secret) && env.signer.Unavailable?
    ensures a.posts == [] ==> a.outcome == Fail(HmacNotDefined)
    ensures a.posts != [] ==>
              a.posts[0].PostCall? && a.posts[0].url == url && a.posts[0].body == body &&
              ContentType in a.posts[0].headers && a.posts[0].headers[ContentType] == JsonMediaType &&
              (SignatureHeader in a.posts[0].headers <==> Truthy(env.secret)) &&
              a.outcome == env.post(url, body, a.posts[0].headers)
    ensures a.posts != [] ==> a.posts[0].headers == Headers(env.secret, DigestOf(env.signer), body)
  {
    if Truthy(env.secret) && env.signer.Unavailable? then
      Attempt(Fail(HmacNotDefined), [])
    else
      var headers := Headers(env.secret, DigestOf(env.signer), body);
      Attempt(env.post(url, body, headers), [PostCall(url, body, headers)])
  }

  /** What the entry point returns after the result is built: `{accepted, job_id}`
      when the callback took it, otherwise the result itself, annotated with
      `callback_error` when a callback was attempted and failed. */
  datatype Delivery<R> = Accepted(jobId: string) | Inline(result: R, callbackError: Option<string>)

  datatype Dispatched<R> = Dispatched(delivery: Delivery<R>, posts: seq<Call>)

  /** The accepted-or-inline rule. The body is the serialisation of the result
      without the error note, as the note is added only after the POST failed. */
  function Deliver<R>(callbackUrl: Option<string>, jobId: string, result: R,
                      serialize: R -> string, env: WebhookEnv): (d: Dispatched<R>)
    ensures |d.posts| <= 1
    ensures !Truthy(callbackUrl) ==> d == Dispatched(Inline(result, None), [])
    ensures Truthy(callbackUrl) ==>
              var a := PostWebhook(callbackUrl.value, serialize(result), env);
              d.posts == a.posts &&
              (d.delivery.Accepted? <==> a.outcome.Pass?) &&
              (a.outcome.Fail? ==>
                 d.delivery.Inline? && d.delivery.callbackError == Some(Take(a.outcome.failure.message, ErrorNoteLimit)) &&
                 |d.delivery.callbackError.value| <= ErrorNoteLimit &&
                 StartsWith(a.outcome.failure.message, d.delivery.callbackError.value) &&
                 (|a.outcome.failure.message| <= ErrorNoteLimit ==>
                    d.delivery.callbackError.value == a.outcome.failure.message))
    ensures d.delivery.Accepted? ==> d.delivery.jobId == jobId && Truthy(callbackUrl)
    ensures d.delivery.Inline? ==> d.delivery.result == result
  {
    if !Truthy(callbackUrl) then
      Dispatched(Inline(result, None), [])
    else
      var a := PostWebhook(callbackUrl.value, serialize(result), env);
      match a.outcome
      case Pass => Dispatched(Accepted(jobId), a.posts)
      case Fail(f) => Dispatched(Inline(result, Some(Take(f.message, ErrorNoteLimit))), a.posts)
  }
}
