/** Values that cross the HTTP boundary between the browser and the edge
    functions: the QR token and payload, request bodies and responses. */
module Wire {
  import opened Common

  /** The QR token `{event, exp, nonce, ver}`. A field the JSON does not
      carry (or carries with another type) is `None`. `exp` is in seconds. */
  datatype Token = Token(event: Option<string>, exp: Option<int>, nonce: Option<string>, ver: Option<int>)

  /** What the QR code carries and what qr-issue returns: `{token, sig, signer}`. */
  datatype QrPayload = QrPayload(token: Option<Token>, sig: Option<string>, signer: Option<string>)

  /** The JSON body the scanner sends to the mint function. */
  datatype MintBody = MintBody(eventId: Option<string>, token: Option<Token>, sig: Option<string>,
                               signer: Option<string>, wallet: Option<string>)

  datatype Method = Get | Post | Options | OtherMethod(name: string)

  /** The authenticated caller as `auth.getUser()` reports it. */
  datatype User = User(id: string, email: Option<string>)

  /** What `supabase.auth.getUser()` reports in the browser: the error it
      returns, no user, or the signed-in user. */
  datatype Session = AuthFailed(message: string) | SignedOut | SignedIn(user: User)

  /** What the browser services throw when there is no signed-in user. */
  const NotSignedIn := "Not signed in"

  /** Response bodies. `Failure` is `{error, detail?}`; `Claimed` is
      `{ok: true, minted_asset}` with `reused: true` added when `reused`. */
  datatype Body =
    | Plain(text: string)
    | Failure(error: string, detail: Option<string>)
    | Claimed(asset: string, reused: bool)
    | Issued(payload: QrPayload)
    | Created(eventId: string, signerKey: string)

  datatype Response = Response(status: int, body: Body)

  /** JavaScript truthiness of an optional string: present and non-empty. */
  predicate Truthy(s: Option<string>) {
    s.Some? && s.value != ""
  }

  function Refusal(status: int, error: string): (r: Response)
    ensures r.status == status && r.body.Failure? && r.body.error == error && r.body.detail == None
  {
    Response(status, Failure(error, None))
  }

  /** The 500 that the catch-all of every edge function returns. */
  function Unhandled(detail: string): (r: Response)
    ensures r.status == 500 && r.body == Failure("Unhandled", Some(detail))
  {
    Response(500, Failure("Unhandled", Some(detail)))
  }

  /** The answer to a CORS preflight. */
  const Preflight := Response(200, Plain("ok"))
}
