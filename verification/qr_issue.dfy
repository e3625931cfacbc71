/** The qr-issue edge function: for a live request it looks up the event
    and its signer row, builds a fresh token, signs the SHA-256 digest of the
    token's JSON with the event's secret and returns `{token, sig, signer}`. */
module QrIssue {
  import opened Common
  import Base64
  import opened Wire
  import opened Foreign
  import opened Store

  /** The token lifetime in seconds. */
  const TtlSeconds := 1000

  /** `randNonce()` on the bytes the random source delivered. */
  function NonceText(bytes: seq<Byte>): string {
    Base64.TrimTrailingPad(Base64.Encode(bytes))
  }

  /** `randNonce()`: twelve random bytes written into a fresh buffer, then
      base64 with the trailing '=' removed. */
  method RandNonce(entropy: nat -> Byte) returns (nonce: string)
    ensures nonce == NonceText(RandomBytes(entropy, 12))
  {
    var a := new Byte[12];
    for i := 0 to 12
      invariant forall k :: 0 <= k < i ==> a[k] == entropy(k)
    {
      a[i] := entropy(i);
    }
    assert a[..] == RandomBytes(entropy, 12);
    nonce := Base64.TrimTrailingPad(Base64.Encode(a[..]));
  }

  /** Twelve bytes make 16 base64 characters with no padding, so the nonce
      is the padding-free base64 of the bytes and decodes back to them. */
  lemma NonceShape(bytes: seq<Byte>)
    requires |bytes| == 12
    ensures NonceText(bytes) == Base64.Encode(bytes)
    ensures |NonceText(bytes)| == 16 && Base64.AllAlphabet(NonceText(bytes))
    ensures forall i :: 0 <= i < |NonceText(bytes)| ==> NonceText(bytes)[i] != '='
    ensures Base64.Decode(NonceText(bytes)) == Some(bytes)
  {
    var u := Base64.EncodeUnpadded(bytes);
    Base64.EncodeUnpaddedLength(bytes);
    assert |u| == 16;
    assert Base64.Encode(bytes) == u + "" == u;
    assert Base64.IsAlphabetChar(u[15]);
    assert Base64.TrimTrailingPad(u) == u;
    Base64.RoundTrip(bytes);
  }

  /** The token issued at `nowMs` with the given nonce. */
  function IssuedToken(eventId: string, nowMs: int, nonce: string): (t: Token)
    ensures t.exp.Some? && t.exp.value > nowMs / 1000
  {
    Token(Some(eventId), Some(nowMs / 1000 + TtlSeconds), Some(nonce), Some(1))
  }

  /** The issued expiry lies after the issue time, in seconds and in milliseconds. */
  lemma ExpiryAfterIssue(eventId: string, nowMs: int, nonce: string)
    ensures IssuedToken(eventId, nowMs, nonce).exp.value * 1000 > nowMs
  {
    var q := nowMs / 1000;
    assert nowMs == q * 1000 + nowMs % 1000;
    assert (q + TtlSeconds) * 1000 == q * 1000 + 1000000;
  }

  /** What the handler takes from its environment: the clock and the random source. */
  datatype IssueEnv = IssueEnv(nowMs: int, entropy: nat -> Byte)

  /** The response of qr-issue. */
  function Issue(f: Foreign, events: map<string, EventRow>, qrKeys: map<string, KeyRow>,
                 verb: Method, eventId: Option<string>, env: IssueEnv): Response
  {
    if verb == Options then Preflight
    else if verb != Get then Refusal(405, "Method Not Allowed")
    else if !Truthy(eventId) then Refusal(400, "event_id required")
    else if eventId.value !in events then Refusal(404, "event missing")
    else if eventId.value !in qrKeys then Refusal(404, "qr signer missing")
    else SignedToken(f, eventId.value, qrKeys[eventId.value], env)
  }

  /** The last steps of qr-issue once the signer row is found: build the
      token, digest its JSON, decode the secret and sign. */
  function SignedToken(f: Foreign, id: string, keyRow: KeyRow, env: IssueEnv): Response {
    var token := IssuedToken(id, env.nowMs, NonceText(RandomBytes(env.entropy, 12)));
    var digest := f.sha256(TokenBytes(f, token));
    match Base64.Decode(keyRow.secretB64)
    case None => Unhandled(f.atobFailure)
    case Some(secret) =>
      if |secret| != 32 then Unhandled(f.secretLengthFailure)
      else Response(200, Issued(QrPayload(Some(token), Some(Base64.Encode(f.sign(digest, secret))),
                                          Some(keyRow.publicKey))))
  }

  /** The qr-issue handler, step by step. It reads the datastore and writes nothing. */
  method Serve(f: Foreign, db: Database, verb: Method, eventId: Option<string>, env: IssueEnv)
    returns (resp: Response)
    ensures resp == Issue(f, db.events, db.qrKeys, verb, eventId, env)
  {
    if verb == Options {
      return Preflight;
    }
    if verb != Get {
      return Refusal(405, "Method Not Allowed");
    }
    if !Truthy(eventId) {
      return Refusal(400, "event_id required");
    }
    var id := eventId.value;
    if id !in db.events {
      return Refusal(404, "event missing");
    }
    if id !in db.qrKeys {
      return Refusal(404, "qr signer missing");
    }
    resp := Sign(f, id, db.qrKeys[id], env);
  }

  /** Token construction and signing, as the handler performs them. */
  method Sign(f: Foreign, id: string, keyRow: KeyRow, env: IssueEnv) returns (resp: Response)
    ensures resp == SignedToken(f, id, keyRow, env)
  {
    var now := env.nowMs / 1000;
    var exp := now + TtlSeconds;
    var nonce := RandNonce(env.entropy);
    var token := Token(Some(id), Some(exp), Some(nonce), Some(1));
    assert token == IssuedToken(id, env.nowMs, nonce);
    var message := TokenBytes(f, token);
    var digest := f.sha256(message);
    var secret := Base64.Decode(keyRow.secretB64);
    if secret.None? {
      return Unhandled(f.atobFailure);
    }
    if |secret.value| != 32 {
      return Unhandled(f.secretLengthFailure);
    }
    var sig := f.sign(digest, secret.value);
    return Response(200, Issued(QrPayload(Some(token), Some(Base64.Encode(sig)), Some(keyRow.publicKey))));
  }

  /** Preflight, method and parameter checks come before any lookup. */
  lemma RequestChecksFirst(f: Foreign, events: map<string, EventRow>, qrKeys: map<string, KeyRow>,
                           verb: Method, eventId: Option<string>, env: IssueEnv)
    ensures verb == Options ==> Issue(f, events, qrKeys, verb, eventId, env) == Preflight
    ensures verb != Options && verb != Get ==>
      Issue(f, events, qrKeys, verb, eventId, env) == Refusal(405, "Method Not Allowed")
    ensures verb == Get && !Truthy(eventId) ==>
      Issue(f, events, qrKeys, verb, eventId, env) == Refusal(400, "event_id required")
  {
  }

  /** The event is looked up before its signer row. */
  lemma LookupOrder(f: Foreign, events: map<string, EventRow>, qrKeys: map<string, KeyRow>,
                    id: string, env: IssueEnv)
    requires id != ""
    ensures id !in events ==> Issue(f, events, qrKeys, Get, Some(id), env) == Refusal(404, "event missing")
    ensures id in events && id !in qrKeys ==>
      Issue(f, events, qrKeys, Get, Some(id), env) == Refusal(404, "qr signer missing")
  {
  }

  /** With a stored secret that decodes to 32 bytes, the signed response
      carries the issued token, its signature and the stored public key. */
  lemma SignedTokenOk(f: Foreign, id: string, keyRow: KeyRow, env: IssueEnv, secret: seq<Byte>)
    requires Base64.Decode(keyRow.secretB64) == Some(secret) && |secret| == 32
    ensures var token := IssuedToken(id, env.nowMs, NonceText(RandomBytes(env.entropy, 12)));
      SignedToken(f, id, keyRow, env) ==
        Response(200, Issued(QrPayload(Some(token), Some(Base64.Encode(f.sign(f.sha256(TokenBytes(f, token)), secret))),
                                       Some(keyRow.publicKey))))
  {
  }

  /** A successful response carries exactly `{event, exp: now + 1000, nonce, ver: 1}`
      and the base64 of its signature, made over the SHA-256 digest of the
      token's JSON with the stored 32-byte secret, and names the stored
      public key as signer. */
  lemma IssuedPayload(f: Foreign, events: map<string, EventRow>, qrKeys: map<string, KeyRow>,
                      id: string, env: IssueEnv)
    requires Issue(f, events, qrKeys, Get, Some(id), env).status == 200
    ensures id != "" && id in events && id in qrKeys
    ensures var secret := Base64.Decode(qrKeys[id].secretB64);
      var token := Token(Some(id), Some(env.nowMs / 1000 + 1000), Some(NonceText(RandomBytes(env.entropy, 12))), Some(1));
      secret.Some? && |secret.value| == 32 &&
      Issue(f, events, qrKeys, Get, Some(id), env) ==
        Response(200, Issued(QrPayload(Some(token), Some(Base64.Encode(f.sign(f.sha256(TokenBytes(f, token)), secret.value))),
                                       Some(qrKeys[id].publicKey))))
  {
    IssueReachesSigning(f, events, qrKeys, id, env);
    SignedPayload(f, id, qrKeys[id], env);
  }

  /** A 200 from the signing step has a 32-byte secret and the signed payload. */
  lemma SignedPayload(f: Foreign, id: string, keyRow: KeyRow, env: IssueEnv)
    requires SignedToken(f, id, keyRow, env).status == 200
    ensures var secret := Base64.Decode(keyRow.secretB64);
      var token := Token(Some(id), Some(env.nowMs / 1000 + 1000), Some(NonceText(RandomBytes(env.entropy, 12))), Some(1));
      secret.Some? && |secret.value| == 32 &&
      SignedToken(f, id, keyRow, env) ==
        Response(200, Issued(QrPayload(Some(token), Some(Base64.Encode(f.sign(f.sha256(TokenBytes(f, token)), secret.value))),
                                       Some(keyRow.publicKey))))
  {
    SignedTokenStatus(f, id, keyRow, env);
    SignedTokenOk(f, id, keyRow, env, Base64.Decode(keyRow.secretB64).value);
  }

  /** A 200 from qr-issue comes from the signing step for a known event and signer. */
  lemma IssueReachesSigning(f: Foreign, events: map<string, EventRow>, qrKeys: map<string, KeyRow>,
                            id: string, env: IssueEnv)
    requires Issue(f, events, qrKeys, Get, Some(id), env).status == 200
    ensures id != "" && id in events && id in qrKeys &&
      Issue(f, events, qrKeys, Get, Some(id), env) == SignedToken(f, id, qrKeys[id], env)
  {
  }

  /** Only a stored secret that decodes to 32 bytes lets the signing step answer 200. */
  lemma SignedTokenStatus(f: Foreign, id: string, keyRow: KeyRow, env: IssueEnv)
    ensures SignedToken(f, id, keyRow, env).status == 200 ==>
      Base64.Decode(keyRow.secretB64).Some? && |Base64.Decode(keyRow.secretB64).value| == 32
  {
  }

  /** The signature of a successful response decodes to the signature of
      the digest of its token's JSON, and its nonce is 16 base64 characters
      without padding. */
  lemma IssuedSignature(f: Foreign, events: map<string, EventRow>, qrKeys: map<string, KeyRow>,
                        id: string, env: IssueEnv)
    requires Issue(f, events, qrKeys, Get, Some(id), env).status == 200
    ensures var p := Issue(f, events, qrKeys, Get, Some(id), env).body.payload;
      p.token.Some? && p.token.value.nonce.Some? && p.sig.Some? &&
      Base64.Decode(p.sig.value) ==
        Some(f.sign(f.sha256(TokenBytes(f, p.token.value)), Base64.Decode(qrKeys[id].secretB64).value)) &&
      |p.token.value.nonce.value| == 16 && forall i :: 0 <= i < 16 ==> p.token.value.nonce.value[i] != '='
  {
    IssuedPayload(f, events, qrKeys, id, env);
    var secret := Base64.Decode(qrKeys[id].secretB64).value;
    var token := IssuedToken(id, env.nowMs, NonceText(RandomBytes(env.entropy, 12)));
    Base64.RoundTrip(f.sign(f.sha256(TokenBytes(f, token)), secret));
    NonceShape(RandomBytes(env.entropy, 12));
  }

  /** `starts_at` and `ends_at` are fetched but never checked: the response
      does not depend on the event's times. */
  lemma WindowNotChecked(f: Foreign, events: map<string, EventRow>, qrKeys: map<string, KeyRow>,
                         verb: Method, id: string, row: EventRow, env: IssueEnv)
    requires id in events
    ensures Issue(f, events[id := row], qrKeys, verb, Some(id), env) == Issue(f, events, qrKeys, verb, Some(id), env)
  {
  }
}
