/** Everything the modelled code obtains from libraries or the runtime and
    that this model does not define: Ed25519, SHA-256, base58, UTF-8, JSON
    text, date parsing and locale formatting. They are the fields of one
    value so that every operation receives them as an explicit parameter. */
module Foreign {
  import opened Common
  import opened Wire

  datatype Foreign = Foreign(
    /** `ed.getPublicKeyAsync(secret)` */
    publicKey: seq<Byte> -> seq<Byte>,
    /** `ed.signAsync(message, secret)` */
    sign: (seq<Byte>, seq<Byte>) -> seq<Byte>,
    /** `ed.verifyAsync(signature, message, publicKey)` */
    verify: (seq<Byte>, seq<Byte>, seq<Byte>) -> bool,
    /** `crypto.subtle.digest("SHA-256", data)` */
    sha256: seq<Byte> -> seq<Byte>,
    /** `bs58.decode(text)`, or the message it throws */
    base58Decode: string -> Result<seq<Byte>, string>,
    /** `new TextEncoder().encode(text)` */
    utf8: string -> seq<Byte>,
    /** `JSON.stringify(token)` */
    stringifyToken: Token -> string,
    /** `JSON.stringify(payload)` */
    stringifyPayload: QrPayload -> string,
    /** `JSON.parse(text)` read as a QR payload; `None` when it throws */
    parsePayload: string -> Option<QrPayload>,
    /** `new Date(text).getTime()` in milliseconds; `None` for an invalid date (NaN) */
    parseDate: string -> Option<int>,
    /** `new Date(text).toLocaleString()` */
    localeString: string -> string,
    /** `encodeURIComponent(text)` */
    encodeUri: string -> string,
    /** The message `atob` throws on text that is not base64 */
    atobFailure: string,
    /** The message `ed.signAsync` throws for a secret that is not 32 bytes */
    secretLengthFailure: string
  )

  /** The facts about the libraries that the end-to-end properties rely on:
      a signature made with a 32-byte secret has 64 bytes and verifies under
      its public key (section 5.1 of RFC 8032), public keys are 32 bytes, and
      the JSON text of a payload is not empty and parses back to the payload. */
  ghost predicate Sound(f: Foreign) {
    (forall secret: seq<Byte>, message: seq<Byte> | |secret| == 32 ::
       f.verify(f.sign(message, secret), message, f.publicKey(secret))) &&
    (forall secret: seq<Byte>, message: seq<Byte> | |secret| == 32 :: |f.sign(message, secret)| == 64) &&
    (forall secret: seq<Byte> | |secret| == 32 :: |f.publicKey(secret)| == 32) &&
    (forall p: QrPayload :: f.stringifyPayload(p) != "" && f.parsePayload(f.stringifyPayload(p)) == Some(p))
  }

  /** `u8(JSON.stringify(token))`: the bytes that are signed and verified. */
  function TokenBytes(f: Foreign, token: Token): seq<Byte> {
    f.utf8(f.stringifyToken(token))
  }

  /** The first `n` values a random source yields, as `crypto.getRandomValues`
      or `ed.utils.randomPrivateKey` would deliver them. */
  function RandomBytes(entropy: nat -> Byte, n: nat): (r: seq<Byte>)
    ensures |r| == n && forall i :: 0 <= i < n ==> r[i] == entropy(i)
  {
    seq(n, i requires 0 <= i < n => entropy(i))
  }
}
