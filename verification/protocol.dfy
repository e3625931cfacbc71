/** The claim protocol end to end: an event created by events-create gets
    a QR payload from qr-issue; the display encodes it as JSON text, the
    scanner parses the text back and sends the mint body; the mint function
    admits that body while the event is live and the token is fresh. */
module Protocol {
  import opened Common
  import Base64
  import Hex
  import opened Wire
  import opened Foreign
  import opened Store
  import MintKeys
  import Mint
  import QrIssue
  import EventsCreate
  import Scan
  import RotatingQr

  /** The payload qr-issue returns for event `id` whose signer secret is `sk`. */
  function IssuedQr(f: Foreign, id: string, sk: seq<Byte>, env: QrIssue.IssueEnv): QrPayload {
    var token := QrIssue.IssuedToken(id, env.nowMs, QrIssue.NonceText(RandomBytes(env.entropy, 12)));
    QrPayload(Some(token), Some(Base64.Encode(f.sign(f.sha256(TokenBytes(f, token)), sk))),
              Some(Hex.Encode(f.publicKey(sk))))
  }

  /** For an event whose signer row events-create stored, qr-issue answers
      200 with the payload signed by that event's secret. */
  lemma IssueSucceeds(f: Foreign, events: map<string, EventRow>, qrKeys: map<string, KeyRow>,
                      id: string, sk: seq<Byte>, env: QrIssue.IssueEnv)
    requires |sk| == 32 && id != "" && id in events && id in qrKeys
    requires qrKeys[id] == EventsCreate.SignerRow(f, sk)
    ensures QrIssue.Issue(f, events, qrKeys, Get, Some(id), env) == Response(200, Issued(IssuedQr(f, id, sk, env)))
  {
    Base64.RoundTrip(sk);
  }

  /** The issued payload carries every field the scanner requires. */
  lemma IssuedIsComplete(f: Foreign, id: string, sk: seq<Byte>, env: QrIssue.IssueEnv)
    requires Sound(f) && |sk| == 32 && id != ""
    ensures Scan.Complete(IssuedQr(f, id, sk, env))
  {
    var token := QrIssue.IssuedToken(id, env.nowMs, QrIssue.NonceText(RandomBytes(env.entropy, 12)));
    var sig := f.sign(f.sha256(TokenBytes(f, token)), sk);
    Base64.EncodeShape(sig);
    Hex.EncodeShape(f.publicKey(sk));
  }

  /** Scanning the JSON text of a complete payload with a wallet sends the
      mint body built from that payload. */
  lemma ScanSendsPayload(f: Foreign, p: QrPayload, wallet: string, reply: Scan.MintReply)
    requires Sound(f) && Scan.Complete(p) && wallet != ""
    ensures Scan.HandleScanStep(f, f.stringifyPayload(p), Some(wallet), reply).sent ==
            Some(Scan.MintRequest(p, wallet))
  {
  }

  /** The mint function admits the body the scanner sends for a payload
      qr-issue issued, when the event is live at the mint's second and the
      mint happens no later than the token's expiry second. */
  lemma IssuedBodyAdmitted(f: Foreign, events: map<string, EventRow>, qrKeys: map<string, KeyRow>,
                           id: string, sk: seq<Byte>, env: QrIssue.IssueEnv, wallet: string, user: User, nowMs: int)
    requires Sound(f) && |sk| == 32 && id != "" && wallet != ""
    requires id in events && id in qrKeys && qrKeys[id] == EventsCreate.SignerRow(f, sk)
    requires !Mint.OutsideWindow(nowMs / 1000, Mint.Seconds(f, events[id].startsAt), Mint.Seconds(f, events[id].endsAt))
    requires nowMs / 1000 <= env.nowMs / 1000 + QrIssue.TtlSeconds
    ensures Scan.Complete(IssuedQr(f, id, sk, env)) &&
      Mint.Gate(f, Some(user), Ok(Scan.MintRequest(IssuedQr(f, id, sk, env), wallet)), events, qrKeys, nowMs) ==
      Mint.Admit(id, wallet, events[id])
  {
    IssuedIsComplete(f, id, sk, env);
    var p := IssuedQr(f, id, sk, env);
    var token := p.token.value;
    var pk := f.publicKey(sk);
    var signature := f.sign(f.sha256(TokenBytes(f, token)), sk);
    Base64.RoundTrip(signature);
    MintKeys.HexKeyRoundTrip(f, pk);
    assert Mint.SignatureValid(f, signature, TokenBytes(f, token), pk);
    assert Mint.SameSigner(f, qrKeys[id].publicKey, p.signer.value, pk);
  }

  /** Fetched at the moment it is issued, the token shows 1000 seconds to live. */
  lemma FreshTokenTtl(f: Foreign, id: string, sk: seq<Byte>, env: QrIssue.IssueEnv)
    ensures RotatingQr.TtlOf(IssuedQr(f, id, sk, env), env.nowMs) == QrIssue.TtlSeconds
  {
  }

  /** While the display's countdown is positive, the mint function does not
      reject the token as expired. */
  lemma PositiveTtlNotExpired(p: QrPayload, nowMs: int)
    requires RotatingQr.TtlOf(p, nowMs) > 0
    ensures p.token.Some? && !Mint.Expired(nowMs / 1000, p.token.value.exp)
  {
  }
}
