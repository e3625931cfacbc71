/** The mint edge function: the ordered gate that admits a scanned QR
    payload, the idempotent claim ledger keyed by (event, wallet), the
    ledger mint and the classification of insert errors. */
module Mint {
  import opened Common
  import Base64
  import opened Wire
  import opened Foreign
  import opened Store
  import opened MintKeys

  /** `!event_id || !token || !sig || !signer || !wallet_pubkey` fails. */
  predicate HasFields(b: MintBody) {
    Truthy(b.eventId) && b.token.Some? && Truthy(b.sig) && Truthy(b.signer) && Truthy(b.wallet)
  }

  /** `Math.floor(new Date(text).getTime() / 1000)`; `None` stands for NaN. */
  function Seconds(f: Foreign, text: string): Option<int> {
    match f.parseDate(text)
    case None => None
    case Some(ms) => Some(ms / 1000)
  }

  /** `now < start || now > end`, where a comparison with NaN is false. */
  predicate OutsideWindow(now: int, start: Option<int>, end: Option<int>) {
    (start.Some? && now < start.value) || (end.Some? && now > end.value)
  }

  /** `now > token.exp`, which is false when `exp` is absent. */
  predicate Expired(now: int, exp: Option<int>) {
    exp.Some? && now > exp.value
  }

  /** The signature verifies over the raw token bytes or over their SHA-256 digest. */
  predicate SignatureValid(f: Foreign, sig: seq<Byte>, message: seq<Byte>, publicKey: seq<Byte>) {
    f.verify(sig, message, publicKey) || f.verify(sig, f.sha256(message), publicKey)
  }

  /** The stored signer matches: byte by byte after decoding, or as text
      when the stored key does not decode. */
  predicate SameSigner(f: Foreign, stored: string, signer: string, signerKey: seq<Byte>)
    requires |signerKey| == 32
  {
    match DecodePubkey(f, stored)
    case Ok(storedKey) => forall i | 0 <= i < 32 :: storedKey[i] == signerKey[i]
    case Err(_) => signer == stored
  }

  /** The gate either admits the claim (with the event id, the wallet and
      the event row) or refuses it with a response. */
  datatype Verdict = Admit(eventId: string, wallet: string, ev: EventRow) | Refuse(response: Response)

  /** The checks of the handler up to the signer match, in their order. */
  function Gate(f: Foreign, user: Option<User>, body: Result<MintBody, string>,
                events: map<string, EventRow>, qrKeys: map<string, KeyRow>, nowMs: int): Verdict
  {
    if user.None? then Refuse(Refusal(401, "Unauthorized"))
    else if body.Err? then Refuse(Unhandled(body.error))
    else if !HasFields(body.value) then Refuse(Refusal(400, "Missing fields"))
    else
      var b := body.value;
      var id := b.eventId.value;
      var now := nowMs / 1000;
      if id !in events then Refuse(Refusal(404, "Event not found"))
      else if OutsideWindow(now, Seconds(f, events[id].startsAt), Seconds(f, events[id].endsAt)) then
        Refuse(Refusal(400, "Event not active"))
      else if id !in qrKeys then Refuse(Refusal(404, "Signer not found"))
      else if b.token.value.event != Some(id) then Refuse(Refusal(400, "Token event mismatch"))
      else if Expired(now, b.token.value.exp) then Refuse(Refusal(400, "Token expired"))
      else match Base64.Decode(b.sig.value)
        case None => Refuse(Unhandled(f.atobFailure))
        case Some(sig) =>
          match DecodePubkey(f, b.signer.value)
          case Err(m) => Refuse(Unhandled(m))
          case Ok(signerKey) =>
            if !SignatureValid(f, sig, TokenBytes(f, b.token.value), signerKey) then
              Refuse(Refusal(400, "Invalid signature"))
            else if !SameSigner(f, qrKeys[id].publicKey, b.signer.value, signerKey) then
              Refuse(Refusal(400, "Signer mismatch"))
            else Admit(id, b.wallet.value, ev := events[id])
  }

  /** The outcome of the ledger transaction (keypair setup, `create`, `sendAndConfirm`). */
  datatype ChainOutcome = Confirmed | ChainFailed(message: string)

  /** What the mint handler takes from its environment: the clock, the
      server secret, the address of the generated asset signer, the ledger
      outcome, a datastore fault on insert, and whether the `passes` read failed. */
  datatype MintEnv = MintEnv(nowMs: int, serverSecretB64: string, assetAddress: string,
                             chain: ChainOutcome, insertFault: Option<string>, passesReadFails: bool)

  datatype ClaimResult = ClaimResult(response: Response, passes: map<PassKey, PassRow>, ledger: seq<Asset>)

  const DefaultName := "POAP"
  const DefaultUri := "https://example.com/poap.json"

  /** `/duplicate|unique/i.test(message) ? 409 : 500` */
  function InsertStatus(message: string): int {
    var lower := Lower(message);
    if Contains(lower, "duplicate") || Contains(lower, "unique") then 409 else 500
  }

  /** The stored asset of a pass row that `pass?.minted_asset` finds truthy. */
  predicate HasAsset(passes: map<PassKey, PassRow>, key: PassKey) {
    key in passes && Truthy(passes[key].mintedAsset)
  }

  /** What happens after the gate: reuse of a stored asset, decoding of the
      server secret, the ledger mint, and the insert with its classification. */
  function Claim(f: Foreign, passes: map<PassKey, PassRow>, ledger: seq<Asset>,
                 key: PassKey, ev: EventRow, email: string, env: MintEnv): ClaimResult
  {
    if !env.passesReadFails && HasAsset(passes, key) then
      ClaimResult(Response(200, Claimed(passes[key].mintedAsset.value, true)), passes, ledger)
    else match Base64.Decode(env.serverSecretB64)
      case None => ClaimResult(Unhandled(f.atobFailure), passes, ledger)
      case Some(secret) =>
        if |secret| != 64 && |secret| != 32 then
          ClaimResult(Refusal(500, "server_mint_secret_b64 must be 64 or 32 bytes, got " + IntToString(|secret|)),
                      passes, ledger)
        else match env.chain
          case ChainFailed(m) => ClaimResult(Unhandled(m), passes, ledger)
          case Confirmed =>
            var name := if ev.name != "" then ev.name else DefaultName;
            var uri := if Truthy(ev.metadataUri) then ev.metadataUri.value else DefaultUri;
            var minted := ledger + [Asset(env.assetAddress, name, uri, key.wallet)];
            var err := if env.insertFault.Some? then env.insertFault
                       else if key in passes then Some(UniqueViolation) else None;
            match err
            case Some(m) =>
              ClaimResult(Response(InsertStatus(m), Failure("DB insert failed", Some(m))), passes, minted)
            case None =>
              ClaimResult(Response(201, Claimed(env.assetAddress, false)),
                          passes[key := PassRow(email, Some(env.assetAddress))], minted)
  }

  /** The gate as the handler runs it, one early return per check. */
  method CheckRequest(f: Foreign, db: Database, user: Option<User>, body: Result<MintBody, string>, nowMs: int)
    returns (v: Verdict)
    ensures v == Gate(f, user, body, db.events, db.qrKeys, nowMs)
  {
    if user.None? {
      return Refuse(Refusal(401, "Unauthorized"));
    }
    if body.Err? {
      return Refuse(Unhandled(body.error));
    }
    var b := body.value;
    if !HasFields(b) {
      return Refuse(Refusal(400, "Missing fields"));
    }
    var id := b.eventId.value;
    if id !in db.events {
      return Refuse(Refusal(404, "Event not found"));
    }
    var ev := db.events[id];
    var now := nowMs / 1000;
    var start := Seconds(f, ev.startsAt);
    var end := Seconds(f, ev.endsAt);
    if OutsideWindow(now, start, end) {
      return Refuse(Refusal(400, "Event not active"));
    }
    if id !in db.qrKeys {
      return Refuse(Refusal(404, "Signer not found"));
    }
    var keyRow := db.qrKeys[id];
    var token := b.token.value;
    if token.event != Some(id) {
      return Refuse(Refusal(400, "Token event mismatch"));
    }
    if Expired(now, token.exp) {
      return Refuse(Refusal(400, "Token expired"));
    }
    var message := TokenBytes(f, token);
    var sig := Base64.Decode(b.sig.value);
    if sig.None? {
      return Refuse(Unhandled(f.atobFailure));
    }
    var signerKey := DecodePubkeyToU8(f, b.signer.value);
    if signerKey.Err? {
      return Refuse(Unhandled(signerKey.error));
    }
    var ok := f.verify(sig.value, message, signerKey.value);
    if !ok {
      ok := f.verify(sig.value, f.sha256(message), signerKey.value);
    }
    if !ok {
      return Refuse(Refusal(400, "Invalid signature"));
    }
    var storedKey := DecodePubkeyToU8(f, keyRow.publicKey);
    if storedKey.Ok? {
      if exists i | 0 <= i < 32 :: storedKey.value[i] != signerKey.value[i] {
        return Refuse(Refusal(400, "Signer mismatch"));
      }
    } else if b.signer.value != keyRow.publicKey {
      return Refuse(Refusal(400, "Signer mismatch"));
    }
    return Admit(id, b.wallet.value, ev);
  }

  /** The mint handler. A refused request leaves the datastore untouched: no
      pass is read and nothing is minted or inserted. */
  method Serve(f: Foreign, db: Database, verb: Method, user: Option<User>,
               body: Result<MintBody, string>, env: MintEnv) returns (resp: Response)
    modifies db
    ensures verb == Options ==> resp == Preflight && unchanged(db)
    ensures verb != Options && verb != Post ==> resp == Refusal(405, "Method Not Allowed") && unchanged(db)
    ensures verb == Post ==>
      match Gate(f, user, body, old(db.events), old(db.qrKeys), env.nowMs)
      case Refuse(r) => resp == r && unchanged(db)
      case Admit(id, wallet, ev) =>
        var c := Claim(f, old(db.passes), old(db.ledger), PassKey(id, wallet), ev, Email(user), env);
        resp == c.response && db.passes == c.passes && db.ledger == c.ledger &&
        db.events == old(db.events) && db.qrKeys == old(db.qrKeys) && db.storage == old(db.storage)
  {
    if verb == Options {
      return Preflight;
    }
    if verb != Post {
      return Refusal(405, "Method Not Allowed");
    }
    var v := CheckRequest(f, db, user, body, env.nowMs);
    if v.Refuse? {
      return v.response;
    }
    var key := PassKey(v.eventId, v.wallet);
    if !env.passesReadFails && HasAsset(db.passes, key) {
      return Response(200, Claimed(db.passes[key].mintedAsset.value, true));
    }
    var secret := Base64.Decode(env.serverSecretB64);
    if secret.None? {
      return Unhandled(f.atobFailure);
    }
    if |secret.value| != 64 && |secret.value| != 32 {
      return Refusal(500, "server_mint_secret_b64 must be 64 or 32 bytes, got " + IntToString(|secret.value|));
    }
    if env.chain.ChainFailed? {
      return Unhandled(env.chain.message);
    }
    var name := if v.ev.name != "" then v.ev.name else DefaultName;
    var uri := if Truthy(v.ev.metadataUri) then v.ev.metadataUri.value else DefaultUri;
    db.RecordAsset(Asset(env.assetAddress, name, uri, v.wallet));
    var err := db.InsertPass(key, PassRow(Email(user), Some(env.assetAddress)), env.insertFault);
    if err.Some? {
      return Response(InsertStatus(err.value), Failure("DB insert failed", Some(err.value)));
    }
    return Response(201, Claimed(env.assetAddress, false));
  }

  /** `user.email ?? ""` */
  function Email(user: Option<User>): string {
    if user.Some? && user.value.email.Some? then user.value.email.value else ""
  }
}
