/** Properties of the mint function: the order of its gate, the inclusive
    time checks, the signature and signer checks, idempotent reuse, the
    insert classification and the ledger behind every stored pass. */
module MintLaws {
  import opened Common
  import Base64
  import opened Wire
  import opened Foreign
  import opened Store
  import opened MintKeys
  import opened Mint

  // The gate's stages as cumulative conditions: each holds when the one
  // before it holds and its own check passes.

  predicate FieldsPresent(user: Option<User>, body: Result<MintBody, string>) {
    user.Some? && body.Ok? && HasFields(body.value)
  }

  predicate Found(user: Option<User>, body: Result<MintBody, string>, events: map<string, EventRow>) {
    FieldsPresent(user, body) && body.value.eventId.value in events
  }

  predicate Live(f: Foreign, user: Option<User>, body: Result<MintBody, string>,
                 events: map<string, EventRow>, nowMs: int) {
    Found(user, body, events) &&
    var ev := events[body.value.eventId.value];
    !OutsideWindow(nowMs / 1000, Seconds(f, ev.startsAt), Seconds(f, ev.endsAt))
  }

  predicate Keyed(f: Foreign, user: Option<User>, body: Result<MintBody, string>,
                  events: map<string, EventRow>, qrKeys: map<string, KeyRow>, nowMs: int) {
    Live(f, user, body, events, nowMs) && body.value.eventId.value in qrKeys
  }

  predicate Current(f: Foreign, user: Option<User>, body: Result<MintBody, string>,
                    events: map<string, EventRow>, qrKeys: map<string, KeyRow>, nowMs: int) {
    Keyed(f, user, body, events, qrKeys, nowMs) &&
    var b := body.value;
    b.token.value.event == Some(b.eventId.value) && !Expired(nowMs / 1000, b.token.value.exp)
  }

  predicate Decoded(f: Foreign, user: Option<User>, body: Result<MintBody, string>,
                    events: map<string, EventRow>, qrKeys: map<string, KeyRow>, nowMs: int) {
    Current(f, user, body, events, qrKeys, nowMs) &&
    Base64.Decode(body.value.sig.value).Some? && DecodePubkey(f, body.value.signer.value).Ok?
  }

  predicate Verified(f: Foreign, user: Option<User>, body: Result<MintBody, string>,
                     events: map<string, EventRow>, qrKeys: map<string, KeyRow>, nowMs: int) {
    Decoded(f, user, body, events, qrKeys, nowMs) &&
    var b := body.value;
    SignatureValid(f, Base64.Decode(b.sig.value).value, TokenBytes(f, b.token.value),
                   DecodePubkey(f, b.signer.value).value)
  }

  predicate Admissible(f: Foreign, user: Option<User>, body: Result<MintBody, string>,
                       events: map<string, EventRow>, qrKeys: map<string, KeyRow>, nowMs: int) {
    Verified(f, user, body, events, qrKeys, nowMs) &&
    var b := body.value;
    SameSigner(f, qrKeys[b.eventId.value].publicKey, b.signer.value, DecodePubkey(f, b.signer.value).value)
  }

  /** The first five refusals, each exactly when the checks before it pass and its own fails. */
  lemma GateOrderEarly(f: Foreign, user: Option<User>, body: Result<MintBody, string>,
                       events: map<string, EventRow>, qrKeys: map<string, KeyRow>, nowMs: int)
    ensures var v := Gate(f, user, body, events, qrKeys, nowMs);
      (v == Refuse(Refusal(401, "Unauthorized")) <==> user.None?) &&
      (v == Refuse(Refusal(400, "Missing fields")) <==> user.Some? && body.Ok? && !HasFields(body.value)) &&
      (v == Refuse(Refusal(404, "Event not found")) <==> FieldsPresent(user, body) && !Found(user, body, events)) &&
      (v == Refuse(Refusal(400, "Event not active")) <==>
         Found(user, body, events) && !Live(f, user, body, events, nowMs)) &&
      (v == Refuse(Refusal(404, "Signer not found")) <==>
         Live(f, user, body, events, nowMs) && !Keyed(f, user, body, events, qrKeys, nowMs))
  {
  }

  /** The last four refusals and admission, each exactly when the checks before it pass. */
  lemma GateOrderLate(f: Foreign, user: Option<User>, body: Result<MintBody, string>,
                      events: map<string, EventRow>, qrKeys: map<string, KeyRow>, nowMs: int)
    ensures var v := Gate(f, user, body, events, qrKeys, nowMs);
      (v == Refuse(Refusal(400, "Token event mismatch")) <==>
         Keyed(f, user, body, events, qrKeys, nowMs) &&
         body.value.token.value.event != Some(body.value.eventId.value)) &&
      (v == Refuse(Refusal(400, "Token expired")) <==>
         Keyed(f, user, body, events, qrKeys, nowMs) &&
         body.value.token.value.event == Some(body.value.eventId.value) &&
         Expired(nowMs / 1000, body.value.token.value.exp)) &&
      (v == Refuse(Refusal(400, "Invalid signature")) <==>
         Decoded(f, user, body, events, qrKeys, nowMs) && !Verified(f, user, body, events, qrKeys, nowMs)) &&
      (v == Refuse(Refusal(400, "Signer mismatch")) <==>
         Verified(f, user, body, events, qrKeys, nowMs) && !Admissible(f, user, body, events, qrKeys, nowMs)) &&
      (v.Admit? <==> Admissible(f, user, body, events, qrKeys, nowMs))
  {
  }

  /** An admitted claim names the requested event and wallet and carries the stored event row. */
  lemma AdmitCarriesRequest(f: Foreign, user: Option<User>, body: Result<MintBody, string>,
                            events: map<string, EventRow>, qrKeys: map<string, KeyRow>, nowMs: int)
    requires Gate(f, user, body, events, qrKeys, nowMs).Admit?
    ensures var v := Gate(f, user, body, events, qrKeys, nowMs);
      body.Ok? && Some(v.eventId) == body.value.eventId && Some(v.wallet) == body.value.wallet &&
      v.eventId in events && v.ev == events[v.eventId] && v.eventId in qrKeys
  {
  }

  /** Both time checks are inclusive: the window admits `start <= now <= end`
      and a token expires only once `now > exp`; a bound that is not a valid
      date, or a token without `exp`, never refuses. */
  lemma TimeChecksInclusive(now: int, start: int, end: int, exp: int)
    ensures !OutsideWindow(now, Some(start), Some(end)) <==> start <= now <= end
    ensures !OutsideWindow(now, None, None)
    ensures !Expired(now, Some(exp)) <==> now <= exp
    ensures !Expired(exp, Some(exp)) && !Expired(now, None)
  {
  }

  /** The stored signer matches iff the decoded keys are equal, or, when the
      stored key does not decode, iff the two texts are equal. */
  lemma {:induction false} SameSignerIff(f: Foreign, stored: string, signer: string, signerKey: seq<Byte>)
    requires |signerKey| == 32
    ensures SameSigner(f, stored, signer, signerKey) <==>
      match DecodePubkey(f, stored)
      case Ok(storedKey) => storedKey == signerKey
      case Err(_) => signer == stored
  {
    match DecodePubkey(f, stored)
    case Ok(storedKey) =>
      if SameSigner(f, stored, signer, signerKey) {
        assert storedKey == signerKey;
      }
    case Err(_) =>
  }

  /** `/duplicate|unique/i` does not depend on letter case. */
  lemma {:induction false} InsertStatusIgnoresCase(message: string)
    ensures InsertStatus(Lower(message)) == InsertStatus(message)
  {
    assert Lower(Lower(message)) == Lower(message);
  }

  /** The datastore's unique-violation message is classified as a conflict;
      a message mentioning neither word is a server error. */
  lemma ConflictClassification(message: string)
    ensures InsertStatus(UniqueViolation) == 409
    ensures !Contains(Lower(message), "duplicate") && !Contains(Lower(message), "unique") ==>
      InsertStatus(message) == 500
  {
    assert UniqueViolation[..9] == Duplicate;
    forall i | 0 <= i < 9
      ensures !IsUpper(Duplicate[i])
    {
    }
    assert Lower(UniqueViolation)[..9] == Duplicate;
    ContainsAt(Lower(UniqueViolation), "duplicate", 0);
  }

  /** A pass row that already holds an asset is returned with `reused: true`;
      nothing is minted and nothing is inserted. */
  lemma ReplayIsReused(f: Foreign, passes: map<PassKey, PassRow>, ledger: seq<Asset>,
                       key: PassKey, ev: EventRow, email: string, env: MintEnv)
    requires !env.passesReadFails && HasAsset(passes, key)
    ensures var c := Claim(f, passes, ledger, key, ev, email, env);
      c.response == Response(200, Claimed(passes[key].mintedAsset.value, true)) &&
      c.passes == passes && c.ledger == ledger
  {
  }

  /** A claim that gets as far as the ledger mints exactly one asset, owned
      by the wallet; the response is 201 with that asset iff the insert
      succeeds, and then the pass row records it. A failed insert is 409 or
      500 by its message, leaves `passes` as it was, and never returns the
      asset of an existing row. */
  lemma FreshClaim(f: Foreign, passes: map<PassKey, PassRow>, ledger: seq<Asset>,
                   key: PassKey, ev: EventRow, email: string, env: MintEnv)
    requires env.passesReadFails || !HasAsset(passes, key)
    requires Base64.Decode(env.serverSecretB64).Some?
    requires |Base64.Decode(env.serverSecretB64).value| in {32, 64}
    requires env.chain == Confirmed
    ensures var c := Claim(f, passes, ledger, key, ev, email, env);
      |c.ledger| == |ledger| + 1 && c.ledger[..|ledger|] == ledger &&
      c.ledger[|ledger|].address == env.assetAddress && c.ledger[|ledger|].owner == key.wallet &&
      (c.response.status == 201 <==> env.insertFault.None? && key !in passes) &&
      (c.response.status == 201 ==>
         c.response.body == Claimed(env.assetAddress, false) &&
         c.passes == passes[key := PassRow(email, Some(env.assetAddress))]) &&
      (c.response.status != 201 ==>
         c.passes == passes && c.response.body.Failure? && c.response.status in {409, 500} &&
         c.response.body.detail.Some? && c.response.status == InsertStatus(c.response.body.detail.value))
  {
  }

  /** A claim refused for a missing, short or long server secret, or by the ledger, changes nothing. */
  lemma FailedMintChangesNothing(f: Foreign, passes: map<PassKey, PassRow>, ledger: seq<Asset>,
                                 key: PassKey, ev: EventRow, email: string, env: MintEnv)
    requires env.passesReadFails || !HasAsset(passes, key)
    requires Base64.Decode(env.serverSecretB64).None? ||
             |Base64.Decode(env.serverSecretB64).value| !in {32, 64} || env.chain.ChainFailed?
    ensures var c := Claim(f, passes, ledger, key, ev, email, env);
      c.response.status == 500 && c.passes == passes && c.ledger == ledger
  {
  }

  /** Once a claim has stored its asset, the next claim for the same event
      and wallet gets that asset back with `reused: true`. */
  lemma SecondClaimReuses(f: Foreign, passes: map<PassKey, PassRow>, ledger: seq<Asset>,
                          key: PassKey, ev: EventRow, email: string, env: MintEnv,
                          ev2: EventRow, email2: string, env2: MintEnv)
    requires Claim(f, passes, ledger, key, ev, email, env).response.status == 201
    requires env.assetAddress != "" && !env2.passesReadFails
    ensures var c1 := Claim(f, passes, ledger, key, ev, email, env);
      var c2 := Claim(f, c1.passes, c1.ledger, key, ev2, email2, env2);
      c2.response == Response(200, Claimed(env.assetAddress, true)) &&
      c2.passes == c1.passes && c2.ledger == c1.ledger
  {
    CreatedRecordsAsset(f, passes, ledger, key, ev, email, env);
    var c1 := Claim(f, passes, ledger, key, ev, email, env);
    assert HasAsset(c1.passes, key);
    ReplayIsReused(f, c1.passes, c1.ledger, key, ev2, email2, env2);
  }

  /** A 201 answer comes with the pass row for `key` holding the new asset. */
  lemma CreatedRecordsAsset(f: Foreign, passes: map<PassKey, PassRow>, ledger: seq<Asset>,
                            key: PassKey, ev: EventRow, email: string, env: MintEnv)
    requires Claim(f, passes, ledger, key, ev, email, env).response.status == 201
    ensures Claim(f, passes, ledger, key, ev, email, env).passes == passes[key := PassRow(email, Some(env.assetAddress))]
  {
  }

  /** Every pass row holding an asset is backed by a ledger asset with that
      address, owned by the row's wallet. */
  ghost predicate Backed(passes: map<PassKey, PassRow>, ledger: seq<Asset>) {
    forall k | k in passes && Truthy(passes[k].mintedAsset) ::
      exists i | 0 <= i < |ledger| :: ledger[i].address == passes[k].mintedAsset.value && ledger[i].owner == k.wallet
  }

  /** A claim keeps every stored asset backed by the ledger. */
  lemma {:induction false} ClaimKeepsPassesBacked(f: Foreign, passes: map<PassKey, PassRow>, ledger: seq<Asset>,
                                                  key: PassKey, ev: EventRow, email: string, env: MintEnv)
    requires Backed(passes, ledger)
    ensures var c := Claim(f, passes, ledger, key, ev, email, env);
      Backed(c.passes, c.ledger)
  {
    var c := Claim(f, passes, ledger, key, ev, email, env);
    assert c.ledger[..|ledger|] == ledger by {
      if c.ledger != ledger {
        FreshOrUnchanged(f, passes, ledger, key, ev, email, env);
      }
    }
    FreshOrUnchanged(f, passes, ledger, key, ev, email, env);
    forall k | k in c.passes && Truthy(c.passes[k].mintedAsset)
      ensures exists i | 0 <= i < |c.ledger| ::
        c.ledger[i].address == c.passes[k].mintedAsset.value && c.ledger[i].owner == k.wallet
    {
      if k in passes && c.passes[k] == passes[k] {
        var i :| 0 <= i < |ledger| && ledger[i].address == passes[k].mintedAsset.value && ledger[i].owner == k.wallet;
        assert c.ledger[i] == ledger[i];
      } else {
        assert c.ledger[|ledger|].address == c.passes[k].mintedAsset.value && c.ledger[|ledger|].owner == k.wallet;
      }
    }
  }

  /** A claim either leaves both tables as they were, or appends one asset
      owned by the wallet and at most adds the row for `key` with that asset. */
  lemma FreshOrUnchanged(f: Foreign, passes: map<PassKey, PassRow>, ledger: seq<Asset>,
                         key: PassKey, ev: EventRow, email: string, env: MintEnv)
    ensures var c := Claim(f, passes, ledger, key, ev, email, env);
      (c.passes == passes && c.ledger == ledger) ||
      (|c.ledger| == |ledger| + 1 && c.ledger[..|ledger|] == ledger &&
       c.ledger[|ledger|].address == env.assetAddress && c.ledger[|ledger|].owner == key.wallet &&
       (c.passes == passes || c.passes == passes[key := PassRow(email, Some(env.assetAddress))]))
  {
  }
}
