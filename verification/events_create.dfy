/** The events-create edge function: an authenticated caller names an
    event; the function generates the event's QR signer key pair, inserts
    the event, then inserts the signer row with the public key as lower-case
    hex and the secret as base64. */
module EventsCreate {
  import opened Common
  import Base64
  import Hex
  import opened Wire
  import opened Foreign
  import opened Store
  import MintKeys

  /** The fields the body names; a JSON `null` body has none. */
  datatype CreateBody = CreateBody(name: Option<string>, startsAt: Option<string>, endsAt: Option<string>)

  /** What the handler takes from its environment: the random source of the
      secret key, the id the datastore assigns, and faults of the two inserts. */
  datatype CreateEnv = CreateEnv(entropy: nat -> Byte, newId: string,
                                 eventFault: Option<string>, keyFault: Option<string>)

  /** The signer key pair as stored: `public_key` hex and `secret_b64`. */
  function SignerRow(f: Foreign, secret: seq<Byte>): KeyRow {
    KeyRow(Hex.Encode(f.publicKey(secret)), Base64.Encode(secret))
  }

  datatype CreateResult = CreateResult(response: Response, events: map<string, EventRow>, qrKeys: map<string, KeyRow>)

  /** The response of events-create and the tables it leaves. */
  function Create(f: Foreign, events: map<string, EventRow>, qrKeys: map<string, KeyRow>,
                  verb: Method, user: Option<User>, body: Result<CreateBody, string>, env: CreateEnv): CreateResult
  {
    if verb == Options then CreateResult(Preflight, events, qrKeys)
    else if verb != Post then CreateResult(Refusal(405, "Method Not Allowed"), events, qrKeys)
    else if user.None? then CreateResult(Refusal(401, "Unauthorized"), events, qrKeys)
    else if body.Err? then CreateResult(Unhandled(body.error), events, qrKeys)
    else
      var b := body.value;
      if !Truthy(b.name) || !Truthy(b.startsAt) || !Truthy(b.endsAt) then
        CreateResult(Refusal(400, "name, starts_at, ends_at required"), events, qrKeys)
      else
        var row := SignerRow(f, RandomBytes(env.entropy, 32));
        var eventErr := if env.eventFault.Some? then env.eventFault
                        else if env.newId in events then Some(UniqueViolation) else None;
        if eventErr.Some? then
          CreateResult(Response(500, Failure("create event failed", eventErr)), events, qrKeys)
        else
          var events' := events[env.newId := EventRow(b.name.value, b.startsAt.value, b.endsAt.value, None, None)];
          var keyErr := if env.keyFault.Some? then env.keyFault
                        else if env.newId in qrKeys then Some(UniqueViolation) else None;
          if keyErr.Some? then
            CreateResult(Response(500, Failure("store qr key failed", keyErr)), events', qrKeys)
          else
            CreateResult(Response(200, Created(env.newId, row.publicKey)), events', qrKeys[env.newId := row])
  }

  /** The events-create handler: validation, key generation, then the two
      inserts in order, each with an early return on failure. */
  method Serve(f: Foreign, db: Database, verb: Method, user: Option<User>,
               body: Result<CreateBody, string>, env: CreateEnv) returns (resp: Response)
    modifies db
    ensures var c := Create(f, old(db.events), old(db.qrKeys), verb, user, body, env);
      resp == c.response && db.events == c.events && db.qrKeys == c.qrKeys &&
      db.passes == old(db.passes) && db.storage == old(db.storage) && db.ledger == old(db.ledger)
  {
    if verb == Options {
      return Preflight;
    }
    if verb != Post {
      return Refusal(405, "Method Not Allowed");
    }
    if user.None? {
      return Refusal(401, "Unauthorized");
    }
    if body.Err? {
      return Unhandled(body.error);
    }
    var b := body.value;
    if !Truthy(b.name) || !Truthy(b.startsAt) || !Truthy(b.endsAt) {
      return Refusal(400, "name, starts_at, ends_at required");
    }
    var sk := RandomBytes(env.entropy, 32);
    var pk := f.publicKey(sk);
    var secretB64 := Base64.Encode(sk);
    var publicKey := Hex.Encode(pk);
    var eventErr := db.InsertEvent(env.newId, EventRow(b.name.value, b.startsAt.value, b.endsAt.value, None, None),
                                   env.eventFault);
    if eventErr.Some? {
      return Response(500, Failure("create event failed", eventErr));
    }
    var keyErr := db.InsertKey(env.newId, KeyRow(publicKey, secretB64), env.keyFault);
    if keyErr.Some? {
      return Response(500, Failure("store qr key failed", keyErr));
    }
    return Response(200, Created(env.newId, publicKey));
  }

  /** Non-POST, unauthenticated, unreadable and incomplete requests are
      answered before any key is generated, and write nothing. */
  lemma RefusedRequestsWriteNothing(f: Foreign, events: map<string, EventRow>, qrKeys: map<string, KeyRow>,
                                    verb: Method, user: Option<User>, body: Result<CreateBody, string>, env: CreateEnv)
    requires verb != Options
    requires verb != Post || user.None? || body.Err? ||
             !Truthy(body.value.name) || !Truthy(body.value.startsAt) || !Truthy(body.value.endsAt)
    ensures var c := Create(f, events, qrKeys, verb, user, body, env);
      c.events == events && c.qrKeys == qrKeys && c.response.status != 200 &&
      (verb == Post && user.None? ==> c.response == Refusal(401, "Unauthorized")) &&
      (verb != Post && verb != Options ==> c.response == Refusal(405, "Method Not Allowed")) &&
      (verb == Post && user.Some? && body.Ok? ==> c.response == Refusal(400, "name, starts_at, ends_at required"))
  {
  }

  /** A signer row is stored only after the event row, under the new event's
      id; a failed event insert stores neither, a failed key insert leaves the
      event without a signer. */
  lemma InsertOrder(f: Foreign, events: map<string, EventRow>, qrKeys: map<string, KeyRow>,
                    verb: Method, user: Option<User>, body: Result<CreateBody, string>, env: CreateEnv)
    ensures var c := Create(f, events, qrKeys, verb, user, body, env);
      (c.qrKeys == qrKeys || (c.qrKeys.Keys == qrKeys.Keys + {env.newId} && env.newId !in qrKeys &&
                               env.newId in c.events && env.newId !in events)) &&
      (c.events == events || (c.events.Keys == events.Keys + {env.newId} && env.newId !in events)) &&
      (c.response.status == 500 && c.response.body.error == "create event failed" ==>
         c.events == events && c.qrKeys == qrKeys) &&
      (c.response.status == 500 && c.response.body.error == "store qr key failed" ==>
         env.newId in c.events && c.qrKeys == qrKeys)
  {
  }

  /** The stored signer row of a 32-byte secret: 64 lower-case hex
      characters that the mint function's decoder reads back as the public
      key, and a base64 secret that decodes back to the 32 bytes. */
  lemma SignerRowDecodes(f: Foreign, sk: seq<Byte>)
    requires Sound(f) && |sk| == 32
    ensures var row := SignerRow(f, sk);
      |row.publicKey| == 64 && Hex.IsLowerHex(row.publicKey) &&
      Base64.Decode(row.secretB64) == Some(sk) &&
      MintKeys.DecodePubkey(f, row.publicKey) == Ok(f.publicKey(sk))
  {
    Base64.RoundTrip(sk);
    Hex.EncodeShape(f.publicKey(sk));
    MintKeys.HexKeyRoundTrip(f, f.publicKey(sk));
  }

  /** On success the response names the new event and the signer row stored
      for it, which is the row of the generated 32-byte secret. */
  lemma CreatedSigner(f: Foreign, events: map<string, EventRow>, qrKeys: map<string, KeyRow>,
                      user: Option<User>, body: Result<CreateBody, string>, env: CreateEnv)
    requires Create(f, events, qrKeys, Post, user, body, env).response.status == 200
    ensures var c := Create(f, events, qrKeys, Post, user, body, env);
      env.newId in c.qrKeys && env.newId in c.events && env.newId !in events &&
      c.qrKeys[env.newId] == SignerRow(f, RandomBytes(env.entropy, 32)) &&
      c.response.body == Created(env.newId, c.qrKeys[env.newId].publicKey) &&
      body.Ok? && c.events[env.newId] == EventRow(body.value.name.value, body.value.startsAt.value,
                                                  body.value.endsAt.value, None, None)
  {
  }
}
