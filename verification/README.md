# POAP claim flow — a Dafny model

This project models the core of poap-frontend. The system lets an organiser create an event that has its own Ed25519 "QR signer" key pair. It shows a rotating, signed QR code while the event is live. It lets an attendee scan that code and get a POAP (a proof-of-attendance token) minted to their wallet, with at most one pass row per event and wallet.

The model covers three edge functions and the client code that drives them:

- **events-create** checks the request. It generates the signer key pair, inserts the `events` row, and then stores the signer in `qr_keys`. The public key is stored as lower-case hex and the secret as base64.
- **qr-issue** looks up the event and then its signer. It builds the token `{event, exp, nonce, ver}`, signs the SHA-256 digest of the token's JSON, and returns `{token, sig, signer}`.
- **mint** applies an ordered gate:
  1. the caller is authenticated;
  2. the body has its fields;
  3. the event exists;
  4. the event is live;
  5. the signer exists;
  6. the token belongs to the event;
  7. the token has not expired;
  8. the signature verifies over the raw bytes or their digest;
  9. the signer matches the stored key.

  It then reuses a pass that already holds an asset. Otherwise it mints on the ledger, inserts the `passes` row, and classifies an insert error as 409 or 500.
- **The browser services:**
  - `createEventWithImage` and its helpers (`assert`, `extFromMime`, `safeSlug`, the storage paths and the token metadata);
  - `fetchUserNFTs`;
  - the app store.
- **The components:**
  - `RotatingQR` (the fetch and the one-second countdown);
  - the `EventDisplay` page (loading and the live/past/future classification);
  - the `Scan` page (`handleScan`, its checks and how it picks the error to show).

**How the code is shaped.** Each handler is an imperative method with the source's early returns. The method is proved equal to a specification function of the old state (`Mint.Serve`, `QrIssue.Serve`, `EventsCreate.Serve`, `EventsService.CreateEventWithImage`). The lemmas then state what the source promises about that function. The datastore is a class (`Store.Database`) whose tables are maps. The store and the components are classes whose methods update their fields.

**What becomes a parameter.** Everything the code gets from outside is a parameter or a field of `Foreign.Foreign`:

- Ed25519, SHA-256 and base58;
- JSON serialisation and parsing;
- date parsing and locale formatting;
- the clock and the random source;
- the datastore's faults and the ledger's outcome.

`Foreign.Sound` states what the cryptography and JSON must satisfy. Only the end-to-end lemmas in `Protocol` and `EventsCreate.SignerRowDecodes` require it.

**Behaviour of the code worth noting:**

- qr-issue sets `exp = now + 1000` (`QrIssue.TtlSeconds`), so tokens live 1000 seconds, although the comment on that line says 30s TTL.
- mint accepts a signature over either the raw token bytes or their SHA-256 digest. qr-issue always signs the digest.
- A failed `passes` insert is returned to the caller as 409 (for a duplicate or unique violation) or 500. It is not resolved by returning the row that won the race.
- `createEventWithImage` writes no `qr_keys` row. An event created this way has no QR signer, so qr-issue answers 404 for it.
- qr-issue never checks the event's time window.
- mint sends the ledger transaction before it inserts the `passes` row. A failed or racing insert (409/500), or a failed `passes` read, leaves a minted asset with no row, and the next claim mints again (`MintLaws.FreshClaim`, `MintLaws.FreshOrUnchanged`).

## Model

| member | source | states |
|---|---|---|
| Base64.EncodeShape | supabase/functions/events-create/index.ts:37 | `btoa` yields 4 characters per started group of 3 bytes, from the alphabet or `=`, with no `=` exactly when the length is a multiple of 3 |
| Base64.RoundTrip | supabase/functions/mint/index.ts:16 | `b64ToU8(btoa(bytes))` gives back every byte string |
| Base64.TrimTrailingPad | supabase/functions/qr-issue/index.ts:23 | `replace(/=+$/, "")` yields a prefix that does not end in `=` and removes only `=` characters |
| Hex.PadStartShape | supabase/functions/events-create/index.ts:38 | `padStart` yields the longer of the text and the width: the fill character repeated in front, then the text unchanged |
| Hex.ByteTextDigits | supabase/functions/events-create/index.ts:38 | each byte is written as exactly its high and low nibble, zero-padded |
| Hex.EncodeShape | supabase/functions/events-create/index.ts:38 | n bytes give 2n lower-case hex digits |
| Hex.RoundTrip | supabase/functions/mint/index.ts:55-59 | reading the stored hex back pair by pair gives the bytes |
| Common.Lower | supabase/functions/mint/index.ts:165 | the case-insensitive match lower-cases letter by letter and keeps the length |
| Common.NatToStringRoundTrip | src/store/useAppStore.js:14 | the decimal text of a window number is all digits and reads back as the number |
| MintKeys.ConcatBytes | supabase/functions/mint/index.ts:36-45 | the fresh buffer has the summed length and holds the arguments end to end, in order |
| MintKeys.Set | supabase/functions/mint/index.ts:41 | `result.set(arr, offset)` writes `arr` at `offset` and keeps every byte before and after it |
| MintKeys.ConcatOffsets | supabase/functions/mint/index.ts:36-45 | argument i sits at its running offset in the concatenation, byte for byte |
| MintKeys.DecodePubkey | supabase/functions/mint/index.ts:54-64 | a decoded public key is always 32 bytes |
| MintKeys.DecodePubkeyToU8 | supabase/functions/mint/index.ts:54-64 | the pair-by-pair loop into a fresh buffer returns exactly `DecodePubkey` |
| MintKeys.DecodePubkeyCases | supabase/functions/mint/index.ts:54-64 | 64 hex digits of either case, after an optional "0x", are read as hex; anything else goes to base58 and is kept only at 32 bytes, else it fails with "invalid public key length" |
| MintKeys.HexKeyRoundTrip | supabase/functions/mint/index.ts:54-60 | the hex text events-create stores for a 32-byte key decodes to that key, with or without "0x" |
| Mint.CheckRequest | supabase/functions/mint/index.ts:67-112 | the handler's early returns compute exactly the gate verdict |
| Mint.Serve | supabase/functions/mint/index.ts:19-174 | OPTIONS gives the preflight and other non-POST verbs give 405, writing nothing; a refused POST returns the gate's response and writes nothing; an admitted one returns the claim's response and leaves `passes` and the ledger as the claim does, with every other table unchanged |
| MintLaws.GateOrderEarly | supabase/functions/mint/index.ts:67-90 | 401, 400 missing fields, 404 event, 400 not active and 404 signer each occur exactly when every earlier check passes and their own fails |
| MintLaws.GateOrderLate | supabase/functions/mint/index.ts:93-112 | token mismatch, expiry, invalid signature and signer mismatch each occur exactly when the checks before them pass and their own fails; admission happens exactly when all pass |
| MintLaws.AdmitCarriesRequest | supabase/functions/mint/index.ts:73-112 | an admitted claim names the requested event and wallet, carries the stored event row, and has a signer row |
| MintLaws.TimeChecksInclusive | supabase/functions/mint/index.ts:82-94 | the window admits `start <= now <= end`; a token expires only once `now > exp`; an unparsable bound or a missing `exp` never refuses |
| MintLaws.SameSignerIff | supabase/functions/mint/index.ts:105-112 | the signer matches exactly when the decoded keys are equal or, if the stored key does not decode, when the texts are equal |
| MintLaws.InsertStatusIgnoresCase | supabase/functions/mint/index.ts:165 | the 409/500 classification does not depend on letter case |
| MintLaws.ConflictClassification | supabase/functions/mint/index.ts:163-166 | the unique-violation message is 409; a message with neither "duplicate" nor "unique" is 500 |
| MintLaws.ReplayIsReused | supabase/functions/mint/index.ts:115-119 | a pass that holds an asset is returned with `reused: true`; nothing is minted or inserted |
| MintLaws.FreshClaim | supabase/functions/mint/index.ts:138-169 | a claim that reaches the ledger mints exactly one asset owned by the wallet; it answers 201 exactly when the insert succeeds, and the row then records that asset; a failed insert answers 409/500 by its message and leaves `passes` unchanged |
| MintLaws.FailedMintChangesNothing | supabase/functions/mint/index.ts:125-152 | a missing or wrong-length server secret, or a failed ledger transaction, answers 500 and changes nothing |
| MintLaws.SecondClaimReuses | supabase/functions/mint/index.ts:115-169 | after a 201 claim, the next claim for the same event and wallet gets the same asset back with `reused: true` and changes nothing |
| MintLaws.ClaimKeepsPassesBacked | supabase/functions/mint/index.ts:138-169 | every pass row with an asset stays backed by a ledger asset at that address owned by the row's wallet |
| MintLaws.FreshOrUnchanged | supabase/functions/mint/index.ts:115-169 | a claim leaves both tables unchanged, or appends one asset for the wallet and at most adds the row for (event, wallet) |
| QrIssue.RandNonce | supabase/functions/qr-issue/index.ts:23 | the 12 random bytes written into a fresh buffer give the padding-free base64 of those bytes |
| QrIssue.NonceShape | supabase/functions/qr-issue/index.ts:23 | the nonce is 16 base64 characters without `=`, equal to the plain encoding, and decodes back to the 12 bytes |
| QrIssue.IssuedToken | supabase/functions/qr-issue/index.ts:44-46 | the token's `exp` lies after the issue second |
| QrIssue.ExpiryAfterIssue | supabase/functions/qr-issue/index.ts:44-45 | `exp`, read back in milliseconds, lies after the issue instant |
| QrIssue.Serve | supabase/functions/qr-issue/index.ts:25-60 | the handler's early returns compute exactly the response of `Issue`, reading the datastore only |
| QrIssue.Sign | supabase/functions/qr-issue/index.ts:44-57 | token construction, digest, secret decoding and signing compute exactly the signed response |
| QrIssue.RequestChecksFirst | supabase/functions/qr-issue/index.ts:26-32 | preflight, 405 and "event_id required" come before any lookup |
| QrIssue.LookupOrder | supabase/functions/qr-issue/index.ts:38-42 | a missing event is 404 "event missing" before a missing signer gives 404 "qr signer missing" |
| QrIssue.SignedPayload | supabase/functions/qr-issue/index.ts:44-57 | the signing step answers 200 only when the stored secret decodes to 32 bytes, and then with the token `{event, exp: now + 1000, nonce, ver: 1}`, the base64 signature over its digest and the stored public key |
| QrIssue.IssuedPayload | supabase/functions/qr-issue/index.ts:44-57 | a 200 is for a known event and signer whose stored secret decodes to 32 bytes; it carries exactly `{event, exp: now + 1000, nonce, ver: 1}`, the base64 signature of the SHA-256 digest of the token's JSON under that secret, and the stored public key as signer |
| QrIssue.IssuedSignature | supabase/functions/qr-issue/index.ts:44-55 | the signature of a 200 decodes to the signature of the digest of its token's JSON, and its nonce is 16 base64 characters without `=` |
| QrIssue.WindowNotChecked | supabase/functions/qr-issue/index.ts:38-46 | the response does not depend on the event row's contents |
| EventsCreate.Serve | supabase/functions/events-create/index.ts:15-60 | the handler's early returns and two inserts give exactly the response and tables of `Create`, leaving the other tables unchanged |
| EventsCreate.RefusedRequestsWriteNothing | supabase/functions/events-create/index.ts:16-32 | non-POST (405), unauthenticated (401) and incomplete (400) requests write nothing |
| EventsCreate.InsertOrder | supabase/functions/events-create/index.ts:40-54 | a signer row is added only after the event row, under the new id; a failed event insert writes nothing; a failed key insert leaves the event without a signer |
| EventsCreate.SignerRowDecodes | supabase/functions/events-create/index.ts:35-38 | the stored public key is 64 lower-case hex digits that the mint decoder reads back as the key; the stored secret decodes to the 32 bytes |
| EventsCreate.CreatedSigner | supabase/functions/events-create/index.ts:35-56 | a 200 names the new id and the public key of the stored signer row, which belongs to the generated secret; the event row holds the body's fields |
| Store.Database.InsertEvent | supabase/functions/events-create/index.ts:41-47 | the insert fails with the fault, or with a unique violation when the id exists; otherwise it adds the row; other tables are unchanged |
| Store.Database.InsertKey | supabase/functions/events-create/index.ts:50-54 | the same for `qr_keys` |
| Store.Database.InsertPass | supabase/functions/mint/index.ts:155-167 | the same for `passes`, unique on (event, wallet) |
| Store.Database.Upload | src/services/events.js:57-61 | an upsert into the bucket unless it faults |
| Store.Database.SetEventUrls | src/services/events.js:100-104 | sets both URLs of the matching row; an unknown id changes nothing |
| Store.Database.RecordAsset | supabase/functions/mint/index.ts:138-152 | appends the created asset to the ledger |
| Slug.SlugShape | src/services/events.js:25-27 | the slug has at most 40 characters from a-z, 0-9 and `-`, never two `-` in a row and no leading `-`; without truncation it also has no trailing `-` |
| Slug.CollapseShape | src/services/events.js:26 | `replace(/[^a-z0-9]+/g, '-')` yields slug characters with no double dash; it starts with `-` exactly when the text starts outside a-z0-9 |
| Slug.TrimShape | src/services/events.js:26 | `replace(/(^-\|-$)/g, '')` leaves neither a leading nor a trailing `-` |
| Slug.EmptyNameSlug | src/services/events.js:26 | an empty name gives "event" |
| Slug.NoAlphanumericSlug | src/services/events.js:26 | a non-empty name without ASCII letters or digits gives "" |
| Slug.TruncationKeepsTrailingDash | src/services/events.js:26 | truncation after trimming can leave a trailing `-`: 39 slug characters, a separator and one more character give the 39 and `-` |
| EventsService.Assert | src/services/events.js:12-14 | throws the message exactly when the condition fails |
| EventsService.ExtFromMime | src/services/events.js:16-23 | the extension is one of jpg, png, webp or svg; an empty type gives png |
| EventsService.ExtFromMimeOrder | src/services/events.js:16-23 | the first of jpeg, png, webp or svg found in the type decides the extension, both directions, with png as the fallback |
| EventsService.PathsDistinct | src/services/events.js:54-87 | image and metadata share the `events/{id}/` folder at different paths |
| EventsService.MetadataShape | src/services/events.js:69-85 | the metadata has the event's name, symbol POAP and "{name} attendance token"; its image is the uploaded URL when there is one and the placeholder otherwise; it has exactly the attributes Event, Starts At and Ends At with the form's values, and one file pointing at the image whose type is the uploaded file's type, or image/png when there is no upload or the type is empty |
| EventsService.UploadImage | src/services/events.js:52-66 | the upload step returns the image URL or the thrown message and updates the bucket exactly as `ImageStep` says |
| EventsService.UploadMetadata | src/services/events.js:69-97 | the metadata step does the same as `MetaStep` |
| EventsService.CreateEventWithImage | src/services/events.js:34-107 | the procedure returns or throws exactly what `CreateEvent` says and leaves `events` and the bucket as it says; other tables are unchanged |
| EventsService.SignedOutWritesNothing | src/services/events.js:35-37 | a failed session lookup or a missing user throws before any write |
| EventsService.StopsAtFailure | src/services/events.js:40-104 | a failure either writes nothing, or leaves the new row without URLs, with nothing past the image stored if the image step failed |
| EventsService.CreatedResult | src/services/events.js:34-106 | a call that returns was signed in, inserted a row under a fresh id, and passed both uploads and the update; its result is that row with both URLs, the bucket after the metadata upload, and the record of the two URLs |
| EventsService.SuccessMatchesUpdate | src/services/events.js:99-106 | on success the record returned has the new id, the stored metadata's non-empty URL and the image URL (non-empty for a chosen file, "" otherwise), and the row holds both |
| Api.SliceFront | src/services/api.js:27 | `slice(0, n)` is the prefix of length min(n, length) |
| Api.SliceBack | src/services/api.js:27 | `slice(-n)` is the suffix of length min(n, length) for n > 0, and the whole text for n = 0, since -0 is 0 |
| Api.FetchUserNFTs | src/services/api.js:5-41 | throws the session error, "Not signed in" or the query error; null data gives no cards; otherwise one card per row, in the datastore's order |
| Api.CardFields | src/services/api.js:22-40 | each card keeps the asset as id, is named after the event or "POAP", links the devnet explorer page of the asset, and appends " · " and the locale time exactly when a non-empty one is set |
| Api.ShortWalletShape | src/services/api.js:27 | first four characters, "…", last four; an absent wallet gives "" |
| AppStore.Store.constructor | src/store/useAppStore.js:4-7 | no wallet, no cards, secret "event-001", interval 8 |
| AppStore.Store.SetWallet | src/store/useAppStore.js:9 | replaces the wallet only |
| AppStore.Store.SetNFTs | src/store/useAppStore.js:10 | replaces the cards only |
| AppStore.Store.RotateSecret | src/store/useAppStore.js:11-15 | appends `:` and the current 8-second window number to the secret; nothing else changes |
| AppStore.WindowText | src/store/useAppStore.js:14 | the window number's text is non-empty, all digits, and reads back as the window |
| AppStore.RotationExtends | src/store/useAppStore.js:14 | rotation strictly extends the secret with `:` and the decimal window |
| AppStore.SameWindowSameSecret | src/store/useAppStore.js:14 | two rotations agree exactly when the times fall in the same window |
| RotatingQr.TtlOf | src/components/RotatingQR.jsx:26-27 | the time to live is never negative |
| RotatingQr.FailureMessage | src/components/RotatingQR.jsx:23-31 | a failed fetch always shows a non-empty message |
| RotatingQr.RotatingQrState.constructor | src/components/RotatingQR.jsx:9-11 | no payload, no error, time to live 0 |
| RotatingQr.RotatingQrState.FetchToken | src/components/RotatingQR.jsx:15-33 | success stores the payload, its time to live and clears the error; failure clears the payload, sets the time to live to 0 and shows the message |
| RotatingQr.RotatingQrState.Tick | src/components/RotatingQR.jsx:45 | the time to live drops by one and stops at 0; nothing else changes |
| RotatingQr.RotatingQrState.Render | src/components/RotatingQR.jsx:49-61 | shows a QR code of the payload's JSON and the seconds left exactly when there is a payload, and the error line exactly when there is an error |
| RotatingQr.CountdownClosedForm | src/components/RotatingQR.jsx:45 | after k ticks the countdown shows max(0, ttl - k) |
| RotatingQr.TtlMeaning | src/components/RotatingQR.jsx:26-27 | the seconds left are positive exactly when `exp` is after the current second, and then they add up to `exp`; no `exp` shows 0 |
| EventDisplay.Classify | src/pages/EventDisplay.jsx:60-65 | active, past and future, each exactly as defined, with an unparsable date making every comparison false |
| EventDisplay.ShowEvent | src/pages/EventDisplay.jsx:120-155 | the QR code, polled every 10000 ms, appears exactly when the event is active, and the heading exactly when it is not |
| EventDisplay.Page.constructor | src/pages/EventDisplay.jsx:9-11 | no event, no error, loading |
| EventDisplay.Page.LoadEvent | src/pages/EventDisplay.jsx:14-33 | a lookup error shows its message (or "Failed to load event"), no row shows "Event not found", a row is stored; loading ends in every case |
| EventDisplay.Page.Mount | src/pages/EventDisplay.jsx:35 | without an event id nothing changes; with one, the page ends loaded with the event or error that `loadEvent` leaves for the lookup |
| EventDisplay.Page.Render | src/pages/EventDisplay.jsx:38-58 | loading, then the error card, then the event view, each in its case |
| EventDisplay.ExactlyOneClass | src/pages/EventDisplay.jsx:63-65 | with start not after end, every instant is in exactly one class |
| EventDisplay.InvertedEvent | src/pages/EventDisplay.jsx:63-65 | with start after end, an instant between them is both past and future, and the event is never active |
| EventDisplay.HeadingMeaning | src/pages/EventDisplay.jsx:153 | "Coming Soon" appears exactly for a future event, otherwise "Event Ended", including for unparsable dates |
| EventDisplay.SecondsMonotone | supabase/functions/mint/index.ts:82 | rounding milliseconds down to seconds keeps their order |
| EventDisplay.ActiveMeansMintable | src/pages/EventDisplay.jsx:60-63 | while the page shows the QR code, the mint function's window check passes at the same instant |
| EventDisplay.MintAcceptsBeforeDisplay | src/pages/EventDisplay.jsx:60-65 | the converse fails within a second: 200 ms before the start the page says "Coming Soon" while mint already accepts |
| Scan.SelectError | src/pages/Scan.jsx:70-87 | the body's `error` wins over `detail`, which wins over the body itself, which wins over the invocation message |
| Scan.ScanPage.constructor | src/pages/Scan.jsx:9-12 | not busy, no error, nothing scanned, no mint signature |
| Scan.ArrayTextShape | src/pages/Scan.jsx:102 | the string form of n ≥ 1 detected-code objects is "[object Object]" joined by commas: length 16n - 1, beginning with "[object Object]" |
| Scan.ScanTextMeaning | src/pages/Scan.jsx:100-105 | a non-empty first raw value is what is scanned; otherwise the array's text is; either way the text is non-empty, so the scan passes the empty-code check and stores what the text parses to |
| Scan.ArrayTextNotJson | src/pages/Scan.jsx:30-37 | when the array's text fails to parse, as `JSON.parse` does on "[object Object]", the scan shows "Invalid QR format - not valid JSON", stores nothing and sends nothing |
| Scan.ScanPage.OnScanSuccess | src/pages/Scan.jsx:100-105 | an empty result changes nothing; any other result has the effect of `handleScan` on `ScanText` |
| Scan.ScanPage.HandleScan | src/pages/Scan.jsx:15-97 | a busy page ignores the scan; otherwise the error, payload, mint signature and sent request are those of one scan, and the page ends not busy |
| Scan.ScanPage.Attempt | src/pages/Scan.jsx:18-90 | the try block's early returns produce exactly one scan's effect |
| Scan.CheckOrder | src/pages/Scan.jsx:22-50 | empty text, then invalid JSON, then missing fields (after the payload is shown), then no wallet, each stopping before any request |
| Scan.SentIff | src/pages/Scan.jsx:41-68 | a request is sent exactly when the text parses to a complete payload and there is a wallet, and it carries the token's event, the token, signature, signer and wallet unchanged |
| Scan.Outcomes | src/pages/Scan.jsx:70-96 | a mint signature is set exactly when a request was sent and the mint succeeded, and then no error shows and the signature is null or non-empty; every outcome without one shows a non-empty message or the error body, except a mint error whose context is not JSON, where the source can show "" |
| Scan.ErrorPrecedence | src/pages/Scan.jsx:80 | `error` over `detail`; a text body shows a non-empty message exactly when the text or the invocation message is non-empty |
| Protocol.IssueSucceeds | supabase/functions/qr-issue/index.ts:38-57 | for an event whose signer row events-create stored, qr-issue answers 200 with the payload signed by that secret |
| Protocol.IssuedIsComplete | src/pages/Scan.jsx:41-45 | the issued payload has every field the scanner requires |
| Protocol.ScanSendsPayload | src/pages/Scan.jsx:30-68 | scanning the JSON of a complete payload with a wallet sends the request built from that payload |
| Protocol.IssuedBodyAdmitted | supabase/functions/mint/index.ts:67-112 | the mint gate admits the scanned request for an issued payload while the event is live and the token has not expired |
| Protocol.FreshTokenTtl | src/components/RotatingQR.jsx:26-27 | a token fetched the moment it is issued shows 1000 seconds to live |
| Protocol.PositiveTtlNotExpired | supabase/functions/mint/index.ts:94 | while the countdown is positive, mint does not reject the token as expired |

## Left out

- Ed25519, SHA-256, base58, JSON serialisation and parsing, date parsing and `toLocaleString` are parameters (`Foreign.Foreign`). `Foreign.Sound` assumes sign/verify agree and that JSON text round-trips.
- Network calls, the Supabase client, HTTP headers (CORS) and console logging are not modelled. A request arrives as its verb, its authenticated user and its parsed body, or the parse error.
- The catch-all of each edge function turns a thrown value into a 500 `Unhandled` body. It is modelled only for the throws the code can reach: a body that is not JSON, an `atob` failure, a key that does not decode, a secret of the wrong length, and a failed ledger transaction. Exceptions raised inside `verifyAsync`, the datastore client or the keypair helpers are not modelled.
- The ledger transaction (umi keypair, collection-less `create`, `sendAndConfirm`) is one outcome, `Confirmed` or `ChainFailed`, together with the address of the generated asset signer.
- In mint, a read error on `events`, `qr_keys` or `passes` is modelled as the row being missing, which is how the code treats it.
- `encodeURIComponent` in `fetchUserNFTs` is a parameter. The datastore's filter by user and its newest-first ordering are the query's result, which is a parameter.
- `getPublicUrl` is a parameter (`ServiceEnv.publicUrl`). A path the bucket gives no URL for is `""`.
- Timers are not modelled: the `setInterval` polling of RotatingQR and the effect cleanup. Each fetch and each tick is one method call, and their interleaving is up to the caller.
- React rendering is not modelled. The views are datatypes. An error body shown whole (`Scan.Shown.WholeBody`) is kept as a value; how React renders that object is not modelled.
- `testMint` of src/pages/Scan.jsx is not part of this model; it is a debugging helper that fetches a payload for a fixed event id.
- Scan.ScanPage.OnScanSuccess: `handleScan` is not awaited by the scanner callback; the model runs it to completion before the next callback, so two scans that overlap in time are not modelled beyond the `busy` flag.
- Mint.HasFields: the body's fields are modelled as present strings (or a present token object) or absent. A field of another JSON type is treated as absent and answers "Missing fields", where the code tests JavaScript truthiness: `token: "x"` passes the check and is refused later as "Token event mismatch", and `signer: 5` passes it and makes `decodePubkeyToU8` throw, which answers 500.
- EventsCreate.CreateBody: the body's `name`, `starts_at` and `ends_at` are modelled as present strings or absent. A field of another JSON type is treated as absent and answers 400 "name, starts_at, ends_at required", where the code tests JavaScript truthiness: `{"name": 5, "starts_at": "…", "ends_at": "…"}` passes the check and goes on to key generation and the inserts.
- Scan.Complete: the payload's `token.event`, `sig` and `signer` are modelled as present strings or absent (`Wire.Token`, `Wire.QrPayload`). A field of another JSON type is treated as absent and shows "Invalid QR payload - missing required fields", where the code tests JavaScript truthiness: the text `{"token":{"event":7},"sig":"s","signer":"k"}` passes the check and is sent to mint.
- Scan.ScanTextMeaning: `Foreign.parsePayload` is a parameter and is not assumed to reject the array's text "[object Object],…", which `JSON.parse` always rejects. `Scan.ArrayTextNotJson` states the outcome given that rejection.
- EventDisplay.ActiveMeansMintable: the browser and the edge function are assumed to parse the stored timestamps the same way (one `Foreign.parseDate`) and to read the same clock (one `nowMs`). This holds for text with an offset, as the form's `toISOString()` gives. Offset-less column text is parsed by each runtime in its own local time zone, which is not modelled.
- Mint.Expired: `exp` is modelled as an integer or absent, and an absent `exp` never expires. The code compares `now > token.exp` after JavaScript's number conversion, so `exp: null` (read as 0) or a numeric string is compared as a number and `exp: null` answers "Token expired".
- The events-delete and wallet edge functions and the other pages are not part of this model.
- Common.Lower: `toLowerCase` is modelled on ASCII letters only. Other Unicode case mappings, such as the Kelvin sign, are left out, so the slug and the 409/500 classification are exact for ASCII text.
- Common.IntToString: numbers at or above 1e21, which JavaScript prints in exponent form, are not modelled. Times are integers of milliseconds.
- Mint.Seconds: dates are parsed by `Foreign.parseDate`. A bound that does not parse is NaN, so every comparison with it is false.
- Store.Database: only the unique constraints the code relies on are modelled (`events.id`, `qr_keys.event_id`, `passes (event_id, wallet_pubkey)`), plus one fault message per call. Row-level security is not modelled.
