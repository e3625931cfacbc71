/** The datastore the edge functions and the client share: the `events`,
    `qr_keys` and `passes` tables, the public `poap` storage bucket, and the
    assets created on the ledger. Failures the datastore can report are
    passed in as `fault` messages. */
module Store {
  import opened Common

  /** A row of `events`. `imageUrl` and `metadataUri` are null until set. */
  datatype EventRow = EventRow(name: string, startsAt: string, endsAt: string,
                               imageUrl: Option<string>, metadataUri: Option<string>)

  /** A row of `qr_keys`: the hex public key and base64 secret of the event's QR signer. */
  datatype KeyRow = KeyRow(publicKey: string, secretB64: string)

  /** `passes` is unique on (event_id, wallet_pubkey). */
  datatype PassKey = PassKey(eventId: string, wallet: string)
  datatype PassRow = PassRow(userEmail: string, mintedAsset: Option<string>)

  /** An asset created on the ledger: its address, name, metadata URI and owner. */
  datatype Asset = Asset(address: string, name: string, uri: string, owner: string)

  datatype Attribute = Attribute(traitType: string, value: string)
  datatype FileRef = FileRef(uri: string, mimeType: string)

  /** The token metadata document written next to an event's image. */
  datatype Metadata = Metadata(name: string, symbol: string, description: string, image: string,
                               attributes: seq<Attribute>, category: string, files: seq<FileRef>)

  datatype StoredObject = ImageObject(contentType: string) | MetadataObject(meta: Metadata)

  /** The message of a PostgreSQL unique-constraint violation. */
  const UniqueViolation := Duplicate + " key value violates unique constraint"
  const Duplicate := "duplicate"

  class Database {
    var events: map<string, EventRow>
    var qrKeys: map<string, KeyRow>
    var passes: map<PassKey, PassRow>
    var storage: map<string, StoredObject>
    var ledger: seq<Asset>

    constructor ()
      ensures events == map[] && qrKeys == map[] && passes == map[]
      ensures storage == map[] && ledger == []
    {
      events := map[];
      qrKeys := map[];
      passes := map[];
      storage := map[];
      ledger := [];
    }

    /** `insert` into `events` with the id the datastore assigns. */
    method InsertEvent(id: string, row: EventRow, fault: Option<string>) returns (err: Option<string>)
      modifies this
      ensures err == (if fault.Some? then fault else if id in old(events) then Some(UniqueViolation) else None)
      ensures events == (if err.None? then old(events)[id := row] else old(events))
      ensures qrKeys == old(qrKeys) && passes == old(passes) && storage == old(storage) && ledger == old(ledger)
    {
      if fault.Some? {
        err := fault;
      } else if id in events {
        err := Some(UniqueViolation);
      } else {
        err := None;
        events := events[id := row];
      }
    }

    /** `insert` into `qr_keys`, whose key is the event id. */
    method InsertKey(eventId: string, row: KeyRow, fault: Option<string>) returns (err: Option<string>)
      modifies this
      ensures err == (if fault.Some? then fault else if eventId in old(qrKeys) then Some(UniqueViolation) else None)
      ensures qrKeys == (if err.None? then old(qrKeys)[eventId := row] else old(qrKeys))
      ensures events == old(events) && passes == old(passes) && storage == old(storage) && ledger == old(ledger)
    {
      if fault.Some? {
        err := fault;
      } else if eventId in qrKeys {
        err := Some(UniqueViolation);
      } else {
        err := None;
        qrKeys := qrKeys[eventId := row];
      }
    }

    /** `insert` into `passes`; a second row for the same (event, wallet) violates the unique constraint. */
    method InsertPass(key: PassKey, row: PassRow, fault: Option<string>) returns (err: Option<string>)
      modifies this
      ensures err == (if fault.Some? then fault else if key in old(passes) then Some(UniqueViolation) else None)
      ensures passes == (if err.None? then old(passes)[key := row] else old(passes))
      ensures events == old(events) && qrKeys == old(qrKeys) && storage == old(storage) && ledger == old(ledger)
    {
      if fault.Some? {
        err := fault;
      } else if key in passes {
        err := Some(UniqueViolation);
      } else {
        err := None;
        passes := passes[key := row];
      }
    }

    /** `storage.from('poap').upload(path, object, {upsert: true})`. */
    method Upload(path: string, obj: StoredObject, fault: Option<string>) returns (err: Option<string>)
      modifies this
      ensures err == fault
      ensures storage == (if fault.None? then old(storage)[path := obj] else old(storage))
      ensures events == old(events) && qrKeys == old(qrKeys) && passes == old(passes) && ledger == old(ledger)
    {
      err := fault;
      if fault.None? {
        storage := storage[path := obj];
      }
    }

    /** `update({image_url, metadata_uri}).eq('id', id)`; no row matches an unknown id. */
    method SetEventUrls(id: string, imageUrl: string, metadataUri: string, fault: Option<string>)
      returns (err: Option<string>)
      modifies this
      ensures err == fault
      ensures events == (if fault.None? && id in old(events)
                         then old(events)[id := old(events)[id].(imageUrl := Some(imageUrl), metadataUri := Some(metadataUri))]
                         else old(events))
      ensures qrKeys == old(qrKeys) && passes == old(passes) && storage == old(storage) && ledger == old(ledger)
    {
      err := fault;
      if fault.None? && id in events {
        events := events[id := events[id].(imageUrl := Some(imageUrl), metadataUri := Some(metadataUri))];
      }
    }

    /** A confirmed ledger transaction that creates `asset`. */
    method RecordAsset(asset: Asset)
      modifies this
      ensures ledger == old(ledger) + [asset]
      ensures events == old(events) && qrKeys == old(qrKeys) && passes == old(passes) && storage == old(storage)
    {
      ledger := ledger + [asset];
    }
  }
}
