/** The browser-side event creation of src/services/events.js: check the
    session, insert the event row, upload the image (when one is chosen) and
    the token metadata to the public `poap` bucket, then write both public
    URLs back into the event row. Each step stops the procedure when it
    fails; a thrown error is modelled as `Err(message)`. */
module EventsService {
  import opened Common
  import opened Wire
  import opened Store
  import Slug

  /** `assert(condition, message)`: throws `message` exactly when the condition is falsy. */
  function Assert(condition: bool, message: string): (r: Option<string>)
    ensures r.Some? <==> !condition
    ensures r.Some? ==> r.value == message
  {
    if condition then None else Some(message)
  }

  /** `extFromMime(mime)`: the file extension for a MIME type; an empty type gives "png". */
  function ExtFromMime(mime: string): (r: string)
    ensures r in {"jpg", "png", "webp", "svg"}
    ensures mime == "" ==> r == "png"
  {
    if mime == "" then "png"
    else if Contains(mime, "jpeg") then "jpg"
    else if Contains(mime, "png") then "png"
    else if Contains(mime, "webp") then "webp"
    else if Contains(mime, "svg") then "svg"
    else "png"
  }

  /** `events/{id}/`, the folder of an event's files. */
  function Folder(id: string): string {
    "events/" + id + "/"
  }

  /** `events/{id}/{slug}-{id}.{ext}` */
  function ImagePath(id: string, name: string, ext: string): string {
    Folder(id) + (Slug.SafeSlug(name) + "-" + id + "." + ext)
  }

  /** `events/{id}/metadata.json` */
  function MetaPath(id: string): string {
    Folder(id) + "metadata.json"
  }

  const DummyImage := "https://dummyimage.com/512x512/eeeeee/555555.png&text=POAP"
  const ImageUrlMissing := "Failed to resolve public URL for image. Ensure the bucket \"poap\" is PUBLIC or has a read policy."
  const MetaUrlMissing := "Failed to resolve public URL for metadata. Ensure the bucket \"poap\" is PUBLIC or has a read policy."

  /** The chosen image file; only its MIME type (`file.type`, possibly empty) matters here. */
  datatype ImageFile = ImageFile(mimeType: string)

  /** The form's fields. */
  datatype NewEvent = NewEvent(name: string, startsAt: string, endsAt: string, file: Option<ImageFile>)

  /** The environment of one call: the session, the id the datastore
      assigns to the new row, a fault for each datastore step, and the
      public URL the bucket gives a path (`""` when it gives none). */
  datatype ServiceEnv = ServiceEnv(session: Session, newId: string,
                                   insertFault: Option<string>, imageFault: Option<string>,
                                   metaFault: Option<string>, updateFault: Option<string>,
                                   publicUrl: string -> string)

  /** `{id, name, image_url, metadata_uri}` */
  datatype CreatedEvent = CreatedEvent(id: string, name: string, imageUrl: string, metadataUri: string)

  /** `file.type || 'image/png'` */
  function ContentType(file: ImageFile): string {
    if file.mimeType != "" then file.mimeType else "image/png"
  }

  /** The metadata document for an event whose image has public URL
      `imageUrl` (`""` when no image was uploaded). */
  function BuildMetadata(input: NewEvent, imageUrl: string): Metadata {
    var image := if imageUrl != "" then imageUrl else DummyImage;
    var fileType := if imageUrl != "" && input.file.Some? then ContentType(input.file.value) else "image/png";
    Metadata(input.name, "POAP", input.name + " attendance token", image,
             [Attribute("Event", input.name), Attribute("Starts At", input.startsAt), Attribute("Ends At", input.endsAt)],
             "image", [FileRef(image, fileType)])
  }

  /** The result of one upload step: the public URL or the thrown message, and the bucket after it. */
  datatype Step = Step(url: Result<string, string>, storage: map<string, StoredObject>)

  /** Step 2: with no file the image URL stays `""`; otherwise the upload,
      then the public URL, which must not be empty. */
  function ImageStep(storage: map<string, StoredObject>, id: string, input: NewEvent, env: ServiceEnv): Step {
    if input.file.None? then Step(Ok(""), storage)
    else
      var path := ImagePath(id, input.name, ExtFromMime(input.file.value.mimeType));
      if env.imageFault.Some? then Step(Err(env.imageFault.value), storage)
      else
        var stored := storage[path := ImageObject(ContentType(input.file.value))];
        var url := env.publicUrl(path);
        if url == "" then Step(Err(ImageUrlMissing), stored) else Step(Ok(url), stored)
  }

  /** Step 3: the metadata upload, then its public URL, which must not be empty. */
  function MetaStep(storage: map<string, StoredObject>, id: string, input: NewEvent, imageUrl: string,
                    env: ServiceEnv): Step
  {
    if env.metaFault.Some? then Step(Err(env.metaFault.value), storage)
    else
      var stored := storage[MetaPath(id) := MetadataObject(BuildMetadata(input, imageUrl))];
      var url := env.publicUrl(MetaPath(id));
      if url == "" then Step(Err(MetaUrlMissing), stored) else Step(Ok(url), stored)
  }

  datatype ServiceResult = ServiceResult(outcome: Result<CreatedEvent, string>,
                                         events: map<string, EventRow>, storage: map<string, StoredObject>)

  /** What `createEventWithImage` returns or throws, and the `events` table
      and bucket it leaves. */
  function CreateEvent(events: map<string, EventRow>, storage: map<string, StoredObject>,
                       input: NewEvent, env: ServiceEnv): ServiceResult
  {
    if env.session.AuthFailed? then ServiceResult(Err(env.session.message), events, storage)
    else if env.session.SignedOut? then ServiceResult(Err(NotSignedIn), events, storage)
    else
      var id := env.newId;
      var insertErr := if env.insertFault.Some? then env.insertFault
                       else if id in events then Some(UniqueViolation) else None;
      if insertErr.Some? then ServiceResult(Err(insertErr.value), events, storage)
      else
        var inserted := events[id := EventRow(input.name, input.startsAt, input.endsAt, None, None)];
        var image := ImageStep(storage, id, input, env);
        if image.url.Err? then ServiceResult(Err(image.url.error), inserted, image.storage)
        else
          var meta := MetaStep(image.storage, id, input, image.url.value, env);
          if meta.url.Err? then ServiceResult(Err(meta.url.error), inserted, meta.storage)
          else if env.updateFault.Some? then ServiceResult(Err(env.updateFault.value), inserted, meta.storage)
          else
            ServiceResult(Ok(CreatedEvent(id, input.name, image.url.value, meta.url.value)),
                          inserted[id := inserted[id].(imageUrl := Some(image.url.value),
                                                       metadataUri := Some(meta.url.value))],
                          meta.storage)
  }

  /** Step 2 against the datastore. */
  method UploadImage(db: Database, id: string, input: NewEvent, env: ServiceEnv) returns (url: Result<string, string>)
    modifies db
    ensures var s := ImageStep(old(db.storage), id, input, env);
      url == s.url && db.storage == s.storage
    ensures db.events == old(db.events) && db.qrKeys == old(db.qrKeys) &&
            db.passes == old(db.passes) && db.ledger == old(db.ledger)
  {
    if input.file.None? {
      return Ok("");
    }
    var file := input.file.value;
    var ext := ExtFromMime(file.mimeType);
    var imagePath := ImagePath(id, input.name, ext);
    var upErr := db.Upload(imagePath, ImageObject(ContentType(file)), env.imageFault);
    if upErr.Some? {
      return Err(upErr.value);
    }
    var imageUrl := env.publicUrl(imagePath);
    var thrown := Assert(imageUrl != "", ImageUrlMissing);
    if thrown.Some? {
      return Err(thrown.value);
    }
    return Ok(imageUrl);
  }

  /** Step 3 against the datastore. */
  method UploadMetadata(db: Database, id: string, input: NewEvent, imageUrl: string, env: ServiceEnv)
    returns (url: Result<string, string>)
    modifies db
    ensures var s := MetaStep(old(db.storage), id, input, imageUrl, env);
      url == s.url && db.storage == s.storage
    ensures db.events == old(db.events) && db.qrKeys == old(db.qrKeys) &&
            db.passes == old(db.passes) && db.ledger == old(db.ledger)
  {
    var meta := BuildMetadata(input, imageUrl);
    var metaPath := MetaPath(id);
    var metaErr := db.Upload(metaPath, MetadataObject(meta), env.metaFault);
    if metaErr.Some? {
      return Err(metaErr.value);
    }
    var metadataUri := env.publicUrl(metaPath);
    var thrown := Assert(metadataUri != "", MetaUrlMissing);
    if thrown.Some? {
      return Err(thrown.value);
    }
    return Ok(metadataUri);
  }

  /** `createEventWithImage`: the steps in order, each returning early with the error it throws. */
  method CreateEventWithImage(db: Database, input: NewEvent, env: ServiceEnv) returns (r: Result<CreatedEvent, string>)
    modifies db
    ensures var s := CreateEvent(old(db.events), old(db.storage), input, env);
      r == s.outcome && db.events == s.events && db.storage == s.storage
    ensures db.qrKeys == old(db.qrKeys) && db.passes == old(db.passes) && db.ledger == old(db.ledger)
  {
    if env.session.AuthFailed? {
      return Err(env.session.message);
    }
    var thrown := Assert(env.session.SignedIn?, NotSignedIn);
    if thrown.Some? {
      return Err(thrown.value);
    }
    var eventId := env.newId;
    var insErr := db.InsertEvent(eventId, EventRow(input.name, input.startsAt, input.endsAt, None, None),
                                 env.insertFault);
    if insErr.Some? {
      return Err(insErr.value);
    }
    var imageUrl := UploadImage(db, eventId, input, env);
    if imageUrl.Err? {
      return Err(imageUrl.error);
    }
    var metadataUri := UploadMetadata(db, eventId, input, imageUrl.value, env);
    if metadataUri.Err? {
      return Err(metadataUri.error);
    }
    var updErr := db.SetEventUrls(eventId, imageUrl.value, metadataUri.value, env.updateFault);
    if updErr.Some? {
      return Err(updErr.value);
    }
    return Ok(CreatedEvent(eventId, input.name, imageUrl.value, metadataUri.value));
  }

  /** The first of "jpeg", "png", "webp" and "svg" that the type contains
      decides the extension, and "png" is the fallback. */
  lemma ExtFromMimeOrder(mime: string)
    ensures ExtFromMime(mime) == "jpg" <==> Contains(mime, "jpeg")
    ensures ExtFromMime(mime) == "webp" <==> !Contains(mime, "jpeg") && !Contains(mime, "png") && Contains(mime, "webp")
    ensures ExtFromMime(mime) == "svg" <==>
      !Contains(mime, "jpeg") && !Contains(mime, "png") && !Contains(mime, "webp") && Contains(mime, "svg")
    ensures ExtFromMime(mime) == "png" <==>
      !Contains(mime, "jpeg") && (Contains(mime, "png") || (!Contains(mime, "webp") && !Contains(mime, "svg")))
  {
    if mime == "" {
      assert !Contains(mime, "jpeg") && !Contains(mime, "png");
      assert !Contains(mime, "webp") && !Contains(mime, "svg");
    }
  }

  /** An image file name `{base}.{ext}` is never `metadata.json`. */
  lemma ImageNameNotMetadata(base: string, ext: string)
    requires ext in {"jpg", "png", "webp", "svg"}
    ensures base + "." + ext != "metadata.json"
  {
    var n := base + "." + ext;
    assert n[|n| - 1] == ext[|ext| - 1];
  }

  /** Two texts after the same prefix start with it, and differ when the texts do. */
  lemma SharedPrefix(prefix: string, x: string, y: string)
    ensures StartsWith(prefix + x, prefix) && StartsWith(prefix + y, prefix)
    ensures x != y ==> prefix + x != prefix + y
  {
    assert (prefix + x)[..|prefix|] == prefix && (prefix + y)[..|prefix|] == prefix;
    assert (prefix + x)[|prefix|..] == x && (prefix + y)[|prefix|..] == y;
  }

  /** An event's image and its metadata live under `events/{id}/` at
      different paths, so the metadata upload never replaces the image. */
  lemma PathsDistinct(id: string, name: string, mime: string)
    ensures var image := ImagePath(id, name, ExtFromMime(mime));
      StartsWith(image, Folder(id)) && StartsWith(MetaPath(id), Folder(id)) && image != MetaPath(id)
  {
    ImageNameNotMetadata(Slug.SafeSlug(name) + "-" + id, ExtFromMime(mime));
    SharedPrefix(Folder(id), Slug.SafeSlug(name) + "-" + id + "." + ExtFromMime(mime), "metadata.json");
  }

  /** The metadata is named after the event with symbol POAP, always names
      an image (the uploaded image's URL when there is one, the placeholder
      otherwise), carries exactly the three attributes Event, Starts At and
      Ends At with the form's values, and exactly one file, whose URI is the
      image and whose type is the uploaded file's (PNG by default). */
  lemma MetadataShape(input: NewEvent, imageUrl: string)
    ensures var m := BuildMetadata(input, imageUrl);
      m.name == input.name && m.symbol == "POAP" && m.description == input.name + " attendance token" &&
      m.category == "image" &&
      m.image != "" && (imageUrl != "" ==> m.image == imageUrl) && (imageUrl == "" ==> m.image == DummyImage)
    ensures var m := BuildMetadata(input, imageUrl);
      |m.attributes| == 3 &&
      m.attributes[0] == Attribute("Event", input.name) &&
      m.attributes[1] == Attribute("Starts At", input.startsAt) &&
      m.attributes[2] == Attribute("Ends At", input.endsAt)
    ensures var m := BuildMetadata(input, imageUrl);
      |m.files| == 1 && m.files[0].uri == m.image && m.files[0].mimeType != "" &&
      (imageUrl != "" && input.file.Some? && input.file.value.mimeType != "" ==>
         m.files[0].mimeType == input.file.value.mimeType) &&
      (imageUrl == "" || input.file.None? || input.file.value.mimeType == "" ==>
         m.files[0].mimeType == "image/png")
  {
  }

  /** A failed session lookup, or no user, throws before anything is written. */
  lemma SignedOutWritesNothing(events: map<string, EventRow>, storage: map<string, StoredObject>,
                               input: NewEvent, env: ServiceEnv)
    requires !env.session.SignedIn?
    ensures var s := CreateEvent(events, storage, input, env);
      s.events == events && s.storage == storage &&
      s.outcome == Err(if env.session.AuthFailed? then env.session.message else NotSignedIn)
  {
  }

  /** Failure stops the procedure: a failed insert writes nothing; after the
      insert, a failure leaves the new row without URLs and stores no
      metadata unless the image step succeeded. */
  lemma StopsAtFailure(events: map<string, EventRow>, storage: map<string, StoredObject>,
                       input: NewEvent, env: ServiceEnv)
    requires CreateEvent(events, storage, input, env).outcome.Err?
    ensures var s := CreateEvent(events, storage, input, env);
      var row := EventRow(input.name, input.startsAt, input.endsAt, None, None);
      (s.events == events && s.storage == storage) ||
      (env.newId !in events && s.events == events[env.newId := row] &&
       (ImageStep(storage, env.newId, input, env).url.Err? ==> s.storage.Keys <= storage.Keys + {ImagePath(env.newId, input.name, ExtFromMime(input.file.value.mimeType))}))
  {
  }

  /** On success the returned record is what was written: the new id, the
      non-empty public URL of the stored metadata, the image URL (non-empty
      and that of the stored image when a file was chosen, `""` otherwise),
      and the event row holds both URLs. */
  lemma SuccessMatchesUpdate(events: map<string, EventRow>, storage: map<string, StoredObject>,
                             input: NewEvent, env: ServiceEnv)
    requires CreateEvent(events, storage, input, env).outcome.Ok?
    ensures var s := CreateEvent(events, storage, input, env);
      var c := s.outcome.value;
      var id := env.newId;
      c.id == id && c.name == input.name && id !in events && env.session.SignedIn? &&
      s.events == events[id := EventRow(input.name, input.startsAt, input.endsAt, Some(c.imageUrl), Some(c.metadataUri))] &&
      c.metadataUri != "" && c.metadataUri == env.publicUrl(MetaPath(id)) &&
      s.storage[MetaPath(id)] == MetadataObject(BuildMetadata(input, c.imageUrl)) &&
      (input.file.None? ==> c.imageUrl == "") &&
      (input.file.Some? ==>
         var path := ImagePath(id, input.name, ExtFromMime(input.file.value.mimeType));
         c.imageUrl != "" && c.imageUrl == env.publicUrl(path) &&
         path in s.storage && s.storage[path] == ImageObject(ContentType(input.file.value)))
  {
    var id := env.newId;
    var image := ImageStep(storage, id, input, env);
    CreatedResult(events, storage, input, env);
    ImageStepSucceeds(storage, id, input, env);
    MetaStepSucceeds(image.storage, id, input, image.url.value, env);
    if input.file.Some? {
      PathsDistinct(id, input.name, input.file.value.mimeType);
    }
  }

  /** A call that returns has passed every step, and its result is the new
      row with both URLs, the bucket after step 3, and the two URLs. */
  lemma CreatedResult(events: map<string, EventRow>, storage: map<string, StoredObject>,
                      input: NewEvent, env: ServiceEnv)
    requires CreateEvent(events, storage, input, env).outcome.Ok?
    ensures var id := env.newId;
      var image := ImageStep(storage, id, input, env);
      var meta := MetaStep(image.storage, id, input, image.url.value, env);
      env.session.SignedIn? && id !in events && image.url.Ok? && meta.url.Ok? &&
      CreateEvent(events, storage, input, env) ==
        ServiceResult(Ok(CreatedEvent(id, input.name, image.url.value, meta.url.value)),
                      events[id := EventRow(input.name, input.startsAt, input.endsAt,
                                            Some(image.url.value), Some(meta.url.value))],
                      meta.storage)
  {
    CreatedGuards(events, storage, input, env);
    var id := env.newId;
    var inserted := events[id := EventRow(input.name, input.startsAt, input.endsAt, None, None)];
    var image := ImageStep(storage, id, input, env);
    var meta := MetaStep(image.storage, id, input, image.url.value, env);
    assert inserted[id := inserted[id].(imageUrl := Some(image.url.value), metadataUri := Some(meta.url.value))] ==
           events[id := EventRow(input.name, input.startsAt, input.endsAt, Some(image.url.value), Some(meta.url.value))];
  }

  /** A call that returns was signed in, inserted a fresh row, and passed
      both uploads and the update. */
  lemma CreatedGuards(events: map<string, EventRow>, storage: map<string, StoredObject>,
                      input: NewEvent, env: ServiceEnv)
    requires CreateEvent(events, storage, input, env).outcome.Ok?
    ensures var image := ImageStep(storage, env.newId, input, env);
      env.session.SignedIn? && env.insertFault.None? && env.newId !in events && image.url.Ok? &&
      MetaStep(image.storage, env.newId, input, image.url.value, env).url.Ok? && env.updateFault.None?
  {
  }

  /** A successful step 2 leaves `""` and the bucket unchanged when there is
      no file, and otherwise the image's public URL and the bucket with the image. */
  lemma ImageStepSucceeds(storage: map<string, StoredObject>, id: string, input: NewEvent, env: ServiceEnv)
    requires ImageStep(storage, id, input, env).url.Ok?
    ensures var s := ImageStep(storage, id, input, env);
      (input.file.None? ==> s.url.value == "" && s.storage == storage) &&
      (input.file.Some? ==>
         var path := ImagePath(id, input.name, ExtFromMime(input.file.value.mimeType));
         s.url.value != "" && s.url.value == env.publicUrl(path) &&
         s.storage == storage[path := ImageObject(ContentType(input.file.value))])
  {
  }

  /** A successful step 3 yields the metadata's non-empty public URL and the
      bucket with the metadata document. */
  lemma MetaStepSucceeds(storage: map<string, StoredObject>, id: string, input: NewEvent, imageUrl: string,
                         env: ServiceEnv)
    requires MetaStep(storage, id, input, imageUrl, env).url.Ok?
    ensures var s := MetaStep(storage, id, input, imageUrl, env);
      s.url.value != "" && s.url.value == env.publicUrl(MetaPath(id)) &&
      s.storage == storage[MetaPath(id) := MetadataObject(BuildMetadata(input, imageUrl))]
  {
  }
}
