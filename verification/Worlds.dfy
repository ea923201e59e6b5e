/**
 The emulator with the file backend as one state: the index, the store that mirrors it, and the
 uploads. Each step is one locked operation of the database, or one append.
 */
module Worlds {

  import opened Bytes
  import opened Checksums
  import opened Database
  import opened FileMedia
  import opened FileStore
  import opened Posix
  import opened Resources
  import opened Shelves
  import opened Wrappers

  /** An upload grows the media of its own number; once attached, it is the writer of an object. */
  datatype Phase = Staged | Attached | Done

  datatype Upload = Upload(bucket: string, key: Key, phase: Phase)

  /**
   `generation` is the last number handed out. Two history variables say what the store was last told
   where that may not be the truth: `behind`, the metadata of names whose object was replaced by an
   appendable one, or changed by an update that raised, and not updated since; `labels`, each bucket.
   */
  datatype World = World(index: Index, store: Store, uploads: seq<Upload>, generation: nat,
                         behind: map<(string, string), ObjectMeta>, labels: map<string, BucketMeta>)

  datatype Step =
    | InsertBucket(bucket: BucketMeta)
    | UpdateBucket(bucket: BucketMeta, raised: bool)
    | DeleteBucket(name: string)
    | Clear
    | NewUpload(bucketName: string, uploadId: string, name: string)
    | Append(upload: nat, data: Bytes)
    | InsertBytes(bucketName: string, name: string, bytes: Bytes, attributes: map<string, string>)
    | FinishUpload(upload: nat, attributes: map<string, string>)
    | StartAppendable(bucketName: string, uploadId: string, name: string, attributes: map<string, string>)
    | Checkpoint(upload: nat)
    | FinishAppendable(upload: nat)
    | TakeOver(bucketName: string, name: string, generation: nat)
    | Patch(bucketName: string, name: string, attributes: map<string, string>, raised: bool)
    | Delete(bucketName: string, name: string, generation: nat)

  ghost predicate Named(slots: Slots) {
    forall n :: n in slots ==> slots[n].media != [] && slots[n].sidecar != []
  }

  // ---- The new values of objects ----

  function WholeBlob(h: Handle, key: Key, id: nat, attributes: map<string, string>): Blob {
    NewBlob(key, OnDisk(id), h.size, h.crc, DigestOf(h.md5), false, attributes)
  }

  function BytesBlob(key: Key, bytes: Bytes, attributes: map<string, string>): Blob {
    NewBlob(key, InMemory(bytes), |bytes|, Crc32c(bytes, 0), Md5(bytes), false, attributes)
  }

  /** The empty object an appendable upload begins with. */
  function EmptyBlob(key: Key, id: nat, attributes: map<string, string>): Blob {
    NewBlob(key, OnDisk(id), 0, 0, Md5([]), true, attributes)
  }

  /** A checkpoint records the length and the checksum of the upload's media. */
  function Checkpointed(blob: Blob, h: Handle, id: nat): Blob {
    Recorded(blob, OnDisk(id), h.size, h.crc)
  }

  /** The last checkpoint records the length, and ends the upload. */
  function Finalized(blob: Blob, h: Handle, id: nat): Blob {
    Closed(blob, OnDisk(id), h.size)
  }

  // ---- What the store was told ----

  /** The metadata that the store has for a name, if it may not be the object's own. */
  function Lag(behind: map<(string, string), ObjectMeta>, bucket: string, name: string): Option<ObjectMeta> {
    if (bucket, name) in behind then Some(behind[(bucket, name)]) else None
  }

  /** The metadata that the store was last told for the live object of a name. */
  function Known(behind: map<(string, string), ObjectMeta>, bucket: string, blob: Blob): ObjectMeta {
    if (bucket, blob.meta.name) in behind then behind[(bucket, blob.meta.name)] else blob.meta
  }

  // ---- The locked operations: the index changes, then the store is told ----

  function Insert(w: World, slots: Slots, bucket: string, name: string, blob: Blob): Outcome<World>
    requires Named(slots) && name in slots
  {
    var told :- TellInsert(w.store, bucket, slots[name], blob);
    Ok(w.(index := Absorb(w.index, ObjectInserted(bucket, blob)), store := told, behind := w.behind - {(bucket, name)}))
  }

  function Update(w: World, slots: Slots, bucket: string, name: string, blob: Blob): Outcome<World>
    requires Named(slots) && name in slots
  {
    var told :- TellUpdate(w.store, bucket, slots[name], blob);
    Ok(w.(index := Absorb(w.index, ObjectUpdated(bucket, blob)), store := told, behind := w.behind - {(bucket, name)}))
  }

  /** The old object is reported after the new one, and its metadata is what the store writes last. */
  function InsertOver(w: World, slots: Slots, bucket: string, name: string, blob: Blob, current: Blob): Outcome<World>
    requires Named(slots) && name in slots
  {
    var inserted :- Insert(w, slots, bucket, name, blob);
    var told :- TellUpdate(inserted.store, bucket, slots[name], current);
    Ok(inserted.(store := told, behind := inserted.behind[(bucket, name) := current.meta]))
  }

  function Discard(w: World, slots: Slots, bucket: string, key: Key): Outcome<World>
    requires Named(slots) && key.name in slots
  {
    var told :- TellDelete(w.store, bucket, slots[key.name]);
    Ok(w.(index := Absorb(w.index, ObjectDeleted(bucket, key)), store := told, behind := w.behind - {(bucket, key.name)}))
  }

  /** An update of the live object that raises: the object is changed, the store is not told. */
  function Untold(w: World, bucket: string, name: string, blob: Blob, attributes: map<string, string>): World {
    w.(index := Absorb(w.index, ObjectUpdated(bucket, Merged(blob, attributes))),
       behind := w.behind[(bucket, name) := Known(w.behind, bucket, blob)])
  }

  /** The generation a request means; 0 is the live one. */
  function Meant(index: Index, bucket: string, name: string, generation: nat): Option<Blob> {
    if generation == 0 then Current(index, bucket, name) else Generation(index, bucket, Key(name, generation))
  }

  function Erase(w: World, slots: Slots, bucket: string, name: string, generation: nat): Outcome<World>
    requires Named(slots) && name in slots
  {
    var blob := Meant(w.index, bucket, name, generation);
    if blob.None? then Ok(w) else Discard(w, slots, bucket, Key(name, blob.value.meta.generation))
  }

  /** An update of one generation, live or not. */
  function Amend(w: World, slots: Slots, bucket: string, key: Key, attributes: map<string, string>): Outcome<World>
    requires Named(slots) && key.name in slots
  {
    var blob := Generation(w.index, bucket, key);
    if blob.None? then Ok(w) else Update(w, slots, bucket, key.name, Patched(blob.value, attributes))
  }

  // ---- Steps ----

  /** The upload goes on to another phase, as the writer of the next generation of its name. */
  function Moved(w: World, id: nat, phase: Phase): World
    requires id < |w.uploads|
  {
    var upload := w.uploads[id];
    w.(uploads := w.uploads[id := upload.(key := Key(upload.key.name, w.generation + 1), phase := phase)],
       generation := w.generation + 1)
  }

  function Ended(uploads: seq<Upload>, id: nat): seq<Upload>
    requires id < |uploads|
  {
    uploads[id := uploads[id].(phase := Done)]
  }

  /** Stage a media for an upload of an object; it gets its generation number later. */
  function StartUpload(w: World, bucket: string, uploadId: string, name: string): Outcome<World> {
    var staged :- StageUpload(w.store, bucket, uploadId);
    Ok(w.(store := staged, uploads := w.uploads + [Upload(bucket, Key(name, 0), Staged)]))
  }

  /** The insert of the empty object, refused over an object that is still being written. */
  function AttachUpload(w: World, slots: Slots, id: nat, attributes: map<string, string>): Outcome<World>
    requires Named(slots) && id < |w.uploads| && w.uploads[id].key.name in slots
  {
    var bucket, name := w.uploads[id].bucket, w.uploads[id].key.name;
    var blob := EmptyBlob(Key(name, w.generation + 1), id, attributes);
    var current := Current(w.index, bucket, name);
    if current.Some? && !current.value.meta.finalized then Ok(Moved(w, id, Done))
    else if current.Some? then InsertOver(Moved(w, id, Attached), slots, bucket, name, blob, current.value)
    else Insert(Moved(w, id, Attached), slots, bucket, name, blob)
  }

  function FinishWhole(w: World, slots: Slots, id: nat, attributes: map<string, string>): Outcome<World>
    requires Named(slots) && id < |w.uploads| && id < |w.store.medias| && w.uploads[id].key.name in slots
  {
    var bucket, name := w.uploads[id].bucket, w.uploads[id].key.name;
    if w.uploads[id].phase != Staged || bucket !in w.index.objects then Ok(w)
    else Insert(Moved(w, id, Done), slots, bucket, name,
                WholeBlob(w.store.medias[id], Key(name, w.generation + 1), id, attributes))
  }

  /** The object an attached upload writes, if it is still in the index. */
  function Written(w: World, id: nat): Option<Blob>
    requires id < |w.uploads|
  {
    if w.uploads[id].phase == Attached then Generation(w.index, w.uploads[id].bucket, w.uploads[id].key) else None
  }

  function Next(w: World, slots: Slots, step: Step): Outcome<World>
    requires Named(slots) && Legal(w, slots, step)
  {
    match step
    case InsertBucket(bucket) =>
      if bucket.name in w.index.buckets then Ok(w)
      else
        var told :- TellBucket(w.store, bucket);
        Ok(w.(index := Absorb(w.index, BucketInserted(bucket)), store := told, labels := w.labels[bucket.name := bucket]))
    case UpdateBucket(bucket, raised) =>
      if bucket.name !in w.index.buckets then Ok(w)
      else if raised then Ok(w.(index := Absorb(w.index, BucketUpdated(bucket))))
      else
        var told :- TellBucketUpdate(w.store, bucket);
        Ok(w.(index := Absorb(w.index, BucketUpdated(bucket)), store := told, labels := w.labels[bucket.name := bucket]))
    case DeleteBucket(name) =>
      if name !in w.index.buckets || name !in w.index.live || w.index.live[name] != map[] then Ok(w)
      else Ok(w.(index := Absorb(w.index, BucketDeleted(name)), store := TellBucketDelete(w.store, name),
                 behind := map p | p in w.behind && p.0 != name :: w.behind[p], labels := w.labels - {name}))
    case Clear => Ok(w.(index := EMPTY, store := TellClear(w.store), behind := map[], labels := map[]))
    case NewUpload(bucket, uploadId, name) =>
      if bucket !in w.index.buckets then Ok(w) else StartUpload(w, bucket, uploadId, name)
    case Append(id, data) =>
      var grown :- Grow(w.store, id, data);
      Ok(w.(store := grown))
    case InsertBytes(bucket, name, bytes, attributes) =>
      if bucket !in w.index.objects then Ok(w)
      else
        var key := Key(name, w.generation + 1);
        Insert(w.(generation := w.generation + 1), slots, bucket, name, BytesBlob(key, bytes, attributes))
    case FinishUpload(id, attributes) => FinishWhole(w, slots, id, attributes)
    case StartAppendable(bucket, uploadId, name, attributes) =>
      if bucket !in w.index.buckets then Ok(w)
      else
        var started :- StartUpload(w, bucket, uploadId, name);
        AttachUpload(started, slots, |w.uploads|, attributes)
    case Checkpoint(id) =>
      var blob := Written(w, id);
      if blob.None? then Ok(w)
      else Update(w, slots, w.uploads[id].bucket, w.uploads[id].key.name, Checkpointed(blob.value, w.store.medias[id], id))
    case FinishAppendable(id) =>
      var blob := Written(w, id);
      if blob.None? then Ok(w)
      else Update(w.(uploads := Ended(w.uploads, id)), slots, w.uploads[id].bucket, w.uploads[id].key.name,
                  Finalized(blob.value, w.store.medias[id], id))
    case TakeOver(bucket, name, generation) =>
      var blob := Generation(w.index, bucket, Key(name, generation));
      if blob.None? || blob.value.meta.finalized then Ok(w) else Update(w, slots, bucket, name, TakenOver(blob.value))
    case Patch(bucket, name, attributes, raised) =>
      var blob := Current(w.index, bucket, name);
      if blob.None? then Ok(w)
      else if raised then Ok(Untold(w, bucket, name, blob.value, attributes))
      else Update(w, slots, bucket, name, Patched(blob.value, attributes))
    case Delete(bucket, name, generation) => Erase(w, slots, bucket, name, generation)
  }

  // ---- The steps in scope ----

  function StagingPlace(w: World, id: nat): Option<Place> {
    if id < |w.store.medias| && w.store.medias[id].staging.Some? then Some(w.store.medias[id].staging.value.place) else None
  }

  /** An upload id nobody uses: not on disk, not by a media that is still staged. */
  predicate FreshUpload(w: World, bucket: string, uploadId: string) {
    var place := Place(bucket, StagingPath(uploadId));
    && uploadId != "" && FileAt(w.store.fs, place) == None
    && forall k :: 0 <= k < |w.store.medias| ==> StagingPlace(w, k) != Some(place)
  }

  /** The generation is the live one, or is not in the index at all. */
  predicate LiveOrGone(w: World, bucket: string, key: Key) {
    Generation(w.index, bucket, key) == None || LiveGeneration(w.index, bucket, key.name) == Some(key.generation)
  }

  /** The generation is the live one, or its name has none, or it is not in the index at all. */
  predicate LiveOrNone(w: World, bucket: string, key: Key) {
    || Generation(w.index, bucket, key) == None || LiveGeneration(w.index, bucket, key.name) == None
    || LiveGeneration(w.index, bucket, key.name) == Some(key.generation)
  }

  predicate Legal(w: World, slots: Slots, step: Step) {
    match step
    case InsertBucket(bucket) => !bucket.softDelete
    case UpdateBucket(bucket, _) => !bucket.softDelete
    case DeleteBucket(_) => true
    case Clear => true
    case NewUpload(bucket, uploadId, name) => name in slots && FreshUpload(w, bucket, uploadId)
    case Append(id, _) => id < |w.store.medias| && w.store.medias[id].staging.Some?
    case InsertBytes(_, name, _, _) => name in slots
    case FinishUpload(id, _) =>
      && id < |w.uploads| && id < |w.store.medias| && w.uploads[id].key.name in slots
      && (w.uploads[id].phase == Staged && w.uploads[id].bucket in w.index.objects ==>
            StagingPlace(w, id).Some? && FileAt(w.store.fs, StagingPlace(w, id).value).Some?)
    case StartAppendable(bucket, uploadId, name, _) => name in slots && FreshUpload(w, bucket, uploadId)
    case Checkpoint(id) => InScope(w, slots, id)
    case FinishAppendable(id) => InScope(w, slots, id)
    case TakeOver(bucket, name, generation) => name in slots && LiveOrGone(w, bucket, Key(name, generation))
    case Patch(_, name, _, _) => name in slots
    case Delete(bucket, name, generation) => name in slots && (generation == 0 || LiveOrNone(w, bucket, Key(name, generation)))
  }

  predicate InScope(w: World, slots: Slots, id: nat) {
    && id < |w.uploads| && id < |w.store.medias| && w.uploads[id].key.name in slots
    && LiveOrGone(w, w.uploads[id].bucket, w.uploads[id].key)
  }

  /** The step is in scope, the store does not fail, and this is the world it leads to. */
  ghost predicate Goes(w: World, slots: Slots, step: Step, after: World)
    requires Named(slots)
  {
    Legal(w, slots, step) && Next(w, slots, step) == Ok(after)
  }
}
