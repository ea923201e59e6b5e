/** What the steps do for those who asked: said from the request, not from the values the steps build. */
module Requests {

  import opened Appendables
  import opened Bytes
  import opened Checksums
  import opened Database
  import opened FileMedia
  import opened FileStore
  import opened Mirroring
  import opened MirrorSteps
  import opened Placing
  import opened Posix
  import opened Resources
  import opened Shelves
  import opened SoundSteps
  import opened StoreSteps
  import opened WorldRuns
  import opened Worlds
  import opened Wrappers

  /** The live object of a name, with its two files on disk: these bytes, these attributes, the measures of these bytes. */
  ghost predicate Stored(w: World, slots: Slots, b: string, name: string, bytes: Bytes, attributes: map<string, string>)
    requires name in slots
  {
    match Current(w.index, b, name)
    case None => false
    case Some(blob) =>
      && blob.meta.name == name && blob.meta.attributes == attributes && Exact(blob.meta, bytes)
      && blob.meta.finalized && !blob.upload && BytesBehind(w.store, blob.media) == bytes
      && ContentAt(w.store.fs, Place(b, slots[name].media)) == Some(Content.Media(bytes))
      && ContentAt(w.store.fs, Place(b, slots[name].sidecar)) == Some(ObjectSidecar(name, blob.meta))
  }

  ghost predicate Exact(meta: ObjectMeta, bytes: Bytes) {
    meta.size == |bytes| && meta.crc == Crc32c(bytes, 0) && meta.md5 == Md5(bytes)
  }

  /** The live object of a name is a new one of this number, whole, over this media. */
  ghost predicate Made(w: World, b: string, key: Key, media: MediaRef, bytes: Bytes, attributes: map<string, string>) {
    match Current(w.index, b, key.name)
    case None => false
    case Some(blob) =>
      && KeyOf(blob) == key && blob.meta.attributes == attributes && Exact(blob.meta, bytes)
      && blob.meta.finalized && !blob.upload && blob.media == media && (b, key.name) !in w.behind
  }

  lemma MadeIsStored(w: World, slots: Slots, b: string, key: Key, media: MediaRef, bytes: Bytes, attributes: map<string, string>)
    requires Layout(slots) && Sound(w, slots) && key.name in slots && Made(w, b, key, media, bytes, attributes)
    requires BytesBehind(w.store, media) == bytes
    ensures Stored(w, slots, b, key.name, bytes, attributes) && (b, key.name) !in w.behind
    ensures LiveGeneration(w.index, b, key.name) == Some(key.generation)
  {
    hide Layout, Sound, Current, Exact, BytesBehind, FileAt, LiveGeneration;
    OnDiskToo(w, slots, b, key.name, Current(w.index, b, key.name).value, bytes, attributes);
    CurrentHasBucket(w, slots, b, key.name);
    LiveBlob(w, slots, b, key.name);
  }

  lemma OnDiskToo(w: World, slots: Slots, b: string, name: string, blob: Blob, bytes: Bytes, attributes: map<string, string>)
    requires Layout(slots) && Sound(w, slots) && name in slots && Current(w.index, b, name) == Some(blob) && (b, name) !in w.behind
    requires blob.meta.name == name && blob.meta.attributes == attributes && Exact(blob.meta, bytes)
    requires blob.meta.finalized && !blob.upload && BytesBehind(w.store, blob.media) == bytes
    ensures Stored(w, slots, b, name, bytes, attributes)
  {
    hide Layout, Sound, Current, Exact, BytesBehind, FileAt, MediaInode;
    CurrentHasBucket(w, slots, b, name);
    LiveOnOneInode(w, slots, b, name);
  }

  // ---- Which requests are in scope ----

  /** All that are about live objects are, and an upload is finished as long as its staging name is there. */
  lemma AlwaysLegal(w: World, slots: Slots, b: string, name: string, attributes: map<string, string>, id: nat, data: Bytes)
    requires name in slots
    ensures Legal(w, slots, InsertBytes(b, name, data, attributes)) && Legal(w, slots, DeleteBucket(b)) && Legal(w, slots, Clear)
    ensures Legal(w, slots, Patch(b, name, attributes, false)) && Legal(w, slots, Patch(b, name, attributes, true))
    ensures Legal(w, slots, Delete(b, name, 0))
    ensures var live := LiveGeneration(w.index, b, name);
            live.Some? ==> Legal(w, slots, TakeOver(b, name, live.value)) && Legal(w, slots, Delete(b, name, live.value))
    ensures id < |w.store.medias| && w.store.medias[id].staging.Some? ==> Legal(w, slots, Append(id, data))
    ensures id < |w.uploads| && id < |w.store.medias| && w.uploads[id].key.name in slots ==>
              var Upload(c, key, _) := w.uploads[id];
              && (LiveGeneration(w.index, c, key.name) == Some(key.generation) ==>
                    Legal(w, slots, Checkpoint(id)) && Legal(w, slots, FinishAppendable(id)))
              && (w.store.medias[id].staging.Some? && FileAt(w.store.fs, w.store.medias[id].staging.value.place).Some? ==>
                    Legal(w, slots, FinishUpload(id, attributes)))
    ensures FileAt(w.store.fs, Place(b, StagingPath("u"))) == None && w.store.medias == [] ==>
              Legal(w, slots, NewUpload(b, "u", name)) && Legal(w, slots, StartAppendable(b, "u", name, attributes))
  {
  }

  // ---- An insert of bytes ----

  lemma BytesAre(w: World, slots: Slots, b: string, name: string, bytes: Bytes, attributes: map<string, string>)
    requires Named(slots) && name in slots && b in w.index.objects && b in w.index.live
    ensures var r := Next(w, slots, InsertBytes(b, name, bytes, attributes));
            r.Ok? ==> Made(r.value, b, Key(name, w.generation + 1), InMemory(bytes), bytes, attributes)
  {
    hide TellInsert, Crc32c, Named, Current, Absorb;
    CurrentAfterInsert(w.index, b, BytesBlob(Key(name, w.generation + 1), bytes, attributes), b, name);
  }

  /** An insert of bytes into a bucket that is there: they are stored under the name, with the attributes and a new number. */
  lemma InsertStores(w: World, slots: Slots, b: string, name: string, bytes: Bytes, attributes: map<string, string>) returns (after: World)
    requires Layout(slots) && Named(slots) && Sound(w, slots) && name in slots && b in w.index.objects
    ensures Goes(w, slots, InsertBytes(b, name, bytes, attributes), after)
    ensures Stored(after, slots, b, name, bytes, attributes) && (b, name) !in after.behind
    ensures LiveGeneration(after.index, b, name) == Some(w.generation + 1)
  {
    hide Layout, Sound, Named, Next, Current, Made, Evolves;
    Shape(w, slots);
    var step := InsertBytes(b, name, bytes, attributes);
    StepSound(w, slots, step);
    after := Next(w, slots, step).value;
    BytesAre(w, slots, b, name, bytes, attributes);
    MadeIsStored(after, slots, b, Key(name, w.generation + 1), InMemory(bytes), bytes, attributes);
  }

  // ---- The end of an upload ----

  lemma UploadIs(w: World, slots: Slots, id: nat, attributes: map<string, string>)
    requires Named(slots) && id < |w.uploads| && id < |w.store.medias| && w.uploads[id].key.name in slots
    requires w.uploads[id].phase == Staged && w.uploads[id].bucket in w.index.objects && w.uploads[id].bucket in w.index.live
    requires Rolling(w.store.medias[id], MediaBytes(w.store, id))
    ensures var b, key, r := w.uploads[id].bucket, Key(w.uploads[id].key.name, w.generation + 1), FinishWhole(w, slots, id, attributes);
            r.Ok? ==> Made(r.value, b, key, OnDisk(id), MediaBytes(w.store, id), attributes)
  {
    hide TellInsert, Crc32c, Named, Current, Absorb, FileAt, MediaBytes;
    var b, name := w.uploads[id].bucket, w.uploads[id].key.name;
    CurrentAfterInsert(w.index, b, WholeBlob(w.store.medias[id], Key(name, w.generation + 1), id, attributes), b, name);
  }

  /** The insert that finishes an upload: what the upload has received is stored under its name. */
  lemma FinishStores(w: World, slots: Slots, id: nat, attributes: map<string, string>) returns (after: World)
    requires Layout(slots) && Named(slots) && Sound(w, slots) && id < |w.uploads| && w.uploads[id].key.name in slots
    requires Legal(w, slots, FinishUpload(id, attributes)) && w.uploads[id].phase == Staged && w.uploads[id].bucket in w.index.objects
    ensures Goes(w, slots, FinishUpload(id, attributes), after)
    ensures Stored(after, slots, w.uploads[id].bucket, w.uploads[id].key.name, MediaBytes(w.store, id), attributes)
    ensures LiveGeneration(after.index, w.uploads[id].bucket, w.uploads[id].key.name) == Some(w.generation + 1)
  {
    hide Layout, Sound, Named, FinishWhole, Current, Made, Stored, MediaBytes, Evolves, FileAt, BytesKept, Rolling;
    SoundFinish(w, slots, id, attributes);
    after := Next(w, slots, FinishUpload(id, attributes)).value;
    UploadRolls(w, slots, id);
    UploadIs(w, slots, id, attributes);
    KeptMedia(w, after, id);
    var b, key := w.uploads[id].bucket, Key(w.uploads[id].key.name, w.generation + 1);
    MadeIsStored(after, slots, b, key, OnDisk(id), MediaBytes(w.store, id), attributes);
  }

  lemma UploadRolls(w: World, slots: Slots, id: nat)
    requires Layout(slots) && Sound(w, slots) && id < |w.store.medias|
    ensures Rolling(w.store.medias[id], MediaBytes(w.store, id)) && w.index.objects.Keys == w.index.live.Keys
  {
    hide Layout, Sound, Handles, MediaBytes;
    Shape(w, slots);
    Parts(w, slots);
    HandleMeasures(w.store, id);
  }

  // ---- Updates of the live object ----

  /** What a patch leaves of a blob alone: everything but its attributes and their number. */
  ghost predicate OnlyAttributes(before: Blob, after: Blob) {
    && after.media == before.media && after.upload == before.upload && after.uploadGen == before.uploadGen
    && after.meta.name == before.meta.name && after.meta.generation == before.meta.generation
    && after.meta.size == before.meta.size && after.meta.crc == before.meta.crc && after.meta.md5 == before.meta.md5
    && after.meta.finalized == before.meta.finalized
  }

  lemma PatchIs(w: World, slots: Slots, b: string, name: string, attributes: map<string, string>, raised: bool)
    requires Named(slots) && name in slots && Current(w.index, b, name).Some? && Current(w.index, b, name).value.meta.name == name
    requires b in w.index.objects && b in w.index.live
    requires LiveGeneration(w.index, b, name) == Some(Current(w.index, b, name).value.meta.generation)
    ensures var r := Next(w, slots, Patch(b, name, attributes, raised));
            && (!raised ==> r == Update(w, slots, b, name, Patched(Current(w.index, b, name).value, attributes)))
            && (r.Ok? ==>
              && Current(r.value.index, b, name).Some?
              && var before, blob := Current(w.index, b, name).value, Current(r.value.index, b, name).value;
                 && blob.meta.attributes == attributes && OnlyAttributes(before, blob)
                 && blob.meta.metageneration == before.meta.metageneration + (if raised then 0 else 1)
                 && Lag(r.value.behind, b, name) == (if raised then Some(Known(w.behind, b, before)) else None)
                 && (raised ==> r.value.store == w.store))
  {
    hide TellUpdate, Named, Current, Absorb;
    var before := Current(w.index, b, name).value;
    CurrentAfterUpdate(w.index, b, Patched(before, attributes), b, name);
    CurrentAfterUpdate(w.index, b, Merged(before, attributes), b, name);
  }

  /**
   A patch of a live object: the new attributes are there, bytes and checksums are kept. If it returns, the
   sidecar says so; if it raises, the store keeps what it was last told.
   */
  lemma PatchStores(w: World, slots: Slots, b: string, name: string, attributes: map<string, string>, raised: bool) returns (after: World)
    requires Layout(slots) && Named(slots) && Sound(w, slots) && name in slots && Current(w.index, b, name).Some?
    ensures Goes(w, slots, Patch(b, name, attributes, raised), after) && Current(after.index, b, name).Some?
    ensures var before, blob := Current(w.index, b, name).value, Current(after.index, b, name).value;
            && blob.meta.attributes == attributes && OnlyAttributes(before, blob)
            && blob.meta.metageneration == before.meta.metageneration + (if raised then 0 else 1)
            && BytesBehind(after.store, blob.media) == BytesBehind(w.store, before.media)
            && if raised then after.store == w.store && Lag(after.behind, b, name) == Some(Known(w.behind, b, before))
               else OneInode(after, slots, b, name, blob, BytesBehind(w.store, before.media))
  {
    hide Layout, Sound, Named, Next, Current, Evolves, BytesBehind, OneInode, LiveGeneration, BytesKept, Update;
    var step := Patch(b, name, attributes, raised);
    Shape(w, slots);
    CurrentHasBucket(w, slots, b, name);
    LiveBlob(w, slots, b, name);
    StepSound(w, slots, step);
    after := Next(w, slots, step).value;
    PatchIs(w, slots, b, name, attributes, raised);
    PatchKeeps(w, slots, b, name, attributes);
    SameKept(w, slots);
    LiveKept(w, slots, b, name, after);
    CurrentHasBucket(after, slots, b, name);
    if !raised {
      LiveOnOneInode(after, slots, b, name);
    }
  }

  lemma PatchKeeps(w: World, slots: Slots, b: string, name: string, attributes: map<string, string>)
    requires Layout(slots) && Named(slots) && Sound(w, slots) && name in slots && Current(w.index, b, name).Some?
    ensures var r := Update(w, slots, b, name, Patched(Current(w.index, b, name).value, attributes));
            r.Ok? && BytesKept(w.store, r.value.store)
  {
    hide Sound, Layout, Named, Update, Current, MirrorAt, SameInode, EntryAt, Measured, StagedNow, SettledNow, Evolves, BytesKept, Crc32c;
    CurrentHasBucket(w, slots, b, name);
    LiveBlob(w, slots, b, name);
    SoundTouch(w, slots, b, name, Patched(Current(w.index, b, name).value, attributes));
  }

  lemma SameKept(w: World, slots: Slots)
    requires Layout(slots) && Sound(w, slots)
    ensures BytesKept(w.store, w.store)
  {
    hide Layout, Sound, Handles;
    Parts(w, slots);
    QuietSame(w.store);
    QuietKeeps(w.store, w.store);
  }

  /** The bytes of a live object, after a step that keeps those of every media. */
  lemma LiveKept(w: World, slots: Slots, b: string, name: string, after: World)
    requires Layout(slots) && Sound(w, slots) && name in slots && Current(w.index, b, name).Some? && BytesKept(w.store, after.store)
    ensures var media := Current(w.index, b, name).value.media; BytesBehind(after.store, media) == BytesBehind(w.store, media)
  {
    hide Sound, Layout, Current, MediaBytes, MediaInode, MirrorAt, SameInode, EntryAt, Measured, FileAt;
    CurrentHasBucket(w, slots, b, name);
    LiveBlob(w, slots, b, name);
  }

  // ---- The start of an appendable object ----

  lemma StartIs(w: World, slots: Slots, b: string, uploadId: string, name: string, attributes: map<string, string>)
    requires Named(slots) && Legal(w, slots, StartAppendable(b, uploadId, name, attributes))
    requires b in w.index.buckets && b in w.index.objects && b in w.index.live
    ensures var r, current := Next(w, slots, StartAppendable(b, uploadId, name, attributes)), Current(w.index, b, name);
            r.Ok? ==>
              if current.Some? && !current.value.meta.finalized then r.value.index == w.index
              else
                && Current(r.value.index, b, name).Some?
                && var blob := Current(r.value.index, b, name).value;
                   && KeyOf(blob) == Key(name, w.generation + 1) && blob.meta.attributes == attributes && blob.meta.metageneration == 1
                   && blob.meta.size == 0 && !blob.meta.finalized && blob.upload && blob.uploadGen == 1
                   && blob.media == OnDisk(|w.uploads|)
                   && NewAndEmpty(w.store, r.value.store)
  {
    hide TellInsert, TellUpdate, StageUpload, Named, Current, Absorb, FreshUpload, NewAndEmpty;
    var blob := EmptyBlob(Key(name, w.generation + 1), |w.uploads|, attributes);
    CurrentAfterInsert(w.index, b, blob, b, name);
    var staged := StageUpload(w.store, b, uploadId);
    if staged.Ok? {
      StartSizes(w.store, slots, b, uploadId, name, blob, Current(w.index, b, name));
    }
  }

  /** The media of the new upload is the last, and has no bytes. */
  ghost predicate NewAndEmpty(before: Store, after: Store) {
    |after.medias| == |before.medias| + 1 && after.medias[|before.medias|].size == 0
  }

  lemma StartSizes(store: Store, slots: Slots, b: string, uploadId: string, name: string, blob: Blob, current: Option<Blob>)
    requires Named(slots) && name in slots && blob.upload && StageUpload(store, b, uploadId).Ok?
    ensures var told := TellInsert(StageUpload(store, b, uploadId).value, b, slots[name], blob);
            told.Ok? ==>
              && NewAndEmpty(store, told.value)
              && (current.Some? ==>
                    var again := TellUpdate(told.value, b, slots[name], current.value); again.Ok? ==> NewAndEmpty(store, again.value))
  {
    hide MakeDirs, GuardCollision, WriteAtomic, LinkTo, DropName;
    assert StageUpload(store, b, uploadId).value.medias[..|store.medias|] == store.medias;
  }

  /**
   The start of an appendable object: refused over one that is still being written, and otherwise a new
   number with no bytes, a writer with the first handle, and these attributes.
   */
  lemma StartStores(w: World, slots: Slots, b: string, uploadId: string, name: string, attributes: map<string, string>)
    returns (after: World)
    requires Layout(slots) && Named(slots) && Sound(w, slots) && b in w.index.buckets
    requires Legal(w, slots, StartAppendable(b, uploadId, name, attributes))
    ensures Goes(w, slots, StartAppendable(b, uploadId, name, attributes), after)
    ensures var current := Current(w.index, b, name);
            if current.Some? && !current.value.meta.finalized then after.index == w.index
            else
              && Current(after.index, b, name).Some?
              && var blob := Current(after.index, b, name).value;
                 && blob.meta.name == name && blob.meta.generation == w.generation + 1 && blob.meta.attributes == attributes
                 && blob.meta.size == 0 && !blob.meta.finalized && blob.upload && blob.uploadGen == 1
                 && BytesBehind(after.store, blob.media) == []
  {
    hide Layout, Sound, Named, Next, Current, Evolves, Handles, MediaBytes, FreshUpload, TreesSound, Mirror, BlobsSound, IndexSound,
         UploadsSound, OwnersSound;
    Shape(w, slots);
    var step := StartAppendable(b, uploadId, name, attributes);
    StepSound(w, slots, step);
    after := Next(w, slots, step).value;
    StartIs(w, slots, b, uploadId, name, attributes);
    var current := Current(w.index, b, name);
    if !(current.Some? && !current.value.meta.finalized) {
      Parts(after, slots);
      HandleMeasures(after.store, |w.uploads|);
    }
  }

  // ---- Checkpoints, the end, and takeovers ----

  /** Only the recorded size and checksum are others. */
  ghost predicate OnlyMeasures(before: Blob, after: Blob) {
    && after.upload == before.upload && after.uploadGen == before.uploadGen && after.media == before.media
    && after.meta.name == before.meta.name && after.meta.generation == before.meta.generation
    && after.meta.metageneration == before.meta.metageneration && after.meta.attributes == before.meta.attributes
    && after.meta.md5 == before.meta.md5 && after.meta.finalized == before.meta.finalized
  }

  /** A checkpoint of an object that is being written: its size and its checksum are those of the bytes received so far. */
  lemma CheckpointStores(w: World, slots: Slots, id: nat) returns (after: World)
    requires Layout(slots) && Named(slots) && Sound(w, slots) && id < |w.uploads| && w.uploads[id].key.name in slots
    requires Legal(w, slots, Checkpoint(id)) && Written(w, id).Some?
    ensures Goes(w, slots, Checkpoint(id), after)
    ensures var b, name := w.uploads[id].bucket, w.uploads[id].key.name;
            && Current(w.index, b, name) == Written(w, id) && Current(after.index, b, name).Some?
            && var before, blob, bytes := Written(w, id).value, Current(after.index, b, name).value, MediaBytes(w.store, id);
               && OnlyMeasures(before, blob) && blob.meta.size == |bytes| && blob.meta.crc == Crc32c(bytes, 0)
               && OneInode(after, slots, b, name, blob, bytes)
  {
    hide Layout, Sound, Named, Next, Current, OneInode, Crc32c, MediaBytes, Generation, LiveOrGone, FileAt;
    WrittenIsLive(w, slots, id);
    after := CheckpointAgrees(w, slots, id);
    var blob := Checkpointed(Written(w, id).value, w.store.medias[id], id);
    OneInodeIsCurrent(after, slots, w.uploads[id].bucket, w.uploads[id].key.name, blob, MediaBytes(w.store, id));
  }

  /** The end of an appendable object: its size is that of all its bytes, it is finalized, and nothing else about it changes. */
  lemma EndStores(w: World, slots: Slots, id: nat) returns (after: World)
    requires Layout(slots) && Named(slots) && Sound(w, slots) && id < |w.uploads| && w.uploads[id].key.name in slots
    requires Legal(w, slots, FinishAppendable(id)) && Written(w, id).Some?
    ensures Goes(w, slots, FinishAppendable(id), after)
    ensures var b, name := w.uploads[id].bucket, w.uploads[id].key.name;
            && Current(w.index, b, name) == Written(w, id) && Current(after.index, b, name).Some?
            && var before, blob, bytes := Written(w, id).value, Current(after.index, b, name).value, MediaBytes(w.store, id);
               && blob.meta == before.meta.(size := |bytes|, finalized := true) && !blob.upload && blob.media == before.media
               && OneInode(after, slots, b, name, blob, bytes)
  {
    hide Layout, Sound, Named, Next, Current, OneInode, Crc32c, MediaBytes, Generation, LiveOrGone, FileAt;
    WrittenIsLive(w, slots, id);
    after := FinishAgrees(w, slots, id);
    var blob := Finalized(Written(w, id).value, w.store.medias[id], id);
    OneInodeIsCurrent(after, slots, w.uploads[id].bucket, w.uploads[id].key.name, blob, MediaBytes(w.store, id));
  }

  lemma TakeOverIs(w: World, slots: Slots, b: string, name: string, generation: nat)
    requires Named(slots) && name in slots && Current(w.index, b, name).Some? && !Current(w.index, b, name).value.meta.finalized
    requires Legal(w, slots, TakeOver(b, name, generation))
    requires Current(w.index, b, name).value.meta.name == name && Current(w.index, b, name).value.meta.generation == generation
    requires b in w.index.objects && b in w.index.live && LiveGeneration(w.index, b, name) == Some(generation)
    ensures var r, before := Next(w, slots, TakeOver(b, name, generation)), Current(w.index, b, name).value;
            r.Ok? ==> Current(r.value.index, b, name) == Some(before.(uploadGen := before.uploadGen + 1))
  {
    hide TellUpdate, Named, Absorb;
    CurrentAfterUpdate(w.index, b, TakenOver(Current(w.index, b, name).value), b, name);
  }

  /** A takeover of the live object, while it is being written, issues the next handle and changes nothing else about it. */
  lemma TakeOverStores(w: World, slots: Slots, b: string, name: string) returns (after: World)
    requires Layout(slots) && Named(slots) && Sound(w, slots) && name in slots && Current(w.index, b, name).Some?
    requires !Current(w.index, b, name).value.meta.finalized
    ensures var before := Current(w.index, b, name).value;
            && Goes(w, slots, TakeOver(b, name, before.meta.generation), after)
            && Current(after.index, b, name) == Some(before.(uploadGen := before.uploadGen + 1))
  {
    hide Layout, Sound, Named, Next, Current, Evolves;
    Shape(w, slots);
    CurrentHasBucket(w, slots, b, name);
    LiveBlob(w, slots, b, name);
    var generation := Current(w.index, b, name).value.meta.generation;
    StepSound(w, slots, TakeOver(b, name, generation));
    after := Next(w, slots, TakeOver(b, name, generation)).value;
    TakeOverIs(w, slots, b, name, generation);
  }

  // ---- Deletes ----

  /** A delete of the live object: the name has no live object, and neither file is left. */
  lemma DeleteStores(w: World, slots: Slots, b: string, name: string) returns (after: World)
    requires Layout(slots) && Named(slots) && Sound(w, slots) && Placed(w, slots) && name in slots && Current(w.index, b, name).Some?
    ensures Goes(w, slots, Delete(b, name, 0), after)
    ensures Current(after.index, b, name) == None && Generation(after.index, b, KeyOf(Current(w.index, b, name).value)) == None
    ensures FileAt(after.store.fs, Place(b, slots[name].media)) == None && FileAt(after.store.fs, Place(b, slots[name].sidecar)) == None
  {
    hide Layout, Sound, Named, Next, Current, Evolves, Placed, EntryAt, Tidy, MirrorAt;
    Shape(w, slots);
    CurrentHasBucket(w, slots, b, name);
    LiveBlob(w, slots, b, name);
    StepSound(w, slots, Delete(b, name, 0));
    after := Next(w, slots, Delete(b, name, 0)).value;
    DeleteIs(w, slots, b, name);
    TreeOf(after, slots, b);
    MirrorThere(after, slots, b, name);
    NoneNoEntry(after.store, EntryAt(after.store.fs, b, slots[name]), Lag(after.behind, b, name));
    EntryShelved(after.store.fs, slots, b, name);
  }

  lemma NoneNoEntry(store: Store, entry: Option<Entry>, lag: Option<ObjectMeta>)
    requires MirrorAt(store, None, entry, lag)
    ensures entry == None
  {
  }

  lemma DeleteIs(w: World, slots: Slots, b: string, name: string)
    requires Named(slots) && name in slots && Current(w.index, b, name).Some? && Current(w.index, b, name).value.meta.name == name
    requires b in w.index.objects && b in w.index.live && b in w.index.buckets
    requires LiveGeneration(w.index, b, name) == Some(Current(w.index, b, name).value.meta.generation)
    ensures var r := Next(w, slots, Delete(b, name, 0));
            r.Ok? ==>
              && Current(r.value.index, b, name) == None && b in r.value.index.buckets
              && Generation(r.value.index, b, KeyOf(Current(w.index, b, name).value)) == None
  {
    hide TellDelete, Named;
  }

  // ---- Buckets, and bytes on their way ----

  /** The bucket's tree is there, and its sidecar says this. */
  ghost predicate SaysOnDisk(fs: Fs, b: string, bucket: BucketMeta) {
    b in fs.trees && ContentAt(fs, Place(b, BUCKET_JSON)) == Some(BucketSidecar(bucket))
  }

  lemma LabelSaid(w: World, slots: Slots, b: string)
    requires Layout(slots) && Sound(w, slots) && b in w.index.buckets
    ensures b in w.labels && SaysOnDisk(w.store.fs, b, w.labels[b])
  {
    hide Layout, Sound, Tidy;
    Shape(w, slots);
    Parts(w, slots);
    TreeOf(w, slots, b);
    TidyLabel(w.store.fs.trees[b], w.store.fs.inodes, slots);
  }

  lemma TidyLabel(tree: Tree, inodes: seq<Content>, slots: Slots)
    requires Layout(slots) && Tidy(tree, inodes, slots)
    ensures Labelled(tree, inodes) && inodes[tree.files[BUCKET_JSON]] == BucketSidecar(LabelOf(tree, inodes))
  {
  }

  /** A new bucket is there, empty, under its label; one whose name is taken is refused. */
  lemma BucketStores(w: World, slots: Slots, bucket: BucketMeta) returns (after: World)
    requires Layout(slots) && Named(slots) && Sound(w, slots) && !bucket.softDelete
    ensures Goes(w, slots, InsertBucket(bucket), after)
    ensures if bucket.name in w.index.buckets then after == w
            else
              && after.index.buckets == w.index.buckets[bucket.name := bucket] && SaysOnDisk(after.store.fs, bucket.name, bucket)
              && forall n :: Current(after.index, bucket.name, n) == None
  {
    hide Layout, Sound, Named, TellBucket, Evolves, SaysOnDisk;
    StepSound(w, slots, InsertBucket(bucket));
    after := Next(w, slots, InsertBucket(bucket)).value;
    if bucket.name !in w.index.buckets {
      LabelSaid(after, slots, bucket.name);
    }
  }

  /** An update of a bucket: the new value is there, and on disk if the callback returned. */
  lemma BucketChanges(w: World, slots: Slots, bucket: BucketMeta, raised: bool) returns (after: World)
    requires Layout(slots) && Named(slots) && Sound(w, slots) && !bucket.softDelete && bucket.name in w.index.buckets
    ensures Goes(w, slots, UpdateBucket(bucket, raised), after)
    ensures after.index == w.index.(buckets := w.index.buckets[bucket.name := bucket])
    ensures if raised then after.store == w.store else SaysOnDisk(after.store.fs, bucket.name, bucket)
  {
    hide Layout, Sound, Named, TellBucketUpdate, Evolves, SaysOnDisk;
    StepSound(w, slots, UpdateBucket(bucket, raised));
    after := Next(w, slots, UpdateBucket(bucket, raised)).value;
    LabelSaid(after, slots, bucket.name);
  }

  /** A bucket without live objects goes with its tree; one with some stays, and nothing happens. */
  lemma BucketGoes(w: World, slots: Slots, b: string) returns (after: World)
    requires Layout(slots) && Named(slots) && Sound(w, slots) && b in w.index.buckets
    ensures Goes(w, slots, DeleteBucket(b), after)
    ensures if exists n :: Current(w.index, b, n).Some? then after == w
            else after.index.buckets == w.index.buckets - {b} && b !in after.store.fs.trees
  {
    hide Layout, Sound, Named, Current;
    Shape(w, slots);
    after := Next(w, slots, DeleteBucket(b)).value;
    LiveNames(w, slots, b);
  }

  lemma LiveNames(w: World, slots: Slots, b: string)
    requires Layout(slots) && Sound(w, slots) && b in w.index.buckets
    ensures b in w.index.live && (w.index.live[b] == map[] <==> forall n :: Current(w.index, b, n).None?)
  {
    hide Layout, Sound, Current, IndexSound;
    Parts(w, slots);
    Shape(w, slots);
    SomeLive(w.index, slots, w.generation, b);
  }

  lemma SomeLive(index: Index, slots: Slots, generation: nat, b: string)
    requires IndexSound(index, slots, generation) && b in index.live
    ensures index.live[b] == map[] <==> forall n :: Current(index, b, n).None?
  {
    if index.live[b] != map[] {
      var n :| n in index.live[b];
      assert Current(index, b, n).Some?;
    }
  }

  /** Clearing takes every bucket, from the index and from the disk; media that are open stay. */
  lemma ClearStores(w: World, slots: Slots)
    requires Named(slots)
    ensures Legal(w, slots, Clear)
    ensures var r := Next(w, slots, Clear);
            r.Ok? && r.value.index == EMPTY && r.value.store.fs.trees == map[] && r.value.store.medias == w.store.medias
            && r.value.store.fs.inodes == w.store.fs.inodes
  {
  }

  /** An append adds its data to that media, and to no other; objects and buckets stay as they are. */
  lemma AppendStores(w: World, slots: Slots, id: nat, data: Bytes) returns (after: World)
    requires Layout(slots) && Named(slots) && Sound(w, slots) && Legal(w, slots, Append(id, data))
    ensures Goes(w, slots, Append(id, data), after)
    ensures after == w.(store := after.store) && |after.store.medias| == |w.store.medias|
    ensures forall k :: 0 <= k < |w.store.medias| ==>
                          MediaBytes(after.store, k) == MediaBytes(w.store, k) + if k == id then data else []
  {
    hide Layout, Sound, Named, Evolves, Grow, Grew, MediaBytes, MediaInode, Handles;
    Parts(w, slots);
    SoundGrow(w, slots, id, data);
    after := Next(w, slots, Append(id, data)).value;
    GrewKeeps(w.store, after.store, id, data);
    SameCount(w.store, after.store, id, data);
  }

  lemma SameCount(before: Store, after: Store, id: nat, data: Bytes)
    requires Grew(before, after, id, data)
    ensures |after.medias| == |before.medias|
  {
  }

  /** A new upload is staged, with no bytes, and no object is touched. */
  lemma UploadStarts(w: World, slots: Slots, b: string, uploadId: string, name: string) returns (after: World)
    requires Layout(slots) && Named(slots) && Sound(w, slots) && Legal(w, slots, NewUpload(b, uploadId, name)) && b in w.index.buckets
    ensures Goes(w, slots, NewUpload(b, uploadId, name), after) && after.index == w.index
    ensures after.uploads == w.uploads + [Upload(b, Key(name, 0), Staged)] && MediaBytes(after.store, |w.uploads|) == []
  {
    hide Layout, Sound, Named, Evolves, FreshUpload, StageUpload, MediaBytes, Handles, TreesSound, Mirror, BlobsSound, OwnersSound,
         UploadsSound, IndexSound;
    Shape(w, slots);
    SoundStage(w, slots, b, uploadId, name);
    after := Next(w, slots, NewUpload(b, uploadId, name)).value;
    Parts(after, slots);
    StagedSizes(w.store, b, uploadId);
    HandleMeasures(after.store, |w.uploads|);
  }

  lemma StagedSizes(store: Store, b: string, uploadId: string)
    ensures var r := StageUpload(store, b, uploadId); r.Ok? ==> NewAndEmpty(store, r.value)
  {
    hide MakeDirs;
  }
}
