/** Appendable objects: one inode from the empty insert to the end, and what checkpoints record of it. */
module Appendables {

  import opened Bytes
  import opened Checksums
  import opened Database
  import opened FileStore
  import opened Mirroring
  import opened Posix
  import opened Resources
  import opened Restart
  import opened Shelves
  import opened SoundSteps
  import opened StoreSteps
  import opened WorldRuns
  import opened Worlds
  import opened Wrappers

  /** The object's file, its media and its metadata on disk, all over the same bytes. */
  ghost predicate OneInode(w: World, slots: Slots, b: string, name: string, blob: Blob, bytes: Bytes)
    requires name in slots
  {
    && Current(w.index, b, name) == Some(blob) && BytesBehind(w.store, blob.media) == bytes
    && ContentAt(w.store.fs, Place(b, slots[name].media)) == Some(Content.Media(bytes))
    && ContentAt(w.store.fs, Place(b, slots[name].sidecar)) == Some(ObjectSidecar(name, blob.meta))
    && (blob.media.OnDisk? ==> FileAt(w.store.fs, Place(b, slots[name].media)) == MediaInode(w.store, blob.media.id))
  }

  /** A live object that the store is not behind on. */
  lemma LiveOnOneInode(w: World, slots: Slots, b: string, name: string)
    requires Layout(slots) && Sound(w, slots) && b in w.index.buckets && name in slots
    requires Current(w.index, b, name).Some? && (b, name) !in w.behind
    ensures var blob := Current(w.index, b, name).value; OneInode(w, slots, b, name, blob, BytesBehind(w.store, blob.media))
  {
    hide Layout, Sound, Handles, BlobSound, Current, NoStrayFiles, NoStrayDirs, Unshared, StagedMedia, Labelled, AllShelved;
    Parts(w, slots);
    TreeOf(w, slots, b);
    LiveBlob(w, slots, b, name);
    EntryShelved(w.store.fs, slots, b, name);
    var blob, entry := Current(w.index, b, name).value, EntryAt(w.store.fs, b, slots[name]).value;
    if blob.media.OnDisk? {
      DiskBytes(w.store, blob.media.id, entry.inode);
    }
  }

  /** While an object is being written, its staging name and its own lead to the same inode. */
  lemma NamesShareInode(w: World, slots: Slots, b: string, name: string)
    requires Layout(slots) && Sound(w, slots) && b in w.index.buckets && name in slots && Current(w.index, b, name).Some?
    requires Current(w.index, b, name).value.upload
    ensures var blob := Current(w.index, b, name).value;
            && blob.media.OnDisk? && blob.media.id < |w.store.medias| && w.store.medias[blob.media.id].staging.Some?
            && FileAt(w.store.fs, w.store.medias[blob.media.id].staging.value.place) == MediaInode(w.store, blob.media.id)
            && FileAt(w.store.fs, Place(b, slots[name].media)) == MediaInode(w.store, blob.media.id)
  {
    hide Layout, Sound, Handles, Current, NoStrayFiles, NoStrayDirs, Unshared, StagedMedia, Labelled, AllShelved, Measured;
    TreeOf(w, slots, b);
    LiveBlob(w, slots, b, name);
    EntryShelved(w.store.fs, slots, b, name);
  }

  /** The file, the object's media and the upload's agree, and the metadata has their length. */
  ghost predicate Agree(w: World, after: World, slots: Slots, id: nat, blob: Blob)
    requires id < |w.uploads| && w.uploads[id].key.name in slots
  {
    var Upload(b, key, _) := w.uploads[id];
    var bytes := MediaBytes(w.store, id);
    && OneInode(after, slots, b, key.name, blob, bytes) && MediaBytes(after.store, id) == bytes
    && blob.media == OnDisk(id) && blob.meta.size == |bytes|
  }

  /** A checkpoint records the length and the checksum of the bytes there are. */
  lemma CheckpointAgrees(w: World, slots: Slots, id: nat) returns (after: World)
    requires Layout(slots) && Named(slots) && Legal(w, slots, Checkpoint(id)) && InScope(w, slots, id)
    requires Written(w, id).Some? && Sound(w, slots)
    ensures Next(w, slots, Checkpoint(id)) == Ok(after)
    ensures var blob := Checkpointed(Written(w, id).value, w.store.medias[id], id);
            Agree(w, after, slots, id, blob) && blob.meta.crc == Crc32c(MediaBytes(w.store, id), 0)
    ensures var Upload(b, key, _) := w.uploads[id];
            StagingPlace(after, id).Some? &&
            FileAt(after.store.fs, StagingPlace(after, id).value) == FileAt(after.store.fs, Place(b, slots[key.name].media))
  {
    hide Layout, Sound, Named, Update, Current, OneInode, Evolves, LiveOrGone, Handles, IndexSound, TreesSound, BlobsSound, OwnersSound,
         Mirror, Insert, UploadsSound, Generation;
    var Upload(b, key, _) := w.uploads[id];
    Parts(w, slots);
    WrittenIsLive(w, slots, id);
    HandleMeasures(w.store, id);
    SoundCheckpoint(w, slots, id);
    after := Next(w, slots, Checkpoint(id)).value;
    KeptMedia(w, after, id);
    CurrentHasBucket(after, slots, b, key.name);
    LiveOnOneInode(after, slots, b, key.name);
    NamesShareInode(after, slots, b, key.name);
  }

  lemma KeptMedia(w: World, after: World, id: nat)
    requires BytesKept(w.store, after.store) && id < |w.store.medias|
    ensures MediaBytes(after.store, id) == MediaBytes(w.store, id)
  {
  }

  /**
   The end of an appendable object: its bytes are those the media had, under the object's name only;
   the length is recorded, and the checksum is theirs exactly if that of the last checkpoint was.
   */
  lemma FinishAgrees(w: World, slots: Slots, id: nat) returns (after: World)
    requires Layout(slots) && Named(slots) && Legal(w, slots, FinishAppendable(id)) && InScope(w, slots, id)
    requires Written(w, id).Some? && Sound(w, slots)
    ensures Next(w, slots, FinishAppendable(id)) == Ok(after)
    ensures var before := Written(w, id).value;
            var blob := Finalized(before, w.store.medias[id], id);
            Agree(w, after, slots, id, blob) && blob.meta.finalized && !blob.upload && blob.meta.crc == before.meta.crc
    ensures var crc := Crc32c(MediaBytes(w.store, id), 0);
            Finalized(Written(w, id).value, w.store.medias[id], id).meta.crc == crc <==> Written(w, id).value.meta.crc == crc
    ensures StagingPlace(w, id).Some? && FileAt(after.store.fs, StagingPlace(w, id).value) == None
    ensures StagingPlace(after, id) == None
  {
    hide Layout, Sound, Named, Update, Current, OneInode, Evolves, LiveOrGone, Handles, IndexSound, TreesSound, BlobsSound, OwnersSound,
         Mirror, Insert, UploadsSound, Generation;
    var Upload(b, key, _) := w.uploads[id];
    Parts(w, slots);
    WrittenIsLive(w, slots, id);
    HandleMeasures(w.store, id);
    SoundFinal(w, slots, id);
    after := Next(w, slots, FinishAppendable(id)).value;
    KeptMedia(w, after, id);
    CurrentHasBucket(after, slots, b, key.name);
    LiveOnOneInode(after, slots, b, key.name);
  }

  /** A finish right after a checkpoint, as with data in the last message, records the checksum of all the bytes. */
  lemma CheckpointThenFinish(w: World, slots: Slots, id: nat) returns (between: World, after: World)
    requires Layout(slots) && Named(slots) && Legal(w, slots, Checkpoint(id)) && InScope(w, slots, id)
    requires Written(w, id).Some? && Sound(w, slots)
    ensures Next(w, slots, Checkpoint(id)) == Ok(between) && Legal(between, slots, FinishAppendable(id))
    ensures Next(between, slots, FinishAppendable(id)) == Ok(after)
    ensures var Upload(b, key, _) := w.uploads[id];
            && Current(after.index, b, key.name).Some?
            && var blob, bytes := Current(after.index, b, key.name).value, MediaBytes(w.store, id);
               && OneInode(after, slots, b, key.name, blob, bytes)
               && blob.meta.finalized && blob.meta.size == |bytes| && blob.meta.crc == Crc32c(bytes, 0)
  {
    hide Layout, Sound, Named, Update, Current, OneInode, Evolves, Generation, Crc32c, Next;
    between := CheckpointAgrees(w, slots, id);
    StepSound(w, slots, Checkpoint(id));
    CheckpointIsUpdate(w, slots, id);
    CheckpointedStays(w, between, slots, id, Written(w, id).value);
    after := FinishAgrees(between, slots, id);
    OneInodeIsCurrent(after, slots, w.uploads[id].bucket, w.uploads[id].key.name,
                      Finalized(Written(between, id).value, between.store.medias[id], id), MediaBytes(w.store, id));
  }

  lemma OneInodeIsCurrent(w: World, slots: Slots, b: string, name: string, blob: Blob, bytes: Bytes)
    requires name in slots && OneInode(w, slots, b, name, blob, bytes)
    ensures Current(w.index, b, name) == Some(blob)
  {
  }

  lemma CheckpointIsUpdate(w: World, slots: Slots, id: nat)
    requires Named(slots) && Legal(w, slots, Checkpoint(id)) && Written(w, id).Some?
    ensures Next(w, slots, Checkpoint(id)) ==
            Update(w, slots, w.uploads[id].bucket, w.uploads[id].key.name, Checkpointed(Written(w, id).value, w.store.medias[id], id))
  {
    hide Update, Named;
  }

  /** After a checkpoint the upload goes on writing the same object, with what was recorded. */
  lemma CheckpointedStays(w: World, after: World, slots: Slots, id: nat, blob: Blob)
    requires Layout(slots) && Sound(w, slots) && InScope(w, slots, id) && Written(w, id) == Some(blob)
    requires Named(slots) && Update(w, slots, w.uploads[id].bucket, w.uploads[id].key.name,
                                    Checkpointed(blob, w.store.medias[id], id)) == Ok(after)
    ensures after.uploads == w.uploads && id < |after.store.medias| && MediaBytes(after.store, id) == MediaBytes(w.store, id)
    ensures InScope(after, slots, id) && Written(after, id) == Some(Checkpointed(blob, w.store.medias[id], id))
  {
    hide Layout, Sound, Named, Evolves, Crc32c, TellUpdate, Absorb, Current;
    WrittenIsLive(w, slots, id);
    SoundCheckpoint(w, slots, id);
    var Upload(b, key, _) := w.uploads[id];
    StillLive(w.index, b, key, Checkpointed(blob, w.store.medias[id], id));
    KeptMedia(w, after, id);
  }

  lemma StillLive(index: Index, b: string, key: Key, blob: Blob)
    requires b in index.objects && LiveGeneration(index, b, key.name) == Some(key.generation) && KeyOf(blob) == key
    ensures var after := Absorb(index, ObjectUpdated(b, blob));
            LiveGeneration(after, b, key.name) == Some(key.generation) && Generation(after, b, key) == Some(blob)
  {
  }
}
