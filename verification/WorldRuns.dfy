/**
 Whole runs of the emulator with the file backend: the store never fails, everything that holds of a
 world keeps holding, and a restart recovers what was there.
 */
module WorldRuns {

  import opened Bytes
  import opened Checksums
  import opened Database
  import opened FileStore
  import opened Mirroring
  import opened Placing
  import opened Posix
  import opened Resources
  import opened Shelves
  import opened SoundSteps
  import opened StoreSteps
  import opened Worlds
  import opened Wrappers

  // ---- One step ----

  lemma NotSealing(store: Store, uploads: seq<Upload>, b: string, key: Key, blob: Blob)
    requires BlobSound(store, uploads, b, key, blob)
    ensures !Seals(store, blob)
  {
    hide Measured;
  }

  /** A refused appendable insert uses up its upload and its generation number. */
  lemma SoundRefused(w: World, slots: Slots, id: nat)
    requires Layout(slots) && Sound(w, slots) && id < |w.uploads| && w.uploads[id].phase == Staged
    ensures Sound(Moved(w, id, Done), slots)
  {
    hide Layout, Handles, TreesSound, Mirror, BlobsSound, IndexSound, UploadsSound, OwnersSound;
    Parts(w, slots);
    var after := Moved(w, id, Done);
    MoreNumbers(w.index, slots, w.generation);
    RefusedBlobs(w.store, w.uploads, after.uploads, id, w.index);
    RefusedUploads(w.store, w.uploads, after.uploads, id, w.index, w.generation);
    SameMirror(w, after, slots);
  }

  lemma MoreNumbers(index: Index, slots: Slots, generation: nat)
    requires IndexSound(index, slots, generation)
    ensures IndexSound(index, slots, generation + 1)
  {
  }

  lemma RefusedBlobs(store: Store, uploads: seq<Upload>, moved: seq<Upload>, id: nat, index: Index)
    requires BlobsSound(store, uploads, index) && id < |uploads| && uploads[id].phase == Staged
    requires |moved| == |uploads| && forall k :: 0 <= k < |uploads| && k != id ==> moved[k] == uploads[k]
    ensures BlobsSound(store, moved, index)
  {
    hide BlobSound;
    forall b, key | b in index.objects && key in index.objects[b]
      ensures BlobSound(store, moved, b, key, index.objects[b][key])
    {
      RefusedBlob(store, uploads, moved, id, b, key, index.objects[b][key]);
    }
  }

  lemma RefusedUploads(store: Store, uploads: seq<Upload>, moved: seq<Upload>, id: nat, index: Index, generation: nat)
    requires UploadsSound(store, uploads) && OwnersSound(uploads, index, generation) && id < |uploads|
    requires |moved| == |uploads| && forall k :: 0 <= k < |uploads| && k != id ==> moved[k] == uploads[k]
    requires moved[id].phase == Done && moved[id].bucket == uploads[id].bucket
    ensures UploadsSound(store, moved) && OwnersSound(moved, index, generation + 1)
  {
  }

  lemma SameMirror(w: World, after: World, slots: Slots)
    requires Mirror(w, slots) && after == w.(uploads := after.uploads, generation := after.generation)
    ensures Mirror(after, slots)
  {
    hide MirrorAt;
  }

  lemma RefusedBlob(store: Store, uploads: seq<Upload>, moved: seq<Upload>, id: nat, b: string, key: Key, blob: Blob)
    requires BlobSound(store, uploads, b, key, blob) && id < |uploads| && uploads[id].phase == Staged
    requires |moved| == |uploads| && forall k :: 0 <= k < |uploads| && k != id ==> moved[k] == uploads[k]
    ensures BlobSound(store, moved, b, key, blob)
  {
    hide Measured;
  }

  lemma SoundOver(w: World, slots: Slots, id: nat, attributes: map<string, string>, current: Blob)
    requires Layout(slots) && Sound(w, slots) && id < |w.uploads| && w.uploads[id].phase == Staged
    requires w.uploads[id].bucket in w.index.buckets && w.uploads[id].key.name in slots
    requires StagingPlace(w, id).Some? && FileAt(w.store.fs, StagingPlace(w, id).value).Some?
    requires Current(w.index, w.uploads[id].bucket, w.uploads[id].key.name) == Some(current)
    ensures Named(slots)
    ensures var b, name := w.uploads[id].bucket, w.uploads[id].key.name;
            var r := InsertOver(Moved(w, id, Attached), slots, b, name, EmptyBlob(Key(name, w.generation + 1), id, attributes), current);
            r.Ok? && Sound(r.value, slots) && (b, name) in r.value.behind && Evolves(w.store, r.value.store)
  {
    hide Sound, Layout, Insert, TellUpdate, Seals, Current, BlobSound, FileAt, MirrorAt, SameInode, EntryAt, Evolves;
    var b, name := w.uploads[id].bucket, w.uploads[id].key.name;
    SoundAttach(w, slots, id, attributes);
    var blob := EmptyBlob(Key(name, w.generation + 1), id, attributes);
    var inserted := Insert(Moved(w, id, Attached), slots, b, name, blob).value;
    LiveBlob(w, slots, b, name);
    NotSealing(w.store, w.uploads, b, KeyOf(current), current);
    SealsByMedias(w.store, inserted.store, current);
    InsertKeepsBuckets(Moved(w, id, Attached), slots, b, name, blob);
    SoundBehind(inserted, slots, b, name, current);
    EvolvesOn(w.store, inserted.store, TellUpdate(inserted.store, b, slots[name], current).value);
  }

  lemma SealsByMedias(before: Store, after: Store, blob: Blob)
    requires after.medias == before.medias
    ensures Seals(after, blob) == Seals(before, blob)
  {
  }

  lemma InsertKeepsBuckets(w: World, slots: Slots, b: string, name: string, blob: Blob)
    requires Named(slots) && name in slots
    ensures var r := Insert(w, slots, b, name, blob); r.Ok? ==> r.value.index.buckets == w.index.buckets
  {
  }

  lemma SoundStart(w: World, slots: Slots, b: string, uploadId: string, name: string, attributes: map<string, string>)
    requires Layout(slots) && Sound(w, slots) && b in w.index.buckets && name in slots && FreshUpload(w, b, uploadId)
    ensures Named(slots)
    ensures var started := StartUpload(w, b, uploadId, name);
            && started.Ok? && |started.value.uploads| == |w.uploads| + 1
            && started.value.uploads[|w.uploads|].key.name == name
            && var r := AttachUpload(started.value, slots, |w.uploads|, attributes);
               r.Ok? && Sound(r.value, slots) && Evolves(w.store, r.value.store)
  {
    hide Sound, Layout, StartUpload, FreshUpload, Insert, InsertOver, Moved, Current, FileAt, Evolves;
    SoundStage(w, slots, b, uploadId, name);
    var s, id := StartUpload(w, b, uploadId, name).value, |w.uploads|;
    var current := Current(s.index, b, name);
    SlotsNamed(slots);
    AttachEvolves(w.store, s, slots, id, attributes);
    if current.Some? && !current.value.meta.finalized {
      SoundRefused(s, slots, id);
    } else if current.Some? {
      SoundOver(s, slots, id, attributes, current.value);
    } else {
      SoundAttach(s, slots, id, attributes);
    }
  }

  /** The step from a staged upload to an attached one, after what came before. */
  lemma AttachEvolves(before: Store, w: World, slots: Slots, id: nat, attributes: map<string, string>)
    requires Layout(slots) && Sound(w, slots) && id < |w.uploads| && w.uploads[id].phase == Staged && Evolves(before, w.store)
    requires w.uploads[id].bucket in w.index.buckets && w.uploads[id].key.name in slots
    requires StagingPlace(w, id).Some? && FileAt(w.store.fs, StagingPlace(w, id).value).Some?
    ensures Named(slots)
    ensures var r := AttachUpload(w, slots, id, attributes); r.Ok? ==> Evolves(before, r.value.store)
  {
    hide Sound, Layout, Insert, InsertOver, Current, FileAt, Evolves;
    var b, name := w.uploads[id].bucket, w.uploads[id].key.name;
    SlotsNamed(slots);
    var current := Current(w.index, b, name);
    var r := AttachUpload(w, slots, id, attributes);
    if current.Some? && current.value.meta.finalized {
      SoundOver(w, slots, id, attributes, current.value);
      EvolvesOn(before, w.store, r.value.store);
    } else if current.None? {
      SoundAttach(w, slots, id, attributes);
      EvolvesOn(before, w.store, r.value.store);
    }
  }

  /** The object an attached upload writes is the live one of its name, or gone. */
  lemma WrittenIsLive(w: World, slots: Slots, id: nat)
    requires Layout(slots) && Sound(w, slots) && InScope(w, slots, id) && Written(w, id).Some?
    ensures var Upload(b, key, _) := w.uploads[id];
            var blob := Written(w, id).value;
            && b in w.index.buckets && KeyOf(blob) == key && blob.media == OnDisk(id) && blob.upload
            && Current(w.index, b, key.name) == Some(blob)
  {
    hide Layout, TreesSound, Mirror, Handles, BlobsSound, UploadsSound;
  }

  lemma CheckpointSound(store: Store, uploads: seq<Upload>, b: string, key: Key, id: nat, blob: Blob)
    requires Handles(store) && BlobSound(store, uploads, b, key, blob) && blob.upload && blob.media == OnDisk(id)
    requires id < |store.medias|
    ensures BlobSound(store, uploads, b, key, Checkpointed(blob, store.medias[id], id))
  {
    HandleMeasures(store, id);
    if store.medias[id].size == 0 {
      Crc32cOfNothing(0);
      assert MediaBytes(store, id) == [];
    }
  }

  lemma SoundCheckpoint(w: World, slots: Slots, id: nat)
    requires Layout(slots) && Sound(w, slots) && InScope(w, slots, id) && Written(w, id).Some?
    ensures Named(slots)
    ensures var Upload(b, key, _) := w.uploads[id];
            var blob := Checkpointed(Written(w, id).value, w.store.medias[id], id);
            var r := Update(w, slots, b, key.name, blob);
            && r.Ok? && Sound(r.value, slots) && (b, key.name) !in r.value.behind && Evolves(w.store, r.value.store)
            && BytesKept(w.store, r.value.store) && Current(r.value.index, b, key.name) == Some(blob)
  {
    hide Sound, Layout, Update, Current, BlobSound, MirrorAt, SameInode, EntryAt, Handles, BlobsSound, Mirror, TreesSound, IndexSound,
         OwnersSound, UploadsSound, LiveOrGone;
    var Upload(b, key, _) := w.uploads[id];
    Parts(w, slots);
    WrittenIsLive(w, slots, id);
    LiveBlob(w, slots, b, key.name);
    var blob := Checkpointed(Written(w, id).value, w.store.medias[id], id);
    CheckpointSound(w.store, w.uploads, b, key, id, Written(w, id).value);
    NotSealing(w.store, w.uploads, b, key, blob);
    SoundUpdate(w, slots, b, key.name, blob);
  }

  lemma SoundFinal(w: World, slots: Slots, id: nat)
    requires Layout(slots) && Sound(w, slots) && InScope(w, slots, id) && Written(w, id).Some?
    ensures Named(slots)
    ensures var Upload(b, key, _) := w.uploads[id];
            var blob := Finalized(Written(w, id).value, w.store.medias[id], id);
            var r := Update(w.(uploads := Ended(w.uploads, id)), slots, b, key.name, blob);
            && r.Ok? && Sound(r.value, slots) && (b, key.name) !in r.value.behind && Settles(w.store, r.value.store, id)
            && Evolves(w.store, r.value.store) && BytesKept(w.store, r.value.store)
            && Current(r.value.index, b, key.name) == Some(blob)
  {
    hide Sound, Layout, Update, Current, BlobSound, LiveOrGone, Settles;
    var Upload(b, key, _) := w.uploads[id];
    WrittenIsLive(w, slots, id);
    SoundSeal(w, slots, b, key.name, id, Finalized(Written(w, id).value, w.store.medias[id], id));
  }

  /** An update that leaves the bytes and their measures alone. */
  lemma SoundTouch(w: World, slots: Slots, b: string, name: string, blob: Blob)
    requires Layout(slots) && Sound(w, slots) && b in w.index.buckets && name in slots && Current(w.index, b, name).Some?
    requires var current := Current(w.index, b, name).value;
             && KeyOf(blob) == KeyOf(current) && blob.media == current.media && blob.upload == current.upload
             && blob.meta == current.meta.(metageneration := blob.meta.metageneration, attributes := blob.meta.attributes)
             && (if blob.upload then blob.uploadGen >= 1 else blob.uploadGen == 0)
    ensures Named(slots)
    ensures var r := Update(w, slots, b, name, blob);
            r.Ok? && Sound(r.value, slots) && (b, name) !in r.value.behind && Evolves(w.store, r.value.store)
            && BytesKept(w.store, r.value.store)
  {
    hide Sound, Layout, Update, Current, MirrorAt, SameInode, EntryAt, Crc32c, BytesKept;
    LiveBlob(w, slots, b, name);
    var current := Current(w.index, b, name).value;
    assert BlobSound(w.store, w.uploads, b, KeyOf(blob), blob);
    NotSealing(w.store, w.uploads, b, KeyOf(blob), blob);
    SoundUpdate(w, slots, b, name, blob);
  }

  lemma GenerationIsLive(w: World, slots: Slots, b: string, name: string, generation: nat)
    requires Layout(slots) && Sound(w, slots) && LiveOrGone(w, b, Key(name, generation))
    requires Generation(w.index, b, Key(name, generation)).Some?
    ensures b in w.index.buckets && Current(w.index, b, name) == Generation(w.index, b, Key(name, generation))
    ensures var blob := Current(w.index, b, name).value; blob.meta.name == name && WriterSound(w.uploads, b, KeyOf(blob), blob)
  {
    hide Layout, TreesSound, Mirror, Handles, UploadsSound, Measured;
  }

  lemma SoundBucketStep(w: World, slots: Slots, step: Step)
    requires Layout(slots) && Sound(w, slots) && Named(slots) && Legal(w, slots, step)
    requires step.InsertBucket? || step.UpdateBucket? || step.DeleteBucket? || step.Clear?
    ensures var r := Next(w, slots, step); r.Ok? && Sound(r.value, slots) && Evolves(w.store, r.value.store)
  {
    hide Sound, Layout, Named, Absorb, TellBucket, TellBucketUpdate, TellBucketDelete, TellClear, Evolves;
    Shape(w, slots);
    EvolvesNot(w.store);
    match step
    case InsertBucket(bucket) =>
      if bucket.name !in w.index.buckets { SoundNewBucket(w, slots, bucket); }
    case UpdateBucket(bucket, raised) =>
      if bucket.name in w.index.buckets && raised { SoundMislabel(w, slots, bucket); }
      else if bucket.name in w.index.buckets { SoundRelabel(w, slots, bucket); }
    case DeleteBucket(b) =>
      if b in w.index.buckets && w.index.live[b] == map[] { SoundDropBucket(w, Next(w, slots, step).value, slots, b); }
    case Clear => SoundClear(w, slots);
  }

  lemma SoundNewBytes(w: World, slots: Slots, b: string, name: string, bytes: Bytes, attributes: map<string, string>)
    requires Layout(slots) && Sound(w, slots) && name in slots && b in w.index.buckets
    ensures Named(slots)
    ensures var blob := BytesBlob(Key(name, w.generation + 1), bytes, attributes);
            var r := Insert(w.(generation := w.generation + 1), slots, b, name, blob);
            r.Ok? && Sound(r.value, slots) && Evolves(w.store, r.value.store)
  {
    hide Sound, Layout, Named, Insert, Evolves, Crc32c;
    SoundBytes(w, slots, b, name, BytesBlob(Key(name, w.generation + 1), bytes, attributes));
  }

  lemma SoundUploadStep(w: World, slots: Slots, step: Step)
    requires Layout(slots) && Sound(w, slots) && Named(slots) && Legal(w, slots, step)
    requires step.NewUpload? || step.Append? || step.InsertBytes? || step.FinishUpload? || step.StartAppendable?
    ensures var r := Next(w, slots, step); r.Ok? && Sound(r.value, slots) && Evolves(w.store, r.value.store)
  {
    hide Sound, Layout, Named, Insert, StartUpload, AttachUpload, FinishWhole, FreshUpload, Grow, Evolves, BytesBlob, Grew;
    Shape(w, slots);
    EvolvesNot(w.store);
    match step
    case NewUpload(b, uploadId, name) =>
      if b in w.index.buckets { SoundStage(w, slots, b, uploadId, name); }
    case Append(id, data) => SoundGrow(w, slots, id, data);
    case InsertBytes(b, name, bytes, attributes) =>
      if b in w.index.buckets { SoundNewBytes(w, slots, b, name, bytes, attributes); }
    case FinishUpload(id, attributes) => SoundFinish(w, slots, id, attributes);
    case StartAppendable(b, uploadId, name, attributes) =>
      if b in w.index.buckets { SoundStart(w, slots, b, uploadId, name, attributes); }
  }

  lemma SoundWriterStep(w: World, slots: Slots, step: Step)
    requires Layout(slots) && Sound(w, slots) && Named(slots) && Legal(w, slots, step)
    requires step.Checkpoint? || step.FinishAppendable?
    ensures var r := Next(w, slots, step); r.Ok? && Sound(r.value, slots) && Evolves(w.store, r.value.store)
  {
    hide Sound, Layout, Named, Update, LiveOrGone, Written, Checkpointed, Finalized, Ended, Evolves, BytesKept, Current, Settles;
    EvolvesNot(w.store);
    match step
    case Checkpoint(id) =>
      if Written(w, id).Some? { SoundCheckpoint(w, slots, id); }
    case FinishAppendable(id) =>
      if Written(w, id).Some? { SoundFinal(w, slots, id); }
  }

  /** No step from a sound world makes the store fail, and every step leads to a sound world. */
  lemma StepSound(w: World, slots: Slots, step: Step)
    requires Layout(slots) && Sound(w, slots) && Named(slots) && Legal(w, slots, step) && (step.Delete? ==> Placed(w, slots))
    ensures var r := Next(w, slots, step); r.Ok? && Sound(r.value, slots) && Evolves(w.store, r.value.store)
  {
    hide Sound, Layout, Named, Next, Evolves, Placed;
    match step
    case InsertBucket(_) => SoundBucketStep(w, slots, step);
    case UpdateBucket(_, _) => SoundBucketStep(w, slots, step);
    case DeleteBucket(_) => SoundBucketStep(w, slots, step);
    case Clear => SoundBucketStep(w, slots, step);
    case Checkpoint(_) => SoundWriterStep(w, slots, step);
    case FinishAppendable(_) => SoundWriterStep(w, slots, step);
    case TakeOver(_, _, _) => SoundTakeOver(w, slots, step);
    case Patch(_, _, _, _) => SoundPatch(w, slots, step);
    case Delete(_, _, _) => SoundRemoval(w, slots, step);
    case _ => SoundUploadStep(w, slots, step);
  }

  lemma SoundTakeOver(w: World, slots: Slots, step: Step)
    requires Layout(slots) && Sound(w, slots) && Named(slots) && step.TakeOver? && Legal(w, slots, step)
    ensures var r := Next(w, slots, step); r.Ok? && Sound(r.value, slots) && Evolves(w.store, r.value.store)
  {
    hide Sound, Layout, Named, Update, Current, Generation, LiveOrGone, Evolves;
    EvolvesNot(w.store);
    var TakeOver(b, name, generation) := step;
    var blob := Generation(w.index, b, Key(name, generation));
    if blob.Some? && !blob.value.meta.finalized {
      GenerationIsLive(w, slots, b, name, generation);
      SoundTouch(w, slots, b, name, TakenOver(blob.value));
    }
  }

  lemma CurrentHasBucket(w: World, slots: Slots, b: string, name: string)
    requires Layout(slots) && Sound(w, slots) && Current(w.index, b, name).Some?
    ensures b in w.index.buckets
  {
    hide Layout, TreesSound, Mirror, Handles, BlobsSound, UploadsSound;
  }

  lemma SoundPatch(w: World, slots: Slots, step: Step)
    requires Layout(slots) && Sound(w, slots) && Named(slots) && step.Patch? && Legal(w, slots, step)
    ensures var r := Next(w, slots, step); r.Ok? && Sound(r.value, slots) && Evolves(w.store, r.value.store)
  {
    hide Sound, Layout, Named, Update, Current, MirrorAt, SameInode, EntryAt, Measured, StagedNow, SettledNow, Evolves, Untold;
    EvolvesNot(w.store);
    var Patch(b, name, attributes, raised) := step;
    var blob := Current(w.index, b, name);
    if blob.Some? {
      CurrentHasBucket(w, slots, b, name);
      LiveBlob(w, slots, b, name);
      if raised {
        SoundUntold(w, slots, b, name, attributes);
      } else {
        SoundTouch(w, slots, b, name, Patched(blob.value, attributes));
      }
    }
  }

  lemma SoundRemoval(w: World, slots: Slots, step: Step)
    requires Layout(slots) && Sound(w, slots) && Named(slots) && step.Delete? && Legal(w, slots, step)
    requires Placed(w, slots)
    ensures var r := Next(w, slots, step); r.Ok? && Sound(r.value, slots) && Evolves(w.store, r.value.store)
  {
    hide Sound, Layout, Named, Discard, Current, Generation, LiveGeneration, Evolves, Placed;
    EvolvesNot(w.store);
    var Delete(b, name, generation) := step;
    if Meant(w.index, b, name, generation).Some? {
      MeantKey(w, slots, b, name, generation);
      if LiveGeneration(w.index, b, name).Some? {
        SoundDelete(w, slots, b, name);
      } else {
        HasItsDir(w, slots, b, Key(name, generation));
        SoundDeleteOld(w, slots, b, Key(name, generation));
      }
    }
  }

  /** A generation that is meant is the live one, or its name has none. */
  lemma MeantKey(w: World, slots: Slots, b: string, name: string, generation: nat)
    requires Layout(slots) && Sound(w, slots) && Meant(w.index, b, name, generation).Some?
    requires generation == 0 || LiveOrNone(w, b, Key(name, generation))
    ensures b in w.index.buckets && Meant(w.index, b, name, generation).value.meta.name == name
    ensures generation != 0 ==> Meant(w.index, b, name, generation).value.meta.generation == generation
    ensures LiveGeneration(w.index, b, name).Some? ==> Meant(w.index, b, name, generation) == Current(w.index, b, name)
    ensures LiveGeneration(w.index, b, name).None? ==> generation != 0 && Generation(w.index, b, Key(name, generation)).Some?
  {
    hide Layout, TreesSound, Mirror, Handles, BlobsSound, UploadsSound, OwnersSound, LabelsSound;
  }
}
